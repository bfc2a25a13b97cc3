/** Reads against the game's 32-bit address space: the raw reads themselves are foreign
    (an uninterpreted memory), everything the reader builds on them is modelled here —
    pointer-chain resolution, reads with a caller default, the foreign string and the
    foreign dictionary's entry addressing. */
module ForeignMemory {
  import opened JsNumber

  /** The memoryjs data types the reader asks for. */
  datatype DataType = Int | Int32 | UInt32 | Byte | Float | Pointer | Ptr

  /** A player record decoded by the structured decoder; every field is a JS number. */
  datatype RawPlayer = RawPlayer(
    id: real, name: real, color: real, hat: real, pet: real, skin: real,
    disconnected: real, impostor: real, dead: real, taskPtr: real, objectPtr: real)

  /** The foreign process as the reader sees it.
      raw(a, t):      the value one raw read of type t at address a returns (a may be NaN);
      record(a):      the player record decoded from the buffer read at a;
      text(a, n):     the UTF-8 text of the n bytes read at a. */
  datatype Memory = Memory(
    raw: (JsNum, DataType) -> real,
    record: real -> RawPlayer,
    text: (real, int) -> string)

  /** What `offsetAddress` returns. */
  datatype Resolved = Resolved(address: real, last: real)

  /** The dereference the chain walk does at step i from `address`. */
  function Deref(mem: Memory, address: real, offsets: seq<real>, i: nat): real
    requires i < |offsets|
  {
    mem.raw(Num(address + offsets[i]), UInt32)
  }

  /** The address the walk reaches from `address`, dereferencing offsets i .. |offsets|-2
      and stopping at the first null. */
  function Walk(mem: Memory, address: real, offsets: seq<real>, i: nat): real
    decreases |offsets| - i
  {
    if i + 1 >= |offsets| then address
    else
      var a := Deref(mem, address, offsets, i);
      if a == 0.0 then 0.0 else Walk(mem, a, offsets, i + 1)
  }

  /** The addresses the walk from `address` passes to the raw reader, in order. */
  function WalkReads(mem: Memory, address: real, offsets: seq<real>, i: nat): seq<real>
    decreases |offsets| - i
  {
    if i + 1 >= |offsets| then []
    else
      var a := Deref(mem, address, offsets, i);
      [address + offsets[i]] + (if a == 0.0 then [] else WalkReads(mem, a, offsets, i + 1))
  }

  /** The address the chain starts from: `address & 0xffffffff`. */
  function ChainStart(base: JsNum): real {
    ToInt32(base) as real
  }

  function LastOffset(offsets: seq<real>): real {
    if |offsets| > 0 then offsets[|offsets| - 1] else 0.0
  }

  /** The specification of `offsetAddress`. */
  function Resolve(mem: Memory, base: JsNum, offsets: seq<real>): Resolved {
    Resolved(Walk(mem, ChainStart(base), offsets, 0), LastOffset(offsets))
  }

  function ChainReads(mem: Memory, base: JsNum, offsets: seq<real>): seq<real> {
    WalkReads(mem, ChainStart(base), offsets, 0)
  }

  /** `offsetAddress`: the loop that walks the chain. */
  method OffsetAddress(mem: Memory, base: JsNum, offsets: seq<real>) returns (address: real, last: real)
    ensures Resolved(address, last) == Resolve(mem, base, offsets)
  {
    address := ChainStart(base);
    var i := 0;
    while i < |offsets| - 1
      invariant 0 <= i && (|offsets| > 0 ==> i <= |offsets| - 1)
      invariant Walk(mem, ChainStart(base), offsets, 0) == Walk(mem, address, offsets, i)
    {
      address := mem.raw(Num(address + offsets[i]), UInt32);
      if address == 0.0 {
        break;
      }
      i := i + 1;
    }
    last := if |offsets| > 0 then offsets[|offsets| - 1] else 0.0;
  }

  /** The walk from step i reads at most once per offset before the last, and its first
      read is at the start plus offsets[i]. */
  lemma {:induction false} WalkReadsLength(mem: Memory, address: real, offsets: seq<real>, i: nat)
    requires i < |offsets|
    ensures var r := WalkReads(mem, address, offsets, i);
      && |r| <= |offsets| - 1 - i
      && (|r| > 0 ==> r[0] == address + offsets[i])
    decreases |offsets| - i
  {
    if i + 1 < |offsets| {
      var a := Deref(mem, address, offsets, i);
      if a != 0.0 {
        WalkReadsLength(mem, a, offsets, i + 1);
      }
    }
  }

  /** Each later read of the walk (at most one per offset before the last) is at the value
      the previous read returned plus the step's offset. */
  lemma {:induction false} WalkReadsLinked(mem: Memory, address: real, offsets: seq<real>, i: nat)
    requires i < |offsets|
    ensures var r := WalkReads(mem, address, offsets, i);
      |r| <= |offsets| - 1 - i && forall j :: 0 < j < |r| ==> r[j] == mem.raw(Num(r[j - 1]), UInt32) + offsets[i + j]
    decreases |offsets| - i
  {
    if i + 1 < |offsets| {
      var a := Deref(mem, address, offsets, i);
      if a != 0.0 {
        WalkReadsLinked(mem, a, offsets, i + 1);
        WalkReadsLength(mem, a, offsets, i + 1);
        var tail := WalkReads(mem, a, offsets, i + 1);
        var r := WalkReads(mem, address, offsets, i);
        assert r == [address + offsets[i]] + tail;
        forall j | 0 < j < |r|
          ensures r[j] == mem.raw(Num(r[j - 1]), UInt32) + offsets[i + j]
        {
          if j > 1 {
            assert r[j] == tail[j - 1] && r[j - 1] == tail[j - 2];
          }
        }
      }
    }
  }

  /** The walk only goes on past non-null values, stops early only at a null, and ends at
      the last value read (the start when nothing was read). */
  lemma {:induction false} WalkReadsStop(mem: Memory, address: real, offsets: seq<real>, i: nat)
    requires i < |offsets|
    ensures var r := WalkReads(mem, address, offsets, i);
      && (forall j :: 0 <= j < |r| - 1 ==> mem.raw(Num(r[j]), UInt32) != 0.0)
      && (|r| < |offsets| - 1 - i ==> |r| > 0 && mem.raw(Num(r[|r| - 1]), UInt32) == 0.0)
      && Walk(mem, address, offsets, i) == (if |r| == 0 then address else mem.raw(Num(r[|r| - 1]), UInt32))
    decreases |offsets| - i
  {
    if i + 1 < |offsets| {
      var a := Deref(mem, address, offsets, i);
      if a != 0.0 {
        WalkReadsStop(mem, a, offsets, i + 1);
        WalkReadsLength(mem, a, offsets, i + 1);
        var tail := WalkReads(mem, a, offsets, i + 1);
        var r := WalkReads(mem, address, offsets, i);
        assert r == [address + offsets[i]] + tail;
        assert |tail| > 0 ==> mem.raw(Num(r[0]), UInt32) == a;
        forall j | 0 <= j < |r| - 1
          ensures mem.raw(Num(r[j]), UInt32) != 0.0
        {
          if j > 0 {
            assert r[j] == tail[j - 1];
          }
        }
      }
    }
  }

  /** Pointer-chain resolution from the base address: the j-th dereference is at the
      (j-1)-th value read plus offsets[j] (the start for j = 0), the final offset is never
      dereferenced, the walk stops at the first null and resolves to the last value read,
      and `last` is the final offset (0 for an empty list). */
  lemma ChainLaw(mem: Memory, base: JsNum, offsets: seq<real>)
    ensures var r := ChainReads(mem, base, offsets);
      var res := Resolve(mem, base, offsets);
      && |r| <= (if |offsets| == 0 then 0 else |offsets| - 1)
      && (|r| > 0 ==> r[0] == ChainStart(base) + offsets[0])
      && (forall j :: 0 < j < |r| ==> r[j] == mem.raw(Num(r[j - 1]), UInt32) + offsets[j])
      && (forall j :: 0 <= j < |r| - 1 ==> mem.raw(Num(r[j]), UInt32) != 0.0)
      && (|r| + 1 < |offsets| ==> |r| > 0 && res.address == 0.0)
      && res.address == (if |r| == 0 then ChainStart(base) else mem.raw(Num(r[|r| - 1]), UInt32))
      && res.last == (if |offsets| == 0 then 0.0 else offsets[|offsets| - 1])
  {
    if |offsets| > 0 {
      WalkReadsLength(mem, ChainStart(base), offsets, 0);
      WalkReadsLinked(mem, ChainStart(base), offsets, 0);
      WalkReadsStop(mem, ChainStart(base), offsets, 0);
    }
  }

  /** `readMemory`: the caller's default when the base address is 0 or the chain resolves
      to null, otherwise one raw read at exactly the resolved address plus the last offset. */
  function ReadMemory(mem: Memory, ty: DataType, base: JsNum, offsets: seq<real>, default: JsNum): (r: JsNum)
    ensures StrictEq(base, Num(0.0)) ==> r == default
    ensures Resolve(mem, base, offsets).address == 0.0 ==> r == default
    ensures r != default ==> r == Num(mem.raw(Num(Resolve(mem, base, offsets).address + LastOffset(offsets)), ty))
  {
    if StrictEq(base, Num(0.0)) then default
    else
      var res := Resolve(mem, base, offsets);
      if res.address == 0.0 then default else Num(mem.raw(Num(res.address + res.last), ty))
  }

  /** The raw reads one `readMemory` issues, in order. */
  function IssuedReads(mem: Memory, base: JsNum, offsets: seq<real>): seq<real> {
    if StrictEq(base, Num(0.0)) then []
    else
      var res := Resolve(mem, base, offsets);
      ChainReads(mem, base, offsets) + (if res.address == 0.0 then [] else [res.address + res.last])
  }

  /** A read against address 0 issues no raw read; a read whose chain meets a null issues
      only the chain's dereferences and yields the default; any other read ends with one
      read at the resolved address plus the last offset, and returns what that read returns. */
  lemma ReadMemoryReads(mem: Memory, ty: DataType, base: JsNum, offsets: seq<real>, default: JsNum)
    ensures StrictEq(base, Num(0.0)) ==> IssuedReads(mem, base, offsets) == []
    ensures !StrictEq(base, Num(0.0)) && Resolve(mem, base, offsets).address == 0.0 ==>
      IssuedReads(mem, base, offsets) == ChainReads(mem, base, offsets) &&
      ReadMemory(mem, ty, base, offsets, default) == default
    ensures !StrictEq(base, Num(0.0)) && Resolve(mem, base, offsets).address != 0.0 ==>
      var issued := IssuedReads(mem, base, offsets);
      && |issued| == |ChainReads(mem, base, offsets)| + 1
      && issued[|issued| - 1] == Resolve(mem, base, offsets).address + LastOffset(offsets)
      && ReadMemory(mem, ty, base, offsets, default) == Num(mem.raw(Num(issued[|issued| - 1]), ty))
  {
  }

  /** An intermediate null anywhere in the chain makes every read through it yield the
      caller's default, and no later offset is dereferenced. */
  lemma NullInChain(mem: Memory, ty: DataType, base: JsNum, offsets: seq<real>, default: JsNum, j: nat)
    requires j < |ChainReads(mem, base, offsets)|
    requires mem.raw(Num(ChainReads(mem, base, offsets)[j]), UInt32) == 0.0
    ensures |ChainReads(mem, base, offsets)| == j + 1
    ensures Resolve(mem, base, offsets).address == 0.0
    ensures ReadMemory(mem, ty, base, offsets, default) == default
  {
    ChainLaw(mem, base, offsets);
  }

  // ---------------------------------------------------------------- the foreign dictionary

  /** The bucket-entries pointer of the dictionary at `address`, as `& 0xffffffff` leaves it. */
  function DictionaryEntries(mem: Memory, address: JsNum): real {
    ToInt32(Num(mem.raw(Plus(address, Num(0xC as real)), UInt32))) as real
  }

  /** `Math.min(count, maxLen)`, the bound of the visiting loop. */
  function DictionaryLength(mem: Memory, address: JsNum, maxLen: nat): (n: JsNum)
    ensures n.Num? && n.v <= maxLen as real
  {
    MathMin(Num(mem.raw(Num(DictionaryEntries(mem, address) + 0xC as real), Int32)), Num(maxLen as real))
  }

  function Ceil(x: real): (c: int)
    ensures x <= c as real < x + 1.0
  {
    -((-x).Floor)
  }

  /** How many times `for (let i = 0; i < bound; i++)` runs. */
  function Iterations(bound: JsNum): (n: nat)
    ensures bound.Num? ==> (n == 0 <==> bound.v <= 0.0)
    ensures bound.Num? && n > 0 ==> (n - 1) as real < bound.v <= n as real
    ensures !bound.Num? ==> n == 0
  {
    if bound.Num? && bound.v > 0.0 then Ceil(bound.v) else 0
  }

  /** The loop condition holds exactly for the first Iterations(bound) counters. */
  lemma IterationsExact(bound: JsNum, i: nat)
    ensures i < Iterations(bound) <==> Lt(Num(i as real), bound)
  {
  }

  /** The (key slot, value slot) address pairs of the first n entries. */
  function EntrySlots(entries: real, n: nat): (slots: seq<(real, real)>)
    ensures |slots| == n
    ensures forall i :: 0 <= i < n ==>
      slots[i] == (entries + 0x18 as real + 16.0 * i as real, entries + 0x1C as real + 16.0 * i as real)
  {
    if n == 0 then []
    else EntrySlots(entries, n - 1) + [(entries + 0x18 as real + 16.0 * (n - 1) as real, entries + 0x1C as real + 16.0 * (n - 1) as real)]
  }

  /** The slots `readDictionary` visits. */
  function DictionarySlots(mem: Memory, address: JsNum, maxLen: nat): seq<(real, real)> {
    EntrySlots(DictionaryEntries(mem, address), Iterations(DictionaryLength(mem, address, maxLen)))
  }

  /** `readDictionary`: the (key slot, value slot) address pairs handed to the visitor, in
      visiting order. The visitor is called max(0, min(count, maxLen)) times; the i-th key
      slot is entries + 0x10 + (4i + 2)·4, its value slot four bytes further on. */
  method ReadDictionary(mem: Memory, address: JsNum, maxLen: nat) returns (slots: seq<(real, real)>)
    ensures var count := mem.raw(Num(DictionaryEntries(mem, address) + 0xC as real), Int32);
      count == count.Floor as real ==>
        |slots| == (if count.Floor < 0 then 0 else if count.Floor < maxLen then count.Floor else maxLen)
    ensures |slots| == Iterations(DictionaryLength(mem, address, maxLen)) && |slots| <= maxLen
    ensures forall i :: 0 <= i < |slots| ==>
      slots[i] == (DictionaryEntries(mem, address) + 0x18 as real + 16.0 * i as real,
                   DictionaryEntries(mem, address) + 0x1C as real + 16.0 * i as real)
    ensures forall i :: 0 <= i < |slots| - 1 ==> slots[i + 1].0 == slots[i].0 + 16.0
    ensures slots == DictionarySlots(mem, address, maxLen)
  {
    var entries := ToInt32(Num(mem.raw(Plus(address, Num(0xC as real)), UInt32))) as real;
    var len := MathMin(Num(mem.raw(Num(entries + 0xC as real), Int32)), Num(maxLen as real));
    slots := [];
    var i: nat := 0;
    while Lt(Num(i as real), len)
      invariant i <= maxLen && i <= Iterations(len)
      invariant |slots| == i
      invariant forall k :: 0 <= k < i ==>
        slots[k] == (entries + 0x18 as real + 16.0 * k as real, entries + 0x1C as real + 16.0 * k as real)
      decreases maxLen - i
    {
      IterationsExact(len, i);
      var offset := entries + 0x10 as real + (i as real * 4.0 + 2.0) * 4.0;
      slots := slots + [(offset, offset + 4.0)];
      i := i + 1;
    }
    IterationsExact(len, i);
  }

  // ---------------------------------------------------------------- the foreign string

  /** `s.replace(/\0/g, '')`. */
  function StripNul(s: string): (r: string)
    ensures '\0' !in r
  {
    if s == [] then []
    else if s[0] == '\0' then StripNul(s[1..])
    else [s[0]] + StripNul(s[1..])
  }

  /** Stripping removes exactly the NUL characters: every other character keeps its count. */
  lemma {:induction false} StripNulLaw(s: string)
    ensures multiset(StripNul(s)) == multiset(s)['\0' := 0]
    ensures |StripNul(s)| + multiset(s)['\0'] == |s|
  {
    if s != [] {
      assert s == [s[0]] + s[1..];
      StripNulLaw(s[1..]);
    }
  }

  /** Stripping keeps the order of what it keeps: it distributes over concatenation, and
      keeps a single character exactly when it is not NUL. */
  lemma {:induction false} StripNulAppend(a: string, b: string)
    ensures StripNul(a + b) == StripNul(a) + StripNul(b)
    ensures |a| == 1 ==> StripNul(a) == if a[0] == '\0' then [] else a
    decreases |a|
  {
    if a == [] {
      assert a + b == b;
    } else {
      assert (a + b)[1..] == a[1..] + b;
      StripNulAppend(a[1..], b);
      if |a| == 1 {
        assert a[1..] == [];
      }
    }
  }

  /** The byte count `length << 1`, a 32-bit value. */
  function ByteLength(length: real): int {
    ToInt32(Num((ToInt32(Num(length)) * 2) as real))
  }

  /** `readString`: the empty string for address 0 without any read; otherwise the text of
      the (length << 1) bytes after the 12-byte header, with NUL characters removed. */
  function ReadString(mem: Memory, address: real): (s: string)
    ensures address == 0.0 ==> s == ""
    ensures '\0' !in s
  {
    if address == 0.0 then ""
    else
      var length := mem.raw(Num(address + 8.0), Int);
      StripNul(mem.text(address + 0xC as real, ByteLength(length)))
  }

  /** A string read at a nonzero address is the text it decodes with the NUL characters
      removed: for any split of the text, the two stripped parts in order, so that every
      other character keeps its place and its count. */
  lemma ReadStringLaw(mem: Memory, address: real, a: string, b: string)
    requires address != 0.0
    requires mem.text(address + 0xC as real, ByteLength(mem.raw(Num(address + 8.0), Int))) == a + b
    ensures ReadString(mem, address) == StripNul(a) + StripNul(b)
    ensures multiset(ReadString(mem, address)) == multiset(a + b)['\0' := 0]
  {
    StripNulAppend(a, b);
    StripNulLaw(a + b);
  }

  /** Stripping is idempotent: text without NUL characters is returned unchanged. */
  lemma {:induction false} StripNulKeepsClean(s: string)
    requires '\0' !in s
    ensures StripNul(s) == s
  {
    if s != [] {
      assert s == [s[0]] + s[1..];
      StripNulKeepsClean(s[1..]);
    }
  }
}
