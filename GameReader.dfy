/** The reader's per-tick loop: what it reads from the game (players, doors, sabotage,
    cameras, phase inputs), how it decodes and counts players, and the reader object whose
    fields carry the classifier from tick to tick. */
module GameReader {
  import opened JsNumber
  import opened ForeignMemory
  import opened GameModel
  import opened PhaseMachine
  import opened LobbyCode

  /** The default `false` of a boolean read: it behaves as 0 under `!`, `!!` and `<`. */
  const FalseDefault: JsNum := Num(0.0)

  // ---------------------------------------------------------------- players

  /** `parsePlayer` on the record decoded at `ptr`. */
  function ParsePlayer(mem: Memory, offs: Offsets, ptr: real): Player {
    var data := mem.record(ptr);
    var obj := Num(data.objectPtr);
    var isLocal := !StrictEq(ReadMemory(mem, Int, obj, offs.player.isLocal, Undefined), Num(0.0));
    var xChain := if isLocal then offs.player.localX else offs.player.remoteX;
    var yChain := if isLocal then offs.player.localY else offs.player.remoteY;
    Player(
      ptr, data.id, ReadString(mem, data.name),
      data.color, data.hat, data.pet, data.skin,
      data.disconnected > 0.0, data.impostor > 0.0, data.dead > 0.0,
      data.taskPtr, data.objectPtr,
      isLocal,
      ReadMemory(mem, Float, obj, xChain, Undefined),
      ReadMemory(mem, Float, obj, yChain, Undefined),
      Gt(ReadMemory(mem, Byte, obj, offs.player.inVent, Undefined), Num(0.0)))
  }

  /** A player is local unless its object's flag reads exactly 0, and its position is read
      through the local or the remote chains accordingly; the name is the string at the
      record's name pointer and the vent flag is a byte above 0. A player whose object pointer
      is null reads no flag at all, so it is taken as local (`undefined !== 0`), its
      position is `undefined` and it is not in a vent. */
  lemma ParsePlayerLaw(mem: Memory, offs: Offsets, ptr: real)
    ensures var p := ParsePlayer(mem, offs, ptr);
      var data := mem.record(ptr);
      && p.ptr == ptr && p.id == data.id && p.objectPtr == data.objectPtr
      && '\0' !in p.name
      && (p.isDead <==> data.dead > 0.0) && (p.disconnected <==> data.disconnected > 0.0)
      && (p.isImpostor <==> data.impostor > 0.0)
      && p.name == ReadString(mem, data.name)
      && (p.isLocal <==> !StrictEq(ReadMemory(mem, Int, Num(data.objectPtr), offs.player.isLocal, Undefined), Num(0.0)))
      && p.x == ReadMemory(mem, Float, Num(data.objectPtr),
                           if p.isLocal then offs.player.localX else offs.player.remoteX, Undefined)
      && p.y == ReadMemory(mem, Float, Num(data.objectPtr),
                           if p.isLocal then offs.player.localY else offs.player.remoteY, Undefined)
      && (p.inVent <==> Gt(ReadMemory(mem, Byte, Num(data.objectPtr), offs.player.inVent, Undefined), Num(0.0)))
      && (data.objectPtr == 0.0 ==> p.isLocal && p.x == Undefined && p.y == Undefined && !p.inVent)
  {
  }

  /** The address of the i-th player pointer: the list base plus the fixed offset plus 4i. */
  function PlayerSlot(offs: Offsets, allPlayers: JsNum, i: nat): JsNum {
    Plus(allPlayers, Num(offs.playerAddrPtr + 4.0 * i as real))
  }

  /** The address of a player's record: the resolution of the player chain from its slot. */
  function RecordAddress(mem: Memory, offs: Offsets, slot: JsNum): real {
    var res := Resolve(mem, slot, offs.player.offsets);
    res.address + res.last
  }

  /** The i-th player. */
  function PlayerAt(mem: Memory, offs: Offsets, allPlayers: JsNum, i: nat): Player {
    ParsePlayer(mem, offs, RecordAddress(mem, offs, PlayerSlot(offs, allPlayers, i)))
  }

  /** The first n players, in slot order: player i is the one decoded from slot i. */
  function PlayerList(mem: Memory, offs: Offsets, allPlayers: JsNum, n: nat): (ps: seq<Player>)
    ensures |ps| == n
  {
    seq(n, (i: int) requires 0 <= i => PlayerAt(mem, offs, allPlayers, i))
  }

  /** The list of n + 1 players extends that of n by player n. */
  lemma PlayerListStep(mem: Memory, offs: Offsets, allPlayers: JsNum, n: nat)
    ensures PlayerList(mem, offs, allPlayers, n + 1) == PlayerList(mem, offs, allPlayers, n) + [PlayerAt(mem, offs, allPlayers, n)]
  {
  }

  /** A player the end-of-game count takes into account: named, not the exiled player,
      alive and connected. */
  predicate Counted(p: Player, exiled: JsNum) {
    p.name != "" && !StrictEq(Num(p.id), exiled) && !p.isDead && !p.disconnected
  }

  function Impostors(ps: seq<Player>, exiled: JsNum): nat {
    if ps == [] then 0
    else Impostors(ps[..|ps| - 1], exiled) + (if Counted(ps[|ps| - 1], exiled) && ps[|ps| - 1].isImpostor then 1 else 0)
  }

  function Crewmates(ps: seq<Player>, exiled: JsNum): nat {
    if ps == [] then 0
    else Crewmates(ps[..|ps| - 1], exiled) + (if Counted(ps[|ps| - 1], exiled) && !ps[|ps| - 1].isImpostor then 1 else 0)
  }

  function Skipped(ps: seq<Player>, exiled: JsNum): nat {
    if ps == [] then 0
    else Skipped(ps[..|ps| - 1], exiled) + (if Counted(ps[|ps| - 1], exiled) then 0 else 1)
  }

  /** The counts over one more player. */
  lemma CountStep(ps: seq<Player>, p: Player, exiled: JsNum)
    ensures Impostors(ps + [p], exiled) == Impostors(ps, exiled) + (if Counted(p, exiled) && p.isImpostor then 1 else 0)
    ensures Crewmates(ps + [p], exiled) == Crewmates(ps, exiled) + (if Counted(p, exiled) && !p.isImpostor then 1 else 0)
  {
    assert (ps + [p])[..|ps|] == ps;
  }

  /** Every decoded player is counted once: as an impostor, as crew, or skipped; so the two
      counts together never exceed the number of players, and both are 0 when nobody counts. */
  lemma {:induction false} CountsPartition(ps: seq<Player>, exiled: JsNum)
    ensures Impostors(ps, exiled) + Crewmates(ps, exiled) + Skipped(ps, exiled) == |ps|
    ensures (forall i :: 0 <= i < |ps| ==> !Counted(ps[i], exiled)) ==>
      Impostors(ps, exiled) == 0 && Crewmates(ps, exiled) == 0
  {
    if ps != [] {
      var init := ps[..|ps| - 1];
      CountsPartition(init, exiled);
      assert forall i :: 0 <= i < |init| ==> init[i] == ps[i];
    }
  }

  /** The list pointer, as the loop compares it across ticks. */
  function ListBase(mem: Memory, offs: Offsets, modBase: real): real {
    ToInt32(ReadMemory(mem, Ptr, Num(modBase), offs.allPlayersPtr, Undefined)) as real
  }

  function AllPlayers(mem: Memory, offs: Offsets, modBase: real): JsNum {
    ReadMemory(mem, Ptr, Num(ListBase(mem, offs, modBase)), offs.allPlayers, Undefined)
  }

  function PlayerCount(mem: Memory, offs: Offsets, modBase: real): JsNum {
    ReadMemory(mem, Int, Num(ListBase(mem, offs, modBase)), offs.playerCount, Undefined)
  }

  function Exiled(mem: Memory, offs: Offsets, modBase: real): JsNum {
    ReadMemory(mem, Byte, Num(modBase), offs.exiledPlayerId, Undefined)
  }

  /** How many players a tick decodes: `Math.min(playerCount, 10)` loop iterations. */
  function DecodedCount(mem: Memory, offs: Offsets, modBase: real): (n: nat)
    ensures n <= 10
  {
    Iterations(MathMin(PlayerCount(mem, offs, modBase), Num(10.0)))
  }

  /** Follows the player chain from a slot and decodes the record it reaches. */
  method ReadPlayer(mem: Memory, offs: Offsets, slot: JsNum) returns (player: Player)
    ensures player == ParsePlayer(mem, offs, RecordAddress(mem, offs, slot))
  {
    var address, last := OffsetAddress(mem, slot, offs.player.offsets);
    player := ParsePlayer(mem, offs, address + last);
  }

  /** The player loop: decodes the first min(playerCount, 10) players, stepping the slot
      address by 4, and counts the living impostors and crew among them. */
  method ReadPlayers(mem: Memory, offs: Offsets, modBase: real)
      returns (players: seq<Player>, impostors: nat, crewmates: nat, allPlayers: JsNum)
    ensures allPlayers == AllPlayers(mem, offs, modBase)
    ensures players == PlayerList(mem, offs, allPlayers, DecodedCount(mem, offs, modBase))
    ensures |players| <= 10
    ensures impostors == Impostors(players, Exiled(mem, offs, modBase))
    ensures crewmates == Crewmates(players, Exiled(mem, offs, modBase))
  {
    var allPlayersPtr := ToInt32(ReadMemory(mem, Ptr, Num(modBase), offs.allPlayersPtr, Undefined)) as real;
    allPlayers := ReadMemory(mem, Ptr, Num(allPlayersPtr), offs.allPlayers, Undefined);
    var playerCount := ReadMemory(mem, Int, Num(allPlayersPtr), offs.playerCount, Undefined);
    var playerAddrPtr := Plus(allPlayers, Num(offs.playerAddrPtr));
    players := [];
    var exiledPlayerId := ReadMemory(mem, Byte, Num(modBase), offs.exiledPlayerId, Undefined);
    impostors, crewmates := 0, 0;
    var bound := MathMin(playerCount, Num(10.0));
    var i: nat := 0;
    while Lt(Num(i as real), bound)
      invariant i <= Iterations(bound) <= 10
      invariant playerAddrPtr == PlayerSlot(offs, allPlayers, i)
      invariant players == PlayerList(mem, offs, allPlayers, i)
      invariant impostors == Impostors(players, exiledPlayerId)
      invariant crewmates == Crewmates(players, exiledPlayerId)
      decreases 10 - i
    {
      IterationsExact(bound, i);
      var player := ReadPlayer(mem, offs, playerAddrPtr);
      CountStep(players, player, exiledPlayerId);
      playerAddrPtr := Plus(playerAddrPtr, Num(4.0));
      PlayerListStep(mem, offs, allPlayers, i);
      players := players + [player];
      i := i + 1;
      impostors, crewmates := Tally(player, exiledPlayerId, impostors, crewmates);
    }
    IterationsExact(bound, i);
  }

  /** The loop body's count: a player who is unnamed, exiled, dead or disconnected is
      skipped; any other is an impostor or crew. */
  method Tally(player: Player, exiled: JsNum, impostors: nat, crewmates: nat) returns (impostors': nat, crewmates': nat)
    ensures impostors' == impostors + (if Counted(player, exiled) && player.isImpostor then 1 else 0)
    ensures crewmates' == crewmates + (if Counted(player, exiled) && !player.isImpostor then 1 else 0)
  {
    impostors', crewmates' := impostors, crewmates;
    if player.name == "" || StrictEq(Num(player.id), exiled) || player.isDead || player.disconnected {
      return;
    }
    if player.isImpostor {
      impostors' := impostors + 1;
    } else {
      crewmates' := crewmates + 1;
    }
  }

  /** `players.find(p => p.isLocal)` found someone. */
  predicate AnyLocal(ps: seq<Player>) {
    exists i :: 0 <= i < |ps| && ps[i].isLocal
  }

  // ---------------------------------------------------------------- doors

  function ShipPtr(mem: Memory, offs: Offsets, modBase: real): JsNum {
    ReadMemory(mem, Ptr, Num(modBase), offs.ship, Undefined)
  }

  function AllDoorsPtr(mem: Memory, offs: Offsets, shipPtr: JsNum): JsNum {
    ReadMemory(mem, UInt32, shipPtr, offs.allDoorsPtr, Undefined)
  }

  /** `Math.min(count, 32)`: NaN when the count cannot be read. */
  function AllDoorsCount(mem: Memory, allDoorsPtr: JsNum): (n: JsNum)
    ensures n.Num? ==> n.v <= 32.0
  {
    MathMin(ReadMemory(mem, Int32, allDoorsPtr, [0xC as real], Undefined), Num(32.0))
  }

  /** Door i reads closed (its open flag is falsy). */
  predicate DoorClosed(mem: Memory, offs: Offsets, allDoorsPtr: JsNum, i: nat) {
    !Truthy(ReadMemory(mem, Byte, allDoorsPtr, [(0x10 + i * 4) as real, offs.plainDoorIsOpen], Undefined))
  }

  /** The mask after the first n plain doors: bit j is cleared exactly when j < n and door j
      reads closed. */
  function PlainDoorMask(mem: Memory, offs: Offsets, allDoorsPtr: JsNum, n: nat): Mask {
    seq(32, j => !(0 <= j < n && DoorClosed(mem, offs, allDoorsPtr, j)))
  }

  /** One more door: clearing bit n when door n reads closed extends the mask to n + 1 doors. */
  lemma PlainDoorStep(mem: Memory, offs: Offsets, allDoorsPtr: JsNum, n: nat, closed: bool)
    requires n < 32 && closed == DoorClosed(mem, offs, allDoorsPtr, n)
    ensures (if closed then PlainDoorMask(mem, offs, allDoorsPtr, n)[n := false] else PlainDoorMask(mem, offs, allDoorsPtr, n))
      == PlainDoorMask(mem, offs, allDoorsPtr, n + 1)
  {
  }

  /** The plain-door loop: starts from all ones (-1) and clears bit i for each of the
      first min(count, 32) doors that reads closed. */
  method ReadPlainDoors(mem: Memory, offs: Offsets, allDoorsPtr: JsNum) returns (openDoors: Mask, count: JsNum)
    ensures count == AllDoorsCount(mem, allDoorsPtr)
    ensures Iterations(count) <= 32
    ensures openDoors == PlainDoorMask(mem, offs, allDoorsPtr, Iterations(count))
  {
    openDoors := AllOnes();
    count := MathMin(ReadMemory(mem, Int32, allDoorsPtr, [0xC as real], Undefined), Num(32.0));
    var i: nat := 0;
    while Lt(Num(i as real), count)
      invariant i <= Iterations(count) <= 32
      invariant openDoors == PlainDoorMask(mem, offs, allDoorsPtr, i)
      decreases 32 - i
    {
      IterationsExact(count, i);
      var open := ReadMemory(mem, Byte, allDoorsPtr, [(0x10 + i * 4) as real, offs.plainDoorIsOpen], Undefined);
      ShiftCountOfIndex(i);
      PlainDoorStep(mem, offs, allDoorsPtr, i, !Truthy(open));
      if !Truthy(open) {
        openDoors := ClearShl1(openDoors, Num(i as real));
      }
      i := i + 1;
    }
    IterationsExact(count, i);
  }

  // ---------------------------------------------------------------- systems

  /** What the systems scan accumulates. */
  datatype Systems = Systems(comms: bool, openDoors: Mask)

  /** The system object an entry's value slot points to. */
  function SystemAt(mem: Memory, slot: (real, real)): JsNum {
    Num(mem.raw(Num(slot.1), UInt32))
  }

  /** The system type an entry's key slot holds. */
  function SystemKey(mem: Memory, slot: (real, real)): real {
    mem.raw(Num(slot.0), Int32)
  }

  /** The sabotage flag once the communications system at sysPtr is seen: the HUD-override
      variant reports its active flag, the HQ-HUD variant reports fewer than 2 consoles
      completed, any other variant leaves the flag as it was. */
  function CommsFlag(mem: Memory, offs: Offsets, sysPtr: JsNum, current: bool): bool {
    var systemType := ReadMemory(mem, Int32, sysPtr, [0.0, 0x10 as real], Undefined);
    if StrictEq(systemType, Num(offs.hudOverrideSystemDefIndex)) then
      Truthy(ReadMemory(mem, Byte, sysPtr, offs.hudOverrideSystemIsActive, FalseDefault))
    else if StrictEq(systemType, Num(offs.hqHudSystemDefIndex)) then
      Lt(ReadMemory(mem, Int32, sysPtr, offs.hqHudSystemCompletedCount, Undefined), Num(2.0))
    else current
  }

  /** The flag follows the active byte for a HUD-override system and the completed-console
      count for an HQ-HUD system; any other system type, and a null system pointer, leave
      the flag as it was. */
  lemma CommsFlagLaw(mem: Memory, offs: Offsets, sysPtr: JsNum, current: bool)
    ensures var t := ReadMemory(mem, Int32, sysPtr, [0.0, 0x10 as real], Undefined);
      && (StrictEq(t, Num(offs.hudOverrideSystemDefIndex)) ==>
            (CommsFlag(mem, offs, sysPtr, current) <==>
               Truthy(ReadMemory(mem, Byte, sysPtr, offs.hudOverrideSystemIsActive, FalseDefault))))
      && (!StrictEq(t, Num(offs.hudOverrideSystemDefIndex)) && StrictEq(t, Num(offs.hqHudSystemDefIndex)) ==>
            (CommsFlag(mem, offs, sysPtr, current) <==>
               Lt(ReadMemory(mem, Int32, sysPtr, offs.hqHudSystemCompletedCount, Undefined), Num(2.0))))
      && (!StrictEq(t, Num(offs.hudOverrideSystemDefIndex)) && !StrictEq(t, Num(offs.hqHudSystemDefIndex)) ==>
            CommsFlag(mem, offs, sysPtr, current) == current)
    ensures sysPtr == Num(0.0) ==> CommsFlag(mem, offs, sysPtr, current) == current
  {
  }

  /** The decontamination system at sysPtr has manual doors. */
  predicate HasManualDoors(mem: Memory, offs: Offsets, sysPtr: JsNum) {
    StrictEq(ReadMemory(mem, Int32, sysPtr, [offs.upperManualDoor, 0.0, 0x10 as real], Undefined),
             Num(offs.manualDoorDefIndex))
  }

  /** A manual door at `door` reads closed (its flag, default false, is falsy). */
  predicate ManualDoorClosed(mem: Memory, offs: Offsets, sysPtr: JsNum, door: real) {
    !Truthy(ReadMemory(mem, Byte, sysPtr, [door, offs.manualDoorIsOpen], FalseDefault))
  }

  /** The manual doors' effect on the mask: the upper door clears `1 << count`, the lower
      one `1 << (1 + count)`. */
  function ManualDoors(doors: Mask, count: JsNum, upperClosed: bool, lowerClosed: bool): Mask {
    var d1 := if upperClosed then ClearShl1(doors, count) else doors;
    if lowerClosed then ClearShl1(d1, Plus(Num(1.0), count)) else d1
  }

  /** The bits the manual doors may clear: `1 << count` and `1 << (1 + count)`. */
  predicate ManualBit(count: JsNum, j: nat) {
    j == ShiftCount(count) || j == ShiftCount(Plus(Num(1.0), count))
  }

  /** Bit j survives the manual doors exactly when it was set and it is neither the bit of a
      closed upper door nor that of a closed lower door. With a count of 31 the lower door's
      bit is bit 0, since `1 << 32` is 1. */
  lemma ManualDoorsLaw(doors: Mask, count: JsNum, upperClosed: bool, lowerClosed: bool, j: nat)
    requires j < 32
    ensures ManualDoors(doors, count, upperClosed, lowerClosed)[j] <==>
      doors[j] && !(upperClosed && j == ShiftCount(count)) &&
      !(lowerClosed && j == ShiftCount(Plus(Num(1.0), count)))
  {
  }

  /** An entry of the systems dictionary that is the communications system. */
  predicate CommsEntry(mem: Memory, offs: Offsets, slot: (real, real)) {
    SystemKey(mem, slot) == offs.commsSystemType
  }

  /** An entry of the systems dictionary that is the decontamination system with manual doors. */
  predicate ManualDoorEntry(mem: Memory, offs: Offsets, slot: (real, real)) {
    !CommsEntry(mem, offs, slot) && SystemKey(mem, slot) == offs.deconSystemType &&
    HasManualDoors(mem, offs, SystemAt(mem, slot))
  }

  /** The visitor's work on one entry (the communications test comes first). */
  function VisitSystem(mem: Memory, offs: Offsets, count: JsNum, acc: Systems, slot: (real, real)): Systems {
    var sysPtr := SystemAt(mem, slot);
    if CommsEntry(mem, offs, slot) then
      acc.(comms := CommsFlag(mem, offs, sysPtr, acc.comms))
    else if ManualDoorEntry(mem, offs, slot) then
      acc.(openDoors := ManualDoors(acc.openDoors, count,
                                    ManualDoorClosed(mem, offs, sysPtr, offs.upperManualDoor),
                                    ManualDoorClosed(mem, offs, sysPtr, offs.lowerManualDoor)))
    else acc
  }

  /** The visitor applied to the entries in order. */
  function VisitAll(mem: Memory, offs: Offsets, count: JsNum, acc: Systems, slots: seq<(real, real)>): Systems
    decreases |slots|
  {
    if slots == [] then acc else VisitAll(mem, offs, count, VisitSystem(mem, offs, count, acc, slots[0]), slots[1..])
  }

  function SystemsPtr(mem: Memory, offs: Offsets, shipPtr: JsNum): JsNum {
    ReadMemory(mem, UInt32, shipPtr, offs.systemsPtr, Undefined)
  }

  /** The scan of the first 32 entries of the systems dictionary, skipped when its pointer is 0. */
  function SystemsOf(mem: Memory, offs: Offsets, shipPtr: JsNum, count: JsNum, doors: Mask): Systems {
    var systemsPtr := SystemsPtr(mem, offs, shipPtr);
    if StrictEq(systemsPtr, Num(0.0)) then Systems(false, doors)
    else VisitAll(mem, offs, count, Systems(false, doors), DictionarySlots(mem, systemsPtr, 32))
  }

  /** One entry only clears bits, and only the two manual-door bits; an entry that is not the
      decontamination system with manual doors leaves the mask alone, and one that is not the
      communications system leaves the sabotage flag alone. */
  lemma VisitSystemLaw(mem: Memory, offs: Offsets, count: JsNum, acc: Systems, slot: (real, real), j: nat)
    requires j < 32
    ensures var r := VisitSystem(mem, offs, count, acc, slot);
      && (r.openDoors[j] ==> acc.openDoors[j])
      && (!ManualBit(count, j) ==> r.openDoors[j] == acc.openDoors[j])
      && (!ManualDoorEntry(mem, offs, slot) ==> r.openDoors == acc.openDoors)
      && (!CommsEntry(mem, offs, slot) ==> r.comms == acc.comms)
  {
    if ManualDoorEntry(mem, offs, slot) {
      var sysPtr := SystemAt(mem, slot);
      ManualDoorsLaw(acc.openDoors, count,
                     ManualDoorClosed(mem, offs, sysPtr, offs.upperManualDoor),
                     ManualDoorClosed(mem, offs, sysPtr, offs.lowerManualDoor), j);
    }
  }

  /** The whole scan only clears bits, never a bit other than the two manual-door bits, and
      changes the mask only when the decontamination system with manual doors is present,
      the sabotage flag only when the communications system is. */
  lemma {:induction false} VisitAllLaw(mem: Memory, offs: Offsets, count: JsNum, acc: Systems, slots: seq<(real, real)>, j: nat)
    requires j < 32
    ensures var r := VisitAll(mem, offs, count, acc, slots);
      && (r.openDoors[j] ==> acc.openDoors[j])
      && (!ManualBit(count, j) ==> r.openDoors[j] == acc.openDoors[j])
      && ((forall k :: 0 <= k < |slots| ==> !ManualDoorEntry(mem, offs, slots[k])) ==> r.openDoors == acc.openDoors)
      && ((forall k :: 0 <= k < |slots| ==> !CommsEntry(mem, offs, slots[k])) ==> r.comms == acc.comms)
    decreases |slots|
  {
    if slots != [] {
      var next := VisitSystem(mem, offs, count, acc, slots[0]);
      VisitSystemLaw(mem, offs, count, acc, slots[0], j);
      VisitAllLaw(mem, offs, count, next, slots[1..], j);
      assert forall k :: 0 <= k < |slots[1..]| ==> slots[1..][k] == slots[k + 1];
    }
  }

  /** The systems scan over the dictionary of the ship's systems. */
  method ReadSystems(mem: Memory, offs: Offsets, shipPtr: JsNum, count: JsNum, doors: Mask)
      returns (comms: bool, openDoors: Mask)
    ensures Systems(comms, openDoors) == SystemsOf(mem, offs, shipPtr, count, doors)
  {
    comms := false;
    openDoors := doors;
    var systemsPtr := ReadMemory(mem, UInt32, shipPtr, offs.systemsPtr, Undefined);
    if !StrictEq(systemsPtr, Num(0.0)) {
      var slots := ReadDictionary(mem, systemsPtr, 32);
      var i := 0;
      while i < |slots|
        invariant 0 <= i <= |slots|
        invariant VisitAll(mem, offs, count, Systems(comms, openDoors), slots[i..]) == SystemsOf(mem, offs, shipPtr, count, doors)
      {
        assert slots[i..][1..] == slots[i + 1..];
        var acc := VisitSystem(mem, offs, count, Systems(comms, openDoors), slots[i]);
        comms, openDoors := acc.comms, acc.openDoors;
        i := i + 1;
      }
    }
  }

  // ---------------------------------------------------------------- cameras

  function MinigamePtr(mem: Memory, offs: Offsets, modBase: real): JsNum {
    ReadMemory(mem, Ptr, Num(modBase), offs.minigame, Undefined)
  }

  /** A camera minigame is open: its closing state reads exactly 0. */
  predicate MinigameOpen(mem: Memory, offs: Offsets, modBase: real) {
    StrictEq(ReadMemory(mem, Int32, MinigamePtr(mem, offs, modBase), offs.minigameClosingState, Undefined), Num(0.0))
  }

  function MinigameType(mem: Memory, offs: Offsets, modBase: real): JsNum {
    ReadMemory(mem, Int32, MinigamePtr(mem, offs, modBase), [0.0, 0x10 as real], Undefined)
  }

  /** The cameras being watched: all (-1) on the surveillance console, the single camera
      `1 << current` on the camera-by-camera console, none (0) otherwise; so some camera is
      watched exactly when a camera minigame of one of the two kinds is open. */
  function ViewingCameras(mem: Memory, offs: Offsets, modBase: real): (cams: Mask)
    ensures cams == NoBits() || cams == AllOnes() || exists k :: 0 <= k < 32 && cams == OneBit(k)
    ensures cams != NoBits() <==>
      MinigameOpen(mem, offs, modBase) &&
      (StrictEq(MinigameType(mem, offs, modBase), Num(offs.surveillanceDefIndex)) ||
       StrictEq(MinigameType(mem, offs, modBase), Num(offs.polusSurveillanceDefIndex)))
  {
    if !MinigameOpen(mem, offs, modBase) then NoBits()
    else if StrictEq(MinigameType(mem, offs, modBase), Num(offs.surveillanceDefIndex)) then
      AllOnesNonZero();
      AllOnes()
    else if StrictEq(MinigameType(mem, offs, modBase), Num(offs.polusSurveillanceDefIndex)) then
      OneBitNonZero(ShiftCount(ReadMemory(mem, Int32, MinigamePtr(mem, offs, modBase), offs.polusSurveillanceCurrentCamera, Undefined)));
      Shl1(ReadMemory(mem, Int32, MinigamePtr(mem, offs, modBase), offs.polusSurveillanceCurrentCamera, Undefined))
    else NoBits()
  }

  // ---------------------------------------------------------------- the tick

  /** The meeting HUD state: 4 when there is no HUD cache, else the read with default 4. */
  function MeetingHudState(mem: Memory, offs: Offsets, modBase: real): JsNum {
    var meetingHud := ReadMemory(mem, Pointer, Num(modBase), offs.meetingHud, Undefined);
    var cachePtr := if StrictEq(meetingHud, Num(0.0)) then Num(0.0)
      else ReadMemory(mem, UInt32, meetingHud, offs.meetingHudCachePtr, Undefined);
    if StrictEq(cachePtr, Num(0.0)) then Num(4.0)
    else ReadMemory(mem, Int, meetingHud, offs.meetingHudState, Num(4.0))
  }

  /** Without a meeting HUD, or with a null HUD cache, the state is 4 (so the tick does not
      read as a meeting); otherwise it is the state read, or 4 when that read fails. */
  lemma MeetingHudLaw(mem: Memory, offs: Offsets, modBase: real)
    ensures var hud := ReadMemory(mem, Pointer, Num(modBase), offs.meetingHud, Undefined);
      StrictEq(hud, Num(0.0)) ==> MeetingHudState(mem, offs, modBase) == Num(4.0)
    ensures var hud := ReadMemory(mem, Pointer, Num(modBase), offs.meetingHud, Undefined);
      !StrictEq(hud, Num(0.0)) && StrictEq(ReadMemory(mem, UInt32, hud, offs.meetingHudCachePtr, Undefined), Num(0.0)) ==>
        MeetingHudState(mem, offs, modBase) == Num(4.0)
    ensures var hud := ReadMemory(mem, Pointer, Num(modBase), offs.meetingHud, Undefined);
      var st := MeetingHudState(mem, offs, modBase);
      st == Num(4.0) || st == Num(mem.raw(Num(Resolve(mem, hud, offs.meetingHudState).address
                                             + LastOffset(offs.meetingHudState)), Int))
  {
  }

  /** Everything one tick reads. */
  datatype Reading = Reading(
    obs: Observation,
    mapType: JsNum,
    openDoors: Mask,
    comms: bool,
    cams: Mask,
    players: seq<Player>)

  function Read(mem: Memory, offs: Offsets, modBase: real): Reading {
    var shipPtr := ShipPtr(mem, offs, modBase);
    var allDoorsPtr := AllDoorsPtr(mem, offs, shipPtr);
    var count := AllDoorsCount(mem, allDoorsPtr);
    var sys := SystemsOf(mem, offs, shipPtr, count, PlainDoorMask(mem, offs, allDoorsPtr, Iterations(count)));
    var allPlayers := AllPlayers(mem, offs, modBase);
    var players := PlayerList(mem, offs, allPlayers, DecodedCount(mem, offs, modBase));
    var exiled := Exiled(mem, offs, modBase);
    Reading(
      Observation(
        ReadMemory(mem, Int, Num(modBase), offs.gameState, Undefined),
        MeetingHudState(mem, offs, modBase),
        Impostors(players, exiled), Crewmates(players, exiled),
        allPlayers, |players|, AnyLocal(players),
        ReadMemory(mem, Int32, Num(modBase), offs.gameCode, Undefined)),
      ReadMemory(mem, Int32, shipPtr, offs.mapType, Num(MapUnknown)),
      sys.openDoors, sys.comms,
      ViewingCameras(mem, offs, modBase),
      players)
  }

  /** The reads of one tick, in the order the loop makes them. */
  method ReadTick(mem: Memory, offs: Offsets, modBase: real) returns (r: Reading)
    ensures r == Read(mem, offs, modBase)
  {
    var base := Num(modBase);
    var meetingHud := ReadMemory(mem, Pointer, base, offs.meetingHud, Undefined);
    var meetingHudCachePtr := if StrictEq(meetingHud, Num(0.0)) then Num(0.0)
      else ReadMemory(mem, UInt32, meetingHud, offs.meetingHudCachePtr, Undefined);
    var meetingHudState := if StrictEq(meetingHudCachePtr, Num(0.0)) then Num(4.0)
      else ReadMemory(mem, Int, meetingHud, offs.meetingHudState, Num(4.0));
    var gameState := ReadMemory(mem, Int, base, offs.gameState, Undefined);
    var shipPtr := ReadMemory(mem, Ptr, base, offs.ship, Undefined);
    var mapType := ReadMemory(mem, Int32, shipPtr, offs.mapType, Num(MapUnknown));
    var allDoorsPtr := ReadMemory(mem, UInt32, shipPtr, offs.allDoorsPtr, Undefined);
    var openDoors, allDoorsCount := ReadPlainDoors(mem, offs, allDoorsPtr);
    var isCommsSabotaged;
    isCommsSabotaged, openDoors := ReadSystems(mem, offs, shipPtr, allDoorsCount, openDoors);
    var viewingCameras := ViewingCameras(mem, offs, modBase);
    var players, impostors, crewmates, allPlayers := ReadPlayers(mem, offs, modBase);
    var code := ReadMemory(mem, Int32, base, offs.gameCode, Undefined);
    r := Reading(
      Observation(gameState, meetingHudState, impostors, crewmates, allPlayers, |players|, AnyLocal(players), code),
      mapType, openDoors, isCommsSabotaged, viewingCameras, players);
  }

  /** The snapshot a tick builds from the classifier it starts with. */
  function Snapshot(c: Classifier, r: Reading): AmongUsState {
    var d := Step(c, r.obs);
    AmongUsState(d.oldGameState, c.oldGameState, d.gameCode, r.mapType, r.openDoors, r.comms, r.cams, r.players)
  }

  /** Consecutive snapshots chain: each one's `oldGameState` is the previous one's
      `gameState`, and its lobby code is what the classifier now holds. */
  lemma SnapshotChain(c: Classifier, r1: Reading, r2: Reading)
    ensures Snapshot(Step(c, r1.obs), r2).oldGameState == Snapshot(c, r1).gameState
    ensures Snapshot(c, r1).lobbyCode == Step(c, r1.obs).gameCode
    ensures Snapshot(c, r1).gameState != UNKNOWN
  {
    PhaseTableLaw(c, r1.obs);
  }

  /** The door mask of a tick: a door's bit other than the two manual-door bits is cleared
      exactly when it is among the first min(count, 32) plain doors and reads closed; and
      with no decontamination system with manual doors the mask is the plain-door mask. */
  lemma DoorMaskLaw(mem: Memory, offs: Offsets, modBase: real, j: nat)
    requires j < 32
    ensures var shipPtr := ShipPtr(mem, offs, modBase);
      var allDoorsPtr := AllDoorsPtr(mem, offs, shipPtr);
      var count := AllDoorsCount(mem, allDoorsPtr);
      !ManualBit(count, j) ==>
        (!Read(mem, offs, modBase).openDoors[j] <==> j < Iterations(count) && DoorClosed(mem, offs, allDoorsPtr, j))
  {
    var shipPtr := ShipPtr(mem, offs, modBase);
    var allDoorsPtr := AllDoorsPtr(mem, offs, shipPtr);
    var count := AllDoorsCount(mem, allDoorsPtr);
    var plain := PlainDoorMask(mem, offs, allDoorsPtr, Iterations(count));
    var systemsPtr := SystemsPtr(mem, offs, shipPtr);
    if !StrictEq(systemsPtr, Num(0.0)) {
      VisitAllLaw(mem, offs, count, Systems(false, plain), DictionarySlots(mem, systemsPtr, 32), j);
    }
  }

  // ---------------------------------------------------------------- the reader object

  /** The reader: the classifier fields, the last snapshot sent over (none before the first
      tick) and the offsets table. */
  class Reader {
    var menuUpdateTimer: int
    var lastPlayerPtr: JsNum
    var exileCausesEnd: bool
    var oldGameState: GameState
    var gameCode: string
    var lastState: Option<AmongUsState>
    const offsets: Offsets

    function Fields(): Classifier
      reads this
    {
      Classifier(menuUpdateTimer, lastPlayerPtr, exileCausesEnd, oldGameState, gameCode)
    }

    /** The MENU→LOBBY hold counter stays within its 20 ticks. */
    predicate Valid()
      reads this
    {
      0 <= menuUpdateTimer <= MenuHoldTicks
    }

    constructor (offsets: Offsets)
      ensures Valid()
      ensures Fields() == Initial && lastState == None && this.offsets == offsets
    {
      menuUpdateTimer := MenuHoldTicks;
      lastPlayerPtr := Num(0.0);
      exileCausesEnd := false;
      oldGameState := UNKNOWN;
      gameCode := "MENU";
      lastState := None;
      this.offsets := offsets;
    }

    /** The phase logic of one tick on what the tick read: the raw-phase switch, the exile
        refinement, the MENU→LOBBY debounce and the lobby-code update. Every classifier
        field but `oldGameState` takes its new value; the phase to report is returned. */
    method Classify(o: Observation) returns (state: GameState)
      requires Valid()
      modifies this
      ensures Valid()
      ensures state == Step(old(Fields()), o).oldGameState
      ensures Fields() == Step(old(Fields()), o).(oldGameState := old(oldGameState))
      ensures lastState == old(lastState)
    {
      ghost var c := Fields();
      if StrictEq(o.rawPhase, Num(0.0)) {
        state := MENU;
        exileCausesEnd := false;
      } else if StrictEq(o.rawPhase, Num(1.0)) || StrictEq(o.rawPhase, Num(3.0)) {
        state := LOBBY;
        exileCausesEnd := false;
      } else if exileCausesEnd {
        state := LOBBY;
      } else if Lt(o.meetingHudState, Num(4.0)) {
        state := DISCUSSION;
      } else {
        state := TASKS;
      }
      if oldGameState == DISCUSSION && state == TASKS {
        if o.impostors == 0 || o.impostors >= o.crewmates {
          exileCausesEnd := true;
          state := LOBBY;
        }
      }
      assert state == RefinedPhase(c, o) && exileCausesEnd == NextLatch(c, o);
      if oldGameState == MENU && state == LOBBY && menuUpdateTimer > 0 &&
         (StrictEq(lastPlayerPtr, o.allPlayers) || o.playerCount == 1 || !o.anyLocal) {
        state := MENU;
        menuUpdateTimer := menuUpdateTimer - 1;
      } else {
        menuUpdateTimer := MenuHoldTicks;
      }
      lastPlayerPtr := o.allPlayers;
      UpdateCode(state, o.code);
    }

    /** The lobby-code update: decoded in the lobby when the code reads truthy, "MENU"
        in any phase but the lobby, the tasks and the discussion, otherwise kept. */
    method UpdateCode(state: GameState, code: JsNum)
      modifies this
      ensures gameCode == NextCode(state, code, old(gameCode))
      ensures menuUpdateTimer == old(menuUpdateTimer) && lastPlayerPtr == old(lastPlayerPtr)
      ensures exileCausesEnd == old(exileCausesEnd) && oldGameState == old(oldGameState)
      ensures lastState == old(lastState)
    {
      if state == LOBBY {
        if Truthy(code) {
          gameCode := IntToGameCode(code.v);
        }
      } else if state != TASKS && state != DISCUSSION {
        gameCode := "MENU";
      }
    }

    /** The bookkeeping of one tick on what it read: classify, build the snapshot, emit it
        when it differs from the last one, and store it. */
    method Commit(r: Reading, differs: (Option<AmongUsState>, AmongUsState) -> bool)
        returns (emitted: Option<AmongUsState>)
      requires Valid()
      modifies this
      ensures Valid()
      ensures Fields() == Step(old(Fields()), r.obs)
      ensures lastState == Some(Snapshot(old(Fields()), r))
      ensures emitted == (if differs(old(lastState), Snapshot(old(Fields()), r)) then Some(Snapshot(old(Fields()), r)) else None)
    {
      emitted := None;
      var state := Classify(r.obs);
      var newState := AmongUsState(state, oldGameState, gameCode, r.mapType, r.openDoors, r.comms, r.cams, r.players);
      if differs(lastState, newState) {
        emitted := Some(newState);
      }
      lastState := Some(newState);
      oldGameState := state;
    }

    /** One tick of `loop()`. `modBase` is the game module's base address, or None while no
        game process is attached; `differs` stands for the state-diff library. The snapshot
        is returned when it differs from the last one, and is always stored. */
    method Loop(mem: Memory, modBase: Option<real>, differs: (Option<AmongUsState>, AmongUsState) -> bool)
        returns (emitted: Option<AmongUsState>)
      requires Valid()
      modifies this
      ensures Valid()
      ensures modBase.None? ==> Fields() == old(Fields()) && lastState == old(lastState) && emitted == None
      ensures modBase.Some? ==>
        var r := Read(mem, offsets, modBase.value);
        var snap := Snapshot(old(Fields()), r);
        && Fields() == Step(old(Fields()), r.obs)
        && lastState == Some(snap)
        && emitted == (if differs(old(lastState), snap) then Some(snap) else None)
    {
      emitted := None;
      if modBase.None? {
        return;
      }
      var r := ReadTick(mem, offsets, modBase.value);
      emitted := Commit(r, differs);
    }
  }
}
