/** The lobby code decoder: a 32-bit integer read from the game becomes six letters of a
    26-symbol alphabet, two from its low 10 bits and four from the next 20. */
module LobbyCode {
  import opened JsNumber

  const Alphabet: string := "QWXRTYLPESDFGHUJKZOCVBINMA"

  /** `A[i]` as it takes part in string concatenation: the letter, or the text
      "undefined" for an index off the end of the alphabet. */
  function Letter(i: int): (s: string)
    ensures 0 <= i < 26 ==> |s| == 1 && s[0] == Alphabet[i]
    ensures !(0 <= i < 26) ==> s == "undefined"
  {
    if 0 <= i < 26 then [Alphabet[i]] else "undefined"
  }

  /** JavaScript's `a % b`: the remainder of the division truncated toward zero. */
  function JsRem(a: real, b: real): real
    requires b != 0.0
  {
    a - b * (Trunc(a / b) as real)
  }

  /** `a | 0`. */
  function OrZero(a: real): int {
    ToInt32(Num(a))
  }

  /** `code & 0x3FF`: the ten low bits of the 32-bit code. */
  function LowGroup(code: real): (x: int)
    ensures 0 <= x < 1024
  {
    ToInt32(Num(code)) % 1024
  }

  /** `(code >> 10) & 0xFFFFF`: the next twenty bits (the arithmetic shift is a floor
      division by 1024; its sign bits fall outside the mask). */
  function HighGroup(code: real): (y: int)
    ensures 0 <= y < 0x10_0000
  {
    (ToInt32(Num(code)) / 1024) % 0x10_0000
  }

  /** The two letters `intToGameCode` takes from the low group x. */
  function LowPart(x: int): string {
    Letter(x % 26) + Letter(OrZero(x as real / 26.0))
  }

  /** The four letters it takes from the high group y, with the division `y /= 26` done on
      numbers, as the source does. */
  function HighPart(y: int): string {
    var y1 := y as real / 26.0;
    var y2 := y1 / 26.0;
    var y3 := y2 / 26.0;
    Letters4(y % 26, OrZero(JsRem(y1, 26.0)), OrZero(JsRem(y2, 26.0)), OrZero(JsRem(y3, 26.0)))
  }

  /** Four letters, concatenated. */
  function Letters4(a: int, b: int, c: int, e: int): string {
    Letter(a) + Letter(b) + Letter(c) + Letter(e)
  }

  /** The six letters `intToGameCode` builds from the low group x and the high group y. */
  function CodeLetters(x: int, y: int): string {
    LowPart(x) + HighPart(y)
  }

  /** `intToGameCode`: the fixed "QQQQQQ" for zero; otherwise the letter of x mod 26, the
      letter (or "undefined") at x div 26, and the four base-26 digits of y, least
      significant first, each as a letter, where x and y are the code's low and high groups. */
  function IntToGameCode(code: real): (s: string)
    ensures code == 0.0 ==> s == "QQQQQQ"
    ensures code != 0.0 ==>
      var x := LowGroup(code); var y := HighGroup(code);
      s == [Alphabet[x % 26]] + Letter(x / 26) +
           [Alphabet[y % 26], Alphabet[(y / 26) % 26], Alphabet[(y / 676) % 26], Alphabet[(y / 17576) % 26]]
  {
    if code == 0.0 then "QQQQQQ"
    else
      CodeLettersDigits(LowGroup(code), HighGroup(code));
      CodeLetters(LowGroup(code), HighGroup(code))
  }

  /** A number q + f with q whole and 0 <= f < 1 gives, under `% 26` and `| 0`,
      the remainder q mod 26. */
  lemma DigitOfNumber(q: int, f: real)
    requires 0 <= q < 0x10_0000 && 0.0 <= f < 1.0
    ensures OrZero(JsRem(q as real + f, 26.0)) == q % 26
  {
    var m, k := q / 26, q % 26;
    assert (q as real + f) / 26.0 == m as real + (k as real + f) / 26.0;
    assert Trunc((q as real + f) / 26.0) == m;
    assert JsRem(q as real + f, 26.0) == k as real + f;
  }

  /** y / d as a number: the integer quotient plus a fraction below one. */
  lemma SplitQuotient(y: int, d: int)
    requires 0 <= y && (d == 26 || d == 676 || d == 17576)
    ensures y as real / d as real == (y / d) as real + (y % d) as real / d as real
    ensures 0.0 <= (y % d) as real / d as real < 1.0
  {
  }

  /** The digit the source extracts after dividing y by 26 k times — the remainder of a
      number division, then `| 0` — is the k-th base-26 digit of y. */
  lemma NumberDigit(y: int, d: int)
    requires 0 <= y < 0x10_0000 && (d == 26 || d == 676 || d == 17576)
    ensures OrZero(JsRem(y as real / d as real, 26.0)) == (y / d) % 26
  {
    SplitQuotient(y, d);
    DigitOfNumber(y / d, (y % d) as real / d as real);
  }

  /** NumberDigit for a quotient computed by repeated division. */
  lemma DigitOfQuotient(y: int, d: int, q: real)
    requires 0 <= y < 0x10_0000 && (d == 26 || d == 676 || d == 17576)
    requires q == y as real / d as real
    ensures OrZero(JsRem(q, 26.0)) == (y / d) % 26
  {
    NumberDigit(y, d);
  }

  /** Four letters in range concatenate to the four-character string. */
  lemma FourLetters(a: int, b: int, c: int, e: int)
    requires 0 <= a < 26 && 0 <= b < 26 && 0 <= c < 26 && 0 <= e < 26
    ensures Letters4(a, b, c, e) == [Alphabet[a], Alphabet[b], Alphabet[c], Alphabet[e]]
  {
  }

  /** The four letters taken from the high group are its base-26 digits, least
      significant first. */
  lemma HighLetters(y: int)
    requires 0 <= y < 0x10_0000
    ensures HighPart(y)
      == [Alphabet[y % 26], Alphabet[(y / 26) % 26], Alphabet[(y / 676) % 26], Alphabet[(y / 17576) % 26]]
  {
    var y1 := y as real / 26.0;
    var y2 := y1 / 26.0;
    var y3 := y2 / 26.0;
    assert y2 == y as real / 676.0;
    assert y3 == y as real / 17576.0;
    var b, c, e := OrZero(JsRem(y1, 26.0)), OrZero(JsRem(y2, 26.0)), OrZero(JsRem(y3, 26.0));
    DigitOfQuotient(y, 26, y1);
    DigitOfQuotient(y, 676, y2);
    DigitOfQuotient(y, 17576, y3);
    assert HighPart(y) == Letters4(y % 26, b, c, e);
    FourLetters(y % 26, (y / 26) % 26, (y / 676) % 26, (y / 17576) % 26);
  }

  /** The two letters taken from the low group: x mod 26 and x div 26. */
  lemma LowLetters(x: int)
    requires 0 <= x < 1024
    ensures LowPart(x) == [Alphabet[x % 26]] + Letter(x / 26)
  {
    SplitQuotient(x, 26);
    assert OrZero(x as real / 26.0) == x / 26;
  }

  /** The letters of groups x and y: letter x mod 26, then the letter (or "undefined") at
      x div 26, then the four little-endian base-26 digits of y, each as a letter. */
  lemma CodeLettersDigits(x: int, y: int)
    requires 0 <= x < 1024 && 0 <= y < 0x10_0000
    ensures CodeLetters(x, y) ==
      [Alphabet[x % 26]] + Letter(x / 26) +
      [Alphabet[y % 26], Alphabet[(y / 26) % 26], Alphabet[(y / 676) % 26], Alphabet[(y / 17576) % 26]]
  {
    LowLetters(x);
    HighLetters(y);
  }

  /** A nonzero code decodes to six letters of the alphabet exactly when its low group is
      below 26 * 26; otherwise the second index runs off the alphabet. */
  lemma GameCodeWellFormed(code: real)
    requires code != 0.0
    ensures var s := IntToGameCode(code);
      (|s| == 6 && forall i :: 0 <= i < 6 ==> s[i] in Alphabet) <==> LowGroup(code) < 676
  {
    var x := LowGroup(code);
    var s := IntToGameCode(code);
    if x < 676 {
      assert Letter(x / 26) == [Alphabet[x / 26]];
    } else {
      assert |Letter(x / 26)| == 9;
      assert |s| == 14;
    }
  }
}
