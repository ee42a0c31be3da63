/** `hashUserId` of market-mirror/lib/snowflake-client.ts: a 31-multiplier rolling hash in signed 32-bit arithmetic. */
module TraderHash {
  import Numerals

  /** A UTF-16 code unit, as returned by `charCodeAt`. */
  type CodeUnit = c: int | 0 <= c < 0x1_0000

  const TwoTo31: int := 0x8000_0000
  const TwoTo32: int := 0x1_0000_0000

  predicate IsInt32(x: int)
  {
    -TwoTo31 <= x < TwoTo31
  }

  /** ECMAScript's ToInt32 on an integral value: the signed 32-bit integer congruent to `x` modulo 2^32. */
  function ToInt32(x: int): (r: int)
    ensures IsInt32(r)
    ensures (x - r) % TwoTo32 == 0
  {
    var m := x % TwoTo32;
    if m >= TwoTo31 then m - TwoTo32 else m
  }

  /** Congruent values have the same 32-bit representative. */
  lemma ToInt32Congruent(x: int, y: int)
    requires (x - y) % TwoTo32 == 0
    ensures ToInt32(x) == ToInt32(y)
  {
    var k := (x - y) / TwoTo32;
    assert x == y + k * TwoTo32;
    ModShift(y, k);
  }

  lemma ModShift(y: int, k: int)
    ensures (y + k * TwoTo32) % TwoTo32 == y % TwoTo32
  {
  }

  /**
   * One turn of the loop body, operator by operator: `hash << 5` wraps `32 * hash` to 32 bits,
   * the subtraction and the addition of the code unit are exact in a double (the magnitude stays
   * below 2^34), and `hash & hash` applies ToInt32 to that double and ANDs the result with itself.
   */
  function Step(hash: int, c: CodeUnit): (r: int)
    ensures IsInt32(r)
  {
    var shifted := ToInt32(hash * 32);
    var sum := shifted - hash + c;
    ToInt32(sum)
  }

  /** The step is the rolling update `31 * hash + c`, reduced to signed 32 bits. */
  lemma StepIsRolling(hash: int, c: CodeUnit)
    ensures Step(hash, c) == ToInt32(31 * hash + c)
  {
    var shifted := ToInt32(hash * 32);
    assert shifted - hash + c - (31 * hash + c) == shifted - hash * 32;
    ToInt32Congruent(shifted - hash + c, 31 * hash + c);
  }

  /** The value of `hash` after the loop has visited the code units of `s`, starting from 0. */
  function Hash(s: seq<CodeUnit>): (h: int)
    ensures IsInt32(h)
  {
    if s == [] then 0 else Step(Hash(s[..|s| - 1]), s[|s| - 1])
  }

  /** Each code unit turns the hash so far into `31 * h + c`, reduced to signed 32 bits. */
  lemma HashSnoc(s: seq<CodeUnit>, c: CodeUnit)
    ensures Hash(s + [c]) == ToInt32(31 * Hash(s) + c)
  {
    assert (s + [c])[..|s|] == s;
    StepIsRolling(Hash(s), c);
  }

  function Abs(x: int): nat
  {
    if x < 0 then -x else x
  }

  /** `Math.abs(hash).toString(16)`. */
  function HashHex(userId: seq<CodeUnit>): string
  {
    Numerals.ToDigits(Abs(Hash(userId)), 16)
  }

  /**
   * The trader hash is lowercase hexadecimal without leading zeros, it denotes the absolute value
   * of the final 32-bit hash (so at most 2^31), and an empty user id hashes to "0".
   */
  lemma HashHexShape(userId: seq<CodeUnit>)
    ensures var r := HashHex(userId);
      && |r| >= 1
      && (forall i :: 0 <= i < |r| ==> r[i] in Numerals.DigitChars)
      && (|r| > 1 ==> r[0] != '0')
      && Numerals.ValueOf(r, 16) == Abs(Hash(userId)) <= TwoTo31
      && (userId == [] ==> r == "0")
  {
    var r := HashHex(userId);
    Numerals.ValueOfToDigits(Abs(Hash(userId)), 16);
    forall i | 0 <= i < |r| ensures r[i] in Numerals.DigitChars {
      Numerals.DigitOfValue(r[i]);
    }
  }

  /** The loop of `hashUserId`, followed by the conversion of its absolute value to hexadecimal. */
  method HashUserId(userId: seq<CodeUnit>) returns (traderHash: string)
    ensures traderHash == HashHex(userId)
  {
    var hash := 0;
    var i := 0;
    while i < |userId|
      invariant 0 <= i <= |userId|
      invariant hash == Hash(userId[..i])
    {
      var code := userId[i];
      assert userId[..i + 1][..i] == userId[..i];
      hash := ((ToInt32(hash * 32)) - hash) + code;
      hash := ToInt32(hash);
      i := i + 1;
    }
    assert userId[..i] == userId;
    traderHash := Numerals.ToDigits(Abs(hash), 16);
  }
}
