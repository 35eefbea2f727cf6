/**
 * ConversionManager (Core/Managers/ConversionManager.cs): the base-26 letter codec,
 * time rounding and tolerant comparison of doubles.
 */
module Conversion {
  import opened Wrappers

  /** Size of the letter tables `_numbers` and `_chars`. */
  const Radix: int := 26

  const Two63: int := 0x8000_0000_0000_0000
  const Two64: int := 0x1_0000_0000_0000_0000

  /** `char.ToUpper`, on the ASCII letters. */
  function ToUpper(c: char): char
  {
    if 'a' <= c <= 'z' then (c as int - 32) as char else c
  }

  function Upper(s: string): (r: string)
    ensures |r| == |s|
    ensures forall i :: 0 <= i < |s| ==> r[i] == ToUpper(s[i])
  {
    if s == [] then [] else Upper(s[..|s| - 1]) + [ToUpper(s[|s| - 1])]
  }

  predicate IsLetter(c: char)
  {
    'A' <= c <= 'Z'
  }

  /** The `_numbers` table: 'A' maps to 1, ..., 'Z' to 26. */
  function Digit(c: char): int
    requires IsLetter(c)
  {
    c as int - 'A' as int + 1
  }

  /** The `_chars` table: 1 maps to 'A', ..., 26 to 'Z'. */
  function Letter(d: int): char
    requires 1 <= d <= Radix
  {
    ('A' as int + d - 1) as char
  }

  /** Every character of `s` is found in `_numbers` once upper-cased. */
  predicate AllLetters(s: string)
  {
    forall i :: 0 <= i < |s| ==> IsLetter(ToUpper(s[i]))
  }

  /** The value `Encode` computes before 64-bit wrap-around: bijective base 26, most significant first. */
  function Bijective(s: string): (n: nat)
    requires AllLetters(s)
  {
    if s == [] then 0 else Bijective(s[..|s| - 1]) * Radix + Digit(ToUpper(s[|s| - 1]))
  }

  /** Two's-complement wrap-around of a C# `long`. */
  function Wrap64(x: int): (r: int)
    ensures -Two63 <= r < Two63
    ensures (x - r) % Two64 == 0
    ensures -Two63 <= x < Two63 ==> r == x
  {
    (x + Two63) % Two64 - Two63
  }

  lemma WrapCongruent(x: int, y: int)
    requires (x - y) % Two64 == 0
    ensures Wrap64(x) == Wrap64(y)
  {
    var k := (x - y) / Two64;
    assert x == y + k * Two64;
    assert (x + Two63) == (y + Two63) + k * Two64;
  }

  /**
   * ConversionManager.Encode: multiplies by 26 and adds each letter's code, in unchecked
   * 64-bit arithmetic. A character with no entry in `_numbers` throws; that is `None` here.
   */
  method Encode(content: string) returns (r: Option<int>)
    ensures r.Some? <==> AllLetters(content)
    ensures r.Some? ==> r.value == Wrap64(Bijective(content))
  {
    var number := 0;
    var i := 0;
    while i < |content|
      invariant 0 <= i <= |content|
      invariant AllLetters(content[..i])
      invariant number == Wrap64(Bijective(content[..i]))
    {
      var c := ToUpper(content[i]);
      if !IsLetter(c) {
        assert !AllLetters(content) by { assert !IsLetter(ToUpper(content[i])); }
        return None;
      }
      ghost var before := Bijective(content[..i]);
      assert content[..i + 1][..i] == content[..i];
      assert AllLetters(content[..i + 1]);
      assert Bijective(content[..i + 1]) == before * Radix + Digit(c);
      WrapCongruent(number * Radix + Digit(c), before * Radix + Digit(c));
      number := Wrap64(number * Radix + Digit(c));
      i := i + 1;
    }
    assert content[..i] == content;
    return Some(number);
  }

  /** What `Decode` returns: `None` where a zero remainder misses the `_chars` table. */
  function DecodeValue(n: int): Option<string>
    decreases n
  {
    if n <= 0 then Some("")
    else if n % Radix == 0 then None
    else Append(DecodeValue(n / Radix), [Letter(n % Radix)])
  }

  function Append(o: Option<string>, suffix: string): Option<string>
  {
    match o
    case Some(prefix) => Some(prefix + suffix)
    case None => None
  }

  /**
   * ConversionManager.Decode: prepends the letter of each base-26 remainder while the number
   * is positive. A zero remainder has no entry in `_chars` and throws; that is `None` here.
   */
  method Decode(number: int) returns (r: Option<string>)
    ensures r == DecodeValue(number)
    ensures number <= 0 ==> r == Some("")
    ensures r.Some? ==> forall i :: 0 <= i < |r.value| ==> IsLetter(r.value[i]) && r.value[i] != 'Z'
  {
    var n := number;
    var response: string := "";
    assert Append(DecodeValue(n), response) == DecodeValue(number) by {
      if DecodeValue(n).Some? { assert DecodeValue(n).value + "" == DecodeValue(n).value; }
    }
    while n > 0
      invariant forall i :: 0 <= i < |response| ==> IsLetter(response[i]) && response[i] != 'Z'
      invariant DecodeValue(number) == Append(DecodeValue(n), response)
      decreases n
    {
      var d := n % Radix;
      if d == 0 {
        return None;
      }
      var x := DecodeValue(n / Radix);
      assert DecodeValue(n) == Append(x, [Letter(d)]);
      assert Append(Append(x, [Letter(d)]), response) == Append(x, [Letter(d)] + response) by {
        if x.Some? { assert x.value + [Letter(d)] + response == x.value + ([Letter(d)] + response); }
      }
      response := [Letter(d)] + response;
      n := n / Radix;
    }
    assert DecodeValue(n) == Some("");
    assert "" + response == response;
    return Some(response);
  }

  predicate NoZ(s: string)
  {
    forall i :: 0 <= i < |s| ==> ToUpper(s[i]) != 'Z'
  }

  lemma DivModDigit(q: int, d: int)
    requires 0 <= d < Radix
    ensures (q * Radix + d) % Radix == d && (q * Radix + d) / Radix == q
  {
  }

  lemma {:induction false} DigitOfLast(p: string, c: char)
    requires AllLetters(p + [c])
    ensures AllLetters(p) && IsLetter(ToUpper(c))
    ensures Bijective(p + [c]) == Bijective(p) * Radix + Digit(ToUpper(c))
  {
    var s := p + [c];
    assert s[..|s| - 1] == p;
    forall i | 0 <= i < |p| ensures IsLetter(ToUpper(p[i])) { assert p[i] == s[i]; }
    assert ToUpper(s[|s| - 1]) == ToUpper(c);
  }

  /** Letters 'A' to 'Y' round-trip: decoding the encoded value gives back the upper-cased text. */
  lemma {:induction false} DecodeEncode(s: string)
    requires AllLetters(s) && NoZ(s)
    ensures DecodeValue(Bijective(s)) == Some(Upper(s))
    decreases |s|
  {
    if s != [] {
      var p, c := s[..|s| - 1], s[|s| - 1];
      assert s == p + [c];
      DigitOfLast(p, c);
      assert NoZ(p) by { forall i | 0 <= i < |p| ensures ToUpper(p[i]) != 'Z' { assert p[i] == s[i]; } }
      DecodeEncode(p);
      var d := Digit(ToUpper(c));
      assert 1 <= d < Radix by { assert ToUpper(s[|s| - 1]) != 'Z'; }
      var n := Bijective(s);
      DivModDigit(Bijective(p), d);
      assert n % Radix == d && n / Radix == Bijective(p);
      assert DecodeValue(n) == Append(DecodeValue(Bijective(p)), [Letter(d)]);
      assert Letter(d) == ToUpper(c);
      assert Upper(s) == Upper(p) + [ToUpper(c)];
    }
  }

  /** A 'Z' anywhere breaks the round trip: its code 26 carries into the next digit and leaves a zero remainder. */
  lemma {:induction false} EncodedZDoesNotDecode(s: string)
    requires AllLetters(s) && !NoZ(s)
    ensures DecodeValue(Bijective(s)) == None
    decreases |s|
  {
    var p, c := s[..|s| - 1], s[|s| - 1];
    assert s == p + [c];
    DigitOfLast(p, c);
    var d := Digit(ToUpper(c));
    var n := Bijective(s);
    if ToUpper(c) == 'Z' {
      assert d == Radix;
      assert n == (Bijective(p) + 1) * Radix;
      DivModDigit(Bijective(p) + 1, 0);
    } else {
      var i :| 0 <= i < |s| && ToUpper(s[i]) == 'Z';
      assert i < |p| && ToUpper(p[i]) == 'Z';
      EncodedZDoesNotDecode(p);
      assert 1 <= d < Radix;
      DivModDigit(Bijective(p), d);
    }
  }

  function Pow26(k: nat): (r: nat)
    ensures r >= 1
  {
    if k == 0 then 1 else Radix * Pow26(k - 1)
  }

  lemma {:induction false} BijectiveBound(s: string)
    requires AllLetters(s)
    ensures 25 * Bijective(s) + 26 <= Pow26(|s| + 1)
    decreases |s|
  {
    if s != [] {
      var p, c := s[..|s| - 1], s[|s| - 1];
      assert s == p + [c];
      DigitOfLast(p, c);
      BijectiveBound(p);
    }
  }

  lemma {:induction false} Pow26Monotone(j: nat, k: nat)
    requires j <= k
    ensures Pow26(j) <= Pow26(k)
    decreases k
  {
    if j < k { Pow26Monotone(j, k - 1); }
  }

  /** Up to 13 letters the encoded value fits in a `long`, so `Encode` does not wrap around. */
  lemma EncodeFitsInLong(s: string)
    requires AllLetters(s) && |s| <= 13
    ensures 0 <= Bijective(s) < Two63
    ensures Wrap64(Bijective(s)) == Bijective(s)
  {
    BijectiveBound(s);
    Pow26Monotone(|s| + 1, 14);
    assert Pow26(14) == 64509974703297150976 by {
      assert Pow26(2) == 676;
      assert Pow26(4) == 456976;
      assert Pow26(6) == 308915776;
      assert Pow26(8) == 208827064576;
      assert Pow26(10) == 141167095653376;
      assert Pow26(12) == 95428956661682176;
    }
  }

  /** Round trip through the 64-bit value for texts short enough not to wrap. */
  lemma RoundTrip(s: string)
    requires AllLetters(s) && NoZ(s) && |s| <= 13
    ensures DecodeValue(Wrap64(Bijective(s))) == Some(Upper(s))
  {
    EncodeFitsInLong(s);
    DecodeEncode(s);
  }

  function AbsInt(x: int): nat { if x < 0 then -x else x }

  /**
   * ConversionManager.Round on ticks: the start of the `span`-long interval holding `dateTime`,
   * null when either argument is null. A zero span with a time divides by zero in the source.
   * Ticks are never negative, so C#'s truncating `%` agrees with Dafny's here.
   */
  function Round(dateTime: Option<nat>, span: Option<int>): (r: Option<nat>)
    requires dateTime.Some? ==> span != Some(0)
    ensures r.Some? <==> dateTime.Some? && span.Some?
    ensures r.Some? ==> r.value <= dateTime.value < r.value + AbsInt(span.value)
    ensures r.Some? ==> r.value % span.value == 0
  {
    if dateTime.None? || span.None? then None
    else
      RoundFacts(dateTime.value, span.value);
      Some(dateTime.value - dateTime.value % span.value)
  }

  lemma RoundFacts(t: nat, s: int)
    requires s != 0
    ensures 0 <= t % s < AbsInt(s)
    ensures (t - t % s) % s == 0
  {
    var q := t / s;
    assert t == q * s + t % s;
    MultipleMod(q, s);
  }

  lemma NonzeroMultipleIsFar(k: int, s: int)
    requires k != 0 && s != 0
    ensures AbsInt(k * s) >= AbsInt(s)
  {
    var a: int, b: int := AbsInt(k), AbsInt(s);
    if k < 0 && s < 0 {
      assert k * s == a * b;
    } else if k < 0 {
      assert k * s == -(a * b);
    } else if s < 0 {
      assert k * s == -(a * b);
    }
    assert a * b == b + (a - 1) * b;
    MulNonnegative(a - 1, b);
  }

  lemma MulNonnegative(x: nat, y: nat)
    ensures x * y >= 0
  {
  }

  lemma MultipleMod(q: int, s: int)
    requires s != 0
    ensures (q * s) % s == 0
  {
    var x := q * s;
    var p, r := x / s, x % s;
    assert x == p * s + r && 0 <= r < AbsInt(s);
    assert (q - p) * s == r;
    if q != p {
      NonzeroMultipleIsFar(q - p, s);
    }
  }

  /** Round is the unique multiple of the span within one span below the time. */
  lemma {:induction false} RoundUnique(t: nat, s: int, m: int)
    requires s != 0 && m % s == 0 && m <= t < m + AbsInt(s)
    ensures Round(Some(t), Some(s)) == Some(m)
  {
    var r := Round(Some(t), Some(s)).value;
    var qr, qm := r / s, m / s;
    assert r == qr * s + r % s && m == qm * s + m % s;
    assert (qr - qm) * s == r - m;
    if qr != qm {
      NonzeroMultipleIsFar(qr - qm, s);
    }
  }

  /** Rounding an already rounded time changes nothing. */
  lemma RoundIdempotent(t: Option<nat>, s: Option<int>)
    requires t.Some? ==> s != Some(0)
    ensures Round(Round(t, s), s) == Round(t, s)
  {
    if t.Some? && s.Some? {
      var r := Round(t, s).value;
      RoundUnique(r, s.value, r);
    }
  }

  /** ConversionManager.Equals: whether two doubles lie strictly closer than `epsilon`. */
  function Equals(v1: real, v2: real, epsilon: real): (r: bool)
    ensures r <==> v1 - epsilon < v2 < v1 + epsilon
  {
    Abs(v1 - v2) < epsilon
  }
}
