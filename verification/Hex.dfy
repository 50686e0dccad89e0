/** Credential verifiers as lowercase hexadecimal text. */
module Hex {
  import opened Model

  const VERIFIER_BYTES: nat := 32
  const DIGITS: string := "0123456789abcdef"

  type Verifier = seq<nat>

  predicate IsZero(v: Verifier) { forall i | 0 <= i < |v| :: v[i] == 0 }

  /** Thirty-two bytes, not all zero. */
  predicate IsVerifier(v: Verifier) { |v| == VERIFIER_BYTES && (forall i | 0 <= i < |v| :: v[i] < 256) && !IsZero(v) }

  function EncodeByte(b: nat): string
    requires b < 256
  {
    [DIGITS[b / 16], DIGITS[b % 16]]
  }

  function Encode(v: Verifier): (s: string)
    requires forall i | 0 <= i < |v| :: v[i] < 256
    ensures |s| == 2 * |v|
  {
    if v == [] then "" else Encode(v[..|v| - 1]) + EncodeByte(v[|v| - 1])
  }

  function Nibble(c: char): Option<nat> {
    if '0' <= c <= '9' then Some(c as int - '0' as int)
    else if 'a' <= c <= 'f' then Some(c as int - 'a' as int + 10)
    else None
  }

  function DecodeByte(hi: char, lo: char): Option<nat> {
    if Nibble(hi).None? || Nibble(lo).None? then None else Some(Nibble(hi).value * 16 + Nibble(lo).value)
  }

  function DecodePairs(s: string): (r: Option<Verifier>)
    requires |s| % 2 == 0
    ensures r.Some? ==> 2 * |r.value| == |s| && forall i | 0 <= i < |r.value| :: r.value[i] < 256
  {
    if s == "" then Some([])
    else
      var n := |s| - 2;
      var init, b := DecodePairs(s[..n]), DecodeByte(s[n], s[n + 1]);
      if init.None? || b.None? then None else Some(init.value + [b.value])
  }

  function Decode(s: string): Option<Verifier> {
    if |s| != 2 * VERIFIER_BYTES then None
    else
      var v := DecodePairs(s);
      if v.None? || IsZero(v.value) then None else v
  }

  lemma ByteRoundTrip(b: nat)
    requires b < 256
    ensures DecodeByte(EncodeByte(b)[0], EncodeByte(b)[1]) == Some(b)
  {
    DigitRoundTrip(b / 16);
    DigitRoundTrip(b % 16);
  }

  lemma DigitRoundTrip(d: nat)
    requires d < 16
    ensures Nibble(DIGITS[d]) == Some(d)
  {
    if d < 10 { DecimalDigit(d); } else { LetterDigit(d); }
  }

  lemma DecimalDigit(d: nat)
    requires d < 10
    ensures DIGITS[d] as int == '0' as int + d
  {
    assert d == 0 || d == 1 || d == 2 || d == 3 || d == 4 || d == 5 || d == 6 || d == 7 || d == 8 || d == 9;
  }

  lemma LetterDigit(d: nat)
    requires 10 <= d < 16
    ensures DIGITS[d] as int == 'a' as int + d - 10
  {
    assert d == 10 || d == 11 || d == 12 || d == 13 || d == 14 || d == 15;
  }

  lemma {:induction false} PairsRoundTrip(v: Verifier)
    requires forall i | 0 <= i < |v| :: v[i] < 256
    ensures DecodePairs(Encode(v)) == Some(v)
  {
    if v != [] {
      var init, last := v[..|v| - 1], v[|v| - 1];
      PairsRoundTrip(init);
      ByteRoundTrip(last);
      var s := Encode(v);
      assert s[..|s| - 2] == Encode(init) && s[|s| - 2] == EncodeByte(last)[0] && s[|s| - 1] == EncodeByte(last)[1];
      assert v == init + [last];
    }
  }

  /** Every verifier survives being written and read back. */
  lemma VerifierRoundTrip(v: Verifier)
    requires IsVerifier(v)
    ensures Decode(Encode(v)) == Some(v)
  {
    PairsRoundTrip(v);
  }

  lemma CharRoundTrip(c: char)
    requires Nibble(c).Some?
    ensures Nibble(c).value < 16 && DIGITS[Nibble(c).value] == c
  {
    var d := Nibble(c).value;
    if '0' <= c <= '9' { DecimalDigit(d); } else { LetterDigit(d); }
  }

  lemma ByteCanonical(hi: char, lo: char)
    requires DecodeByte(hi, lo).Some?
    ensures var b := DecodeByte(hi, lo).value; b < 256 && EncodeByte(b) == [hi, lo]
  {
    CharRoundTrip(hi);
    CharRoundTrip(lo);
    var b := DecodeByte(hi, lo).value;
    assert b / 16 == Nibble(hi).value && b % 16 == Nibble(lo).value;
  }

  lemma {:induction false} PairsCanonical(s: string)
    requires |s| % 2 == 0 && DecodePairs(s).Some?
    ensures Encode(DecodePairs(s).value) == s
  {
    if s != "" {
      var n := |s| - 2;
      PairsCanonical(s[..n]);
      ByteCanonical(s[n], s[n + 1]);
      var init, b := DecodePairs(s[..n]).value, DecodeByte(s[n], s[n + 1]).value;
      var v := DecodePairs(s).value;
      assert v == init + [b] && v[..|v| - 1] == init && v[|v| - 1] == b;
      assert s == s[..n] + EncodeByte(b);
    }
  }

  /** Only the canonical lowercase text of a verifier is accepted. */
  lemma TextCanonical(s: string)
    requires Decode(s).Some?
    ensures IsVerifier(Decode(s).value) && Encode(Decode(s).value) == s
  {
    PairsCanonical(s);
  }

  method DecodeVerifier(s: string) returns (r: Option<Verifier>)
    ensures r == Decode(s)
  {
    if |s| != 2 * VERIFIER_BYTES { return None; }
    var v: Verifier := [];
    for i := 0 to VERIFIER_BYTES
      invariant DecodePairs(s[..2 * i]) == Some(v)
    {
      var b := DecodeByte(s[2 * i], s[2 * i + 1]);
      assert s[..2 * (i + 1)][..2 * i] == s[..2 * i];
      if b.None? {
        PairsFail(s, 2 * (i + 1));
        return None;
      }
      v := v + [b.value];
    }
    assert s[..2 * VERIFIER_BYTES] == s;
    return if IsZero(v) then None else Some(v);
  }

  lemma {:induction false} PairsFail(s: string, n: nat)
    requires |s| % 2 == 0 && n % 2 == 0 && n <= |s| && DecodePairs(s[..n]).None?
    ensures DecodePairs(s).None?
    decreases |s|
  {
    if n == |s| {
      assert s[..n] == s;
    } else {
      assert s[..|s| - 2][..n] == s[..n];
      PairsFail(s[..|s| - 2], n);
    }
  }
}
