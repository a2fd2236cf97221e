/**
 * The JAXB adapter that carries every big integer over the wire as text:
 * `marshal` is `BigInteger.toString(16)` and `unmarshal` is `new BigInteger(s, 16)`.
 */
module BigIntegerStringAdapter {
  import opened Wrappers

  /** The character `toString(16)` writes for a digit: `0-9`, then lower-case `a-f`. */
  function DigitChar(d: nat): (c: char)
    requires d < 16
  {
    if d < 10 then ('0' as int + d) as char else ('a' as int + d - 10) as char
  }

  /** The value `Character.digit(c, 16)` gives an ASCII character, or `None` for -1. */
  function DigitValue(c: char): (d: Option<nat>)
    ensures d.Some? ==> d.value < 16
  {
    if '0' <= c <= '9' then Some(c as int - '0' as int)
    else if 'a' <= c <= 'f' then Some(c as int - 'a' as int + 10)
    else if 'A' <= c <= 'F' then Some(c as int - 'A' as int + 10)
    else None
  }

  predicate IsLowerHexDigit(c: char)
  {
    '0' <= c <= '9' || 'a' <= c <= 'f'
  }

  /** What `toString(16)` produces for a non-negative value: lower-case digits, no leading zero. */
  predicate IsCanonical(s: string)
  {
    |s| > 0 && (forall i :: 0 <= i < |s| ==> IsLowerHexDigit(s[i])) && (s[0] == '0' ==> |s| == 1)
  }

  /** The digits of a non-negative value, most significant first. */
  function MarshalNat(v: nat): (r: string)
    decreases v
  {
    if v < 16 then [DigitChar(v)] else MarshalNat(v / 16) + [DigitChar(v % 16)]
  }

  /** `marshal`: a negative value gets a leading minus sign. */
  function Marshal(v: int): (r: string)
  {
    if v < 0 then "-" + MarshalNat(-v) else MarshalNat(v)
  }

  /** Horner evaluation of a digit string in base 16; `None` if some character is no hex digit. */
  function DigitsValue(s: string): (r: Option<nat>)
  {
    if s == [] then Some(0)
    else match (DigitsValue(s[..|s| - 1]), DigitValue(s[|s| - 1]))
      case (Some(high), Some(low)) => Some(16 * high + low)
      case _ => None
  }

  /** The digit part of `s`: what follows one optional leading sign. */
  function Digits(s: string): (r: string)
  {
    if |s| > 0 && (s[0] == '-' || s[0] == '+') then s[1..] else s
  }

  /**
   * `unmarshal`: one optional sign, then at least one hex digit in either case.
   * `None` stands for the `NumberFormatException` Java throws otherwise.
   */
  function Unmarshal(s: string): (r: Option<int>)
  {
    var digits := Digits(s);
    if digits == [] then None
    else match DigitsValue(digits)
      case None => None
      case Some(n) =>
        var v: int := if s[0] == '-' then -(n as int) else n;
        Some(v)
  }

  // ---------------------------------------------------------------------------
  // Properties of marshal

  lemma DigitCharValue(d: nat)
    requires d < 16
    ensures IsLowerHexDigit(DigitChar(d)) && DigitValue(DigitChar(d)) == Some(d)
  {
  }

  lemma DigitValueChar(c: char)
    requires IsLowerHexDigit(c)
    ensures DigitValue(c).Some? && DigitChar(DigitValue(c).value) == c
  {
  }

  /** `marshal(v)` holds only `0-9a-f` and has no leading zero, except `marshal(0) == "0"`. */
  lemma {:induction false} MarshalCanonical(v: nat)
    ensures IsCanonical(MarshalNat(v))
    ensures MarshalNat(v)[0] == '0' <==> v == 0
  {
    DigitCharValue(v % 16);
    if v >= 16 {
      MarshalCanonical(v / 16);
    }
  }

  lemma {:induction false} DigitsOfMarshal(v: nat)
    ensures DigitsValue(MarshalNat(v)) == Some(v)
  {
    var s := MarshalNat(v);
    DigitCharValue(v % 16);
    if v < 16 {
      assert s[..|s| - 1] == [];
    } else {
      DigitsOfMarshal(v / 16);
      assert s[..|s| - 1] == MarshalNat(v / 16);
    }
  }

  /** Round trip: `unmarshal(marshal(v)) == v` for every integer. */
  lemma RoundTrip(v: int)
    ensures Unmarshal(Marshal(v)) == Some(v)
  {
    var n: nat := if v < 0 then -v else v;
    var s := MarshalNat(n);
    MarshalCanonical(n);
    DigitsOfMarshal(n);
    assert s[0] != '-' && s[0] != '+';
    assert Digits(Marshal(v)) == s by {
      if v < 0 {
        assert Marshal(v) == "-" + s;
        assert ("-" + s)[1..] == s;
      }
    }
  }

  // ---------------------------------------------------------------------------
  // Properties of unmarshal

  lemma {:induction false} DigitsValueDefined(s: string)
    ensures DigitsValue(s).Some? <==> forall i :: 0 <= i < |s| ==> DigitValue(s[i]).Some?
  {
    if s != [] {
      var init := s[..|s| - 1];
      DigitsValueDefined(init);
      assert forall i :: 0 <= i < |init| ==> init[i] == s[i];
    }
  }

  /**
   * `unmarshal` succeeds exactly on one optional sign followed by a non-empty run of
   * hex digits; in particular it fails on the empty string and on any other character.
   */
  lemma UnmarshalDefined(s: string)
    ensures Unmarshal(s).Some? <==>
      |Digits(s)| > 0 && forall i :: 0 <= i < |Digits(s)| ==> DigitValue(Digits(s)[i]).Some?
  {
    DigitsValueDefined(Digits(s));
  }

  /** The value of a canonical string is positive unless the string is "0". */
  lemma {:induction false} CanonicalPositive(s: string)
    requires |s| > 0 && s[0] != '0'
    requires forall i :: 0 <= i < |s| ==> IsLowerHexDigit(s[i])
    ensures DigitsValue(s).Some? && DigitsValue(s).value > 0
  {
    var init := s[..|s| - 1];
    DigitValueChar(s[|s| - 1]);
    if |init| == 0 {
      assert s == [s[0]];
    } else {
      assert init[0] == s[0];
      assert forall i :: 0 <= i < |init| ==> init[i] == s[i];
      CanonicalPositive(init);
    }
  }

  /** For canonical strings `marshal(unmarshal(s)) == s`. */
  lemma {:induction false} CanonicalRoundTrip(s: string)
    requires IsCanonical(s)
    ensures DigitsValue(s).Some? && MarshalNat(DigitsValue(s).value) == s
  {
    var init, last := s[..|s| - 1], s[|s| - 1];
    DigitValueChar(last);
    if |init| == 0 {
      assert s == [last];
    } else {
      assert init[0] == s[0];
      assert forall i :: 0 <= i < |init| ==> init[i] == s[i];
      CanonicalPositive(init);
      CanonicalRoundTrip(init);
      var high, low := DigitsValue(init).value, DigitValue(last).value;
      assert (16 * high + low) / 16 == high && (16 * high + low) % 16 == low;
      assert s == init + [last];
    }
  }

  /** Unmarshal of a canonical string inverts marshal. */
  lemma UnmarshalCanonical(s: string)
    requires IsCanonical(s)
    ensures Unmarshal(s).Some? && Unmarshal(s).value >= 0 && Marshal(Unmarshal(s).value) == s
  {
    CanonicalRoundTrip(s);
    assert Digits(s) == s;
  }

  function LowerChar(c: char): (r: char)
  {
    if 'A' <= c <= 'Z' then (c as int - 'A' as int + 'a' as int) as char else c
  }

  /** `s` with every ASCII upper-case letter replaced by its lower-case form. */
  function Lower(s: string): (t: string)
    ensures forall i :: 0 <= i < |t| ==> !('A' <= t[i] <= 'Z')
  {
    seq(|s|, i requires 0 <= i < |s| => LowerChar(s[i]))
  }

  /** Digit strings are read case-insensitively: upper-case `A-F` mean the same as `a-f`. */
  lemma {:induction false} DigitsValueIgnoresCase(s: string)
    ensures DigitsValue(Lower(s)) == DigitsValue(s)
  {
    if s != [] {
      var init := s[..|s| - 1];
      DigitsValueIgnoresCase(init);
      assert Lower(s)[..|s| - 1] == Lower(init);
    }
  }

  lemma UnmarshalIgnoresCase(s: string)
    ensures Unmarshal(Lower(s)) == Unmarshal(s)
  {
    if |s| > 0 && (s[0] == '-' || s[0] == '+') {
      assert Digits(Lower(s)) == Lower(s[1..]);
      DigitsValueIgnoresCase(s[1..]);
    } else {
      assert Digits(Lower(s)) == Lower(s);
      DigitsValueIgnoresCase(s);
    }
  }

  /** Upper-case, signed and non-hex inputs, as `new BigInteger(s, 16)` treats them. */
  lemma UnmarshalExamples()
    ensures Unmarshal("FF") == Some(255)
    ensures Unmarshal("ff") == Some(255)
    ensures Unmarshal("-1a") == Some(-26)
    ensures Unmarshal("+10") == Some(16)
    ensures Unmarshal("") == None
    ensures Unmarshal("-") == None
    ensures Unmarshal("1g") == None
    ensures Marshal(0) == "0"
    ensures Marshal(255) == "ff"
    ensures Marshal(-26) == "-1a"
  {
    assert "FF"[..1] == "F" && "F"[..0] == "";
    assert DigitsValue("F") == Some(15);
    assert "ff"[..1] == "f";
    assert "1a"[..1] == "1";
    assert "10"[..1] == "1";
    assert "1g"[..1] == "1";
  }
}
