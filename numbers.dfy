/** `Number(text)` on the decimal numerals the forms' keypads produce, and
    `String(n)` on whole numbers. NaN is `None`. */
module Numbers {
  import opened Types
  import Text

  predicate IsDigit(c: char) {
    '0' <= c <= '9'
  }

  predicate AllDigits(s: string) {
    forall i :: 0 <= i < |s| ==> IsDigit(s[i])
  }

  function DigitValue(c: char): nat
    requires IsDigit(c)
  {
    c as int - '0' as int
  }

  function DigitChar(d: nat): (c: char)
    requires d < 10
    ensures IsDigit(c) && DigitValue(c) == d
  {
    ('0' as int + d) as char
  }

  /** The value of a string of decimal digits, most significant first. */
  function DigitsValue(s: string): nat
    requires AllDigits(s)
  {
    if |s| == 0 then 0 else 10 * DigitsValue(s[..|s| - 1]) + DigitValue(s[|s| - 1])
  }

  function Pow10(k: nat): (p: nat)
    ensures p >= 1
  {
    if k == 0 then 1 else 10 * Pow10(k - 1)
  }

  /** The position of the first `c` in s, or |s| when there is none. */
  function IndexOf(s: string, c: char): (i: nat)
    ensures i <= |s|
    ensures i < |s| ==> s[i] == c
    ensures forall j :: 0 <= j < i ==> s[j] != c
  {
    if |s| == 0 then 0
    else if s[0] == c then 0
    else 1 + IndexOf(s[1..], c)
  }

  /** An unsigned decimal: digits with at most one point and at least one digit. */
  function UnsignedValue(s: string): (r: Option<real>)
    ensures r.Some? ==> r.value >= 0.0
  {
    var i := IndexOf(s, '.');
    if i == |s| then
      if |s| > 0 && AllDigits(s) then Some(DigitsValue(s) as real) else None
    else
      var whole := s[..i];
      var frac := s[i + 1..];
      if |whole| + |frac| > 0 && AllDigits(whole) && AllDigits(frac)
      then Some(PointedValue(whole, frac))
      else None
  }

  /** The value of whole + "." + frac: whole plus frac tenths, hundredths, ... */
  function PointedValue(whole: string, frac: string): (v: real)
    requires AllDigits(whole) && AllDigits(frac)
    ensures v >= DigitsValue(whole) as real
  {
    QuotientNonNegative(DigitsValue(frac), Pow10(|frac|));
    DigitsValue(whole) as real + DigitsValue(frac) as real / Pow10(|frac|) as real
  }

  lemma QuotientNonNegative(n: nat, d: nat)
    requires d >= 1
    ensures n as real / d as real >= 0.0
  {
    var x := n as real / d as real;
    assert x * d as real == n as real;
    assert x < 0.0 ==> x * d as real <= x;
  }

  /** The unsigned numerals of the grammar: digits and at most one point,
      with at least one digit ("12", "1.5", "1.", ".5"). */
  predicate UnsignedDecimal(u: string) {
    (forall i :: 0 <= i < |u| ==> IsDigit(u[i]) || u[i] == '.')
    && (forall i, j :: 0 <= i < j < |u| && u[i] == '.' ==> u[j] != '.')
    && (exists i :: 0 <= i < |u| && IsDigit(u[i]))
  }

  /** An unsigned numeral, or one after a single `-` or `+`. */
  predicate SignedDecimal(t: string) {
    UnsignedDecimal(t) || (|t| > 0 && (t[0] == '-' || t[0] == '+') && UnsignedDecimal(t[1..]))
  }

  /** UnsignedValue reads exactly the unsigned numerals of the grammar. */
  lemma UnsignedValueDefined(u: string)
    ensures UnsignedValue(u).Some? <==> UnsignedDecimal(u)
  {
    var i := IndexOf(u, '.');
    if i == |u| {
      if UnsignedDecimal(u) {
        forall k | 0 <= k < |u| ensures IsDigit(u[k]) {
          assert u[k] != '.';
        }
      }
      if |u| > 0 && AllDigits(u) {
        assert IsDigit(u[0]);
      }
    } else {
      var whole := u[..i];
      var frac := u[i + 1..];
      if UnsignedDecimal(u) {
        forall k | 0 <= k < |whole| ensures IsDigit(whole[k]) {
          assert whole[k] == u[k] && u[k] != '.';
        }
        forall k | 0 <= k < |frac| ensures IsDigit(frac[k]) {
          assert frac[k] == u[i + 1 + k] && u[i] == '.';
        }
        var d :| 0 <= d < |u| && IsDigit(u[d]);
        assert d != i;
      }
      if |whole| + |frac| > 0 && AllDigits(whole) && AllDigits(frac) {
        forall k | 0 <= k < |u| ensures IsDigit(u[k]) || u[k] == '.' {
          if k < i {
            assert u[k] == whole[k];
          } else if k > i {
            assert u[k] == frac[k - i - 1];
          }
        }
        forall k | 0 <= k < |u| && k != i ensures u[k] != '.' {
          if k > i {
            assert u[k] == frac[k - i - 1];
          }
        }
        if |whole| > 0 {
          assert IsDigit(u[0]) by { assert u[0] == whole[0]; }
        } else {
          assert IsDigit(u[i + 1]) by { assert u[i + 1] == frac[0]; }
        }
      }
    }
  }

  /** `Number(s)`: white space around the numeral is ignored, a blank string
      is 0, a sign may lead, anything else is NaN. */
  function ParseNumber(s: string): (r: Option<real>)
    ensures Text.Trim(s) == [] ==> r == Some(0.0)
    ensures r.None? <==> Text.Trim(s) != [] && !SignedDecimal(Text.Trim(s))
  {
    var t := Text.Trim(s);
    if t == [] then Some(0.0)
    else if t[0] == '-' then
      UnsignedValueDefined(t[1..]);
      assert !UnsignedDecimal(t);
      var u := UnsignedValue(t[1..]);
      if u.Some? then Some(-u.value) else None
    else if t[0] == '+' then
      UnsignedValueDefined(t[1..]);
      assert !UnsignedDecimal(t);
      UnsignedValue(t[1..])
    else
      UnsignedValueDefined(t);
      UnsignedValue(t)
  }

  /** The decimal digits of n. */
  function Digits(n: nat): (s: string)
    ensures |s| > 0 && AllDigits(s)
    decreases n
  {
    if n < 10 then [DigitChar(n)] else Digits(n / 10) + [DigitChar(n % 10)]
  }

  /** `String(n)` for a whole number. */
  function DecimalText(n: int): (s: string)
    ensures |s| > 0
  {
    if n < 0 then "-" + Digits(-n) else Digits(n)
  }

  lemma {:induction false} DigitsRoundTrip(n: nat)
    ensures DigitsValue(Digits(n)) == n
    decreases n
  {
    if n >= 10 {
      DigitsRoundTrip(n / 10);
      var s := Digits(n);
      assert s[..|s| - 1] == Digits(n / 10);
    }
  }

  lemma DigitsHaveNoPoint(n: nat)
    ensures IndexOf(Digits(n), '.') == |Digits(n)|
  {
    var s := Digits(n);
    assert forall j :: 0 <= j < |s| ==> s[j] != '.' by {
      forall j | 0 <= j < |s| ensures s[j] != '.' {
        assert IsDigit(s[j]);
      }
    }
  }

  /** A string that neither starts nor ends with white space trims to itself. */
  lemma TrimUnpadded(s: string)
    requires |s| > 0 && !Text.IsSpace(s[0]) && !Text.IsSpace(s[|s| - 1])
    ensures Text.Trim(s) == s
  {
    assert Text.LeadingSpaces(s) == 0;
    assert s[0..] == s;
    assert Text.TrailingSpaces(s) == 0;
  }

  /** Number(String(n)) == n: the text a whole number is shown as parses
      back to that number. */
  lemma ParseDecimalText(n: int)
    ensures ParseNumber(DecimalText(n)) == Some(n as real)
  {
    var s := DecimalText(n);
    var d := if n < 0 then -n else n;
    var digits := Digits(d);
    assert IsDigit(digits[0]) && IsDigit(digits[|digits| - 1]);
    assert s[|s| - 1] == digits[|digits| - 1];
    TrimUnpadded(s);
    DigitsRoundTrip(d);
    DigitsHaveNoPoint(d);
    if n < 0 {
      assert s[1..] == digits;
    }
  }

  /** The first point of digits followed by a point is right after the digits. */
  lemma PointAfterDigits(w: string, rest: string)
    requires AllDigits(w) && |rest| > 0 && rest[0] == '.'
    ensures IndexOf(w + rest, '.') == |w|
  {
    var s := w + rest;
    forall j | 0 <= j < |w| ensures s[j] != '.' {
      assert s[j] == w[j];
    }
    assert s[|w|] == '.';
  }

  /** `Number` of a run of digits is the number they spell. */
  lemma ParseWhole(w: string)
    requires |w| > 0 && AllDigits(w)
    ensures ParseNumber(w) == Some(DigitsValue(w) as real)
  {
    assert IsDigit(w[0]) && IsDigit(w[|w| - 1]);
    TrimUnpadded(w);
    assert forall j :: 0 <= j < |w| ==> w[j] != '.' by {
      forall j | 0 <= j < |w| ensures w[j] != '.' {
        assert IsDigit(w[j]);
      }
    }
  }

  /** The unsigned numeral w + "." + f is w plus f tenths, hundredths, ... */
  lemma UnsignedPointed(w: string, f: string)
    requires AllDigits(w) && AllDigits(f) && |w| + |f| > 0
    ensures UnsignedValue(w + "." + f) == Some(PointedValue(w, f))
  {
    var s := w + "." + f;
    assert s == w + ("." + f);
    PointAfterDigits(w, "." + f);
    var i := IndexOf(s, '.');
    assert i == |w|;
    assert s[..i] == w;
    assert s[i + 1..] == f;
    assert AllDigits(s[..i]) && AllDigits(s[i + 1..]);
    assert i != |s|;
  }

  /** The first and last characters of w + "." + f are digits or the point. */
  lemma PointedEnds(w: string, f: string)
    requires AllDigits(w) && AllDigits(f)
    ensures var s := w + "." + f;
            (IsDigit(s[0]) || s[0] == '.') && (IsDigit(s[|s| - 1]) || s[|s| - 1] == '.')
  {
    var s := w + "." + f;
    if |w| > 0 { assert s[0] == w[0]; } else { assert s[0] == '.'; }
    if |f| > 0 { assert s[|s| - 1] == f[|f| - 1]; } else { assert s[|s| - 1] == '.'; }
  }

  /** Text that starts and ends with a digit or the point is read unsigned. */
  lemma ParseUnsigned(s: string)
    requires |s| > 0 && (IsDigit(s[0]) || s[0] == '.') && (IsDigit(s[|s| - 1]) || s[|s| - 1] == '.')
    ensures ParseNumber(s) == UnsignedValue(s)
  {
    TrimUnpadded(s);
  }

  /** The same text after a `-` is read unsigned and negated. */
  lemma ParseNegated(s: string, v: real)
    requires |s| > 0 && (IsDigit(s[|s| - 1]) || s[|s| - 1] == '.')
    requires UnsignedValue(s) == Some(v)
    ensures ParseNumber("-" + s) == Some(-v)
  {
    var n := "-" + s;
    assert n[1..] == s;
    assert n[|n| - 1] == s[|s| - 1];
    TrimUnpadded(n);
  }

  /** The same text after a `+` is read unsigned. */
  lemma ParsePlus(s: string, v: real)
    requires |s| > 0 && (IsDigit(s[|s| - 1]) || s[|s| - 1] == '.')
    requires UnsignedValue(s) == Some(v)
    ensures ParseNumber("+" + s) == Some(v)
  {
    var n := "+" + s;
    assert n[1..] == s;
    assert n[|n| - 1] == s[|s| - 1];
    TrimUnpadded(n);
  }

  /** `Number` ignores the white space around the numeral. */
  lemma ParseIgnoresSurroundingSpace(s: string)
    ensures ParseNumber(s) == ParseNumber(Text.Trim(s))
  {
    var t := Text.Trim(s);
    if t == [] {
      assert Text.Trim(t) == [];
    } else {
      assert !Text.IsSpace(t[0]) && !Text.IsSpace(t[|t| - 1]) by {
        Text.TrimShape(s);
      }
      TrimUnpadded(t);
    }
  }

  /** `Number(w + "." + f)` is w plus f tenths, hundredths, ... (either part
      may be empty, not both). */
  lemma ParsePointed(w: string, f: string)
    requires AllDigits(w) && AllDigits(f) && |w| + |f| > 0
    ensures ParseNumber(w + "." + f) == Some(PointedValue(w, f))
  {
    var s := w + "." + f;
    assert UnsignedValue(s) == Some(PointedValue(w, f)) && |s| > 0
           && (IsDigit(s[0]) || s[0] == '.') && (IsDigit(s[|s| - 1]) || s[|s| - 1] == '.') by {
      UnsignedPointed(w, f);
      PointedEnds(w, f);
    }
    ParseUnsigned(s);
  }

  /** A leading `-` negates it. */
  lemma ParseNegativePointed(w: string, f: string)
    requires AllDigits(w) && AllDigits(f) && |w| + |f| > 0
    ensures ParseNumber("-" + (w + "." + f)) == Some(-PointedValue(w, f))
  {
    var s := w + "." + f;
    assert UnsignedValue(s) == Some(PointedValue(w, f)) && |s| > 0
           && (IsDigit(s[|s| - 1]) || s[|s| - 1] == '.') by {
      UnsignedPointed(w, f);
      PointedEnds(w, f);
    }
    ParseNegated(s, PointedValue(w, f));
  }

  /** A leading `+` keeps it. */
  lemma ParsePlusPointed(w: string, f: string)
    requires AllDigits(w) && AllDigits(f) && |w| + |f| > 0
    ensures ParseNumber("+" + (w + "." + f)) == Some(PointedValue(w, f))
  {
    var s := w + "." + f;
    assert UnsignedValue(s) == Some(PointedValue(w, f)) && |s| > 0
           && (IsDigit(s[|s| - 1]) || s[|s| - 1] == '.') by {
      UnsignedPointed(w, f);
      PointedEnds(w, f);
    }
    ParsePlus(s, PointedValue(w, f));
  }

  /** A blank field is 0 and a word is NaN. */
  lemma ParseBlankAndWord()
    ensures ParseNumber("") == Some(0.0)
    ensures ParseNumber("abc") == None
  {
    assert Text.Trim("") == [];
    TrimUnpadded("abc");
    assert !SignedDecimal("abc") by {
      assert "abc"[0] == 'a';
    }
  }

  /** A whole numeral. */
  lemma ParseTwelve()
    ensures ParseNumber("12") == Some(12.0)
  {
    assert DigitsValue("12") == 12 by {
      assert "12"[..1] == "1";
    }
    ParseWhole("12");
  }

  /** A pointed numeral. */
  lemma ParseOneAndAHalf()
    ensures ParseNumber("1.5") == Some(1.5)
  {
    ParsePointed("1", "5");
    assert "1" + "." + "5" == "1.5";
    assert PointedValue("1", "5") == 1.5;
  }

  /** A negative pointed numeral. */
  lemma ParseMinusAQuarter()
    ensures ParseNumber("-0.25") == Some(-0.25)
  {
    assert PointedValue("0", "25") == 0.25 by {
      assert DigitsValue("25") == 25 by { assert "25"[..1] == "2"; }
      assert DigitsValue("0") == 0 by { assert "0"[..0] == ""; }
      assert Pow10(2) == 100;
    }
    assert ParseNumber("-" + ("0" + "." + "25")) == Some(-0.25) by {
      ParseNegativePointed("0", "25");
    }
    assert "-" + ("0" + "." + "25") == "-0.25";
  }
}
