/** The string operations the screens use: String.prototype.trim, toLowerCase,
    toUpperCase and includes. Case mapping covers ASCII letters only. */
module Text {

  /** The white space trim (and Number) removes: tab, vertical tab, form
      feed, space, NBSP, the BOM and the other space separators (U+1680,
      U+2000 to U+200A, U+202F, U+205F, U+3000), and the line terminators
      (line feed, carriage return, U+2028, U+2029). */
  predicate IsSpace(c: char) {
    c == ' ' || c == '\t' || c == '\n' || c == '\r' || c == '\U{B}' || c == '\U{C}'
    || c == '\U{A0}' || c == '\U{FEFF}' || c == '\U{1680}' || ('\U{2000}' <= c <= '\U{200A}')
    || c == '\U{2028}' || c == '\U{2029}' || c == '\U{202F}' || c == '\U{205F}' || c == '\U{3000}'
  }

  ghost predicate AllSpace(s: string) {
    forall i :: 0 <= i < |s| ==> IsSpace(s[i])
  }

  /** The number of white-space characters s starts with. */
  function LeadingSpaces(s: string): (k: nat)
    ensures k <= |s|
    ensures forall i :: 0 <= i < k ==> IsSpace(s[i])
    ensures k == |s| || !IsSpace(s[k])
  {
    if |s| > 0 && IsSpace(s[0]) then 1 + LeadingSpaces(s[1..]) else 0
  }

  /** The number of white-space characters s ends with. */
  function TrailingSpaces(s: string): (k: nat)
    ensures k <= |s|
    ensures forall i :: |s| - k <= i < |s| ==> IsSpace(s[i])
    ensures k == |s| || !IsSpace(s[|s| - 1 - k])
  {
    if |s| > 0 && IsSpace(s[|s| - 1]) then 1 + TrailingSpaces(s[..|s| - 1]) else 0
  }

  /** `s.trim()`. */
  function Trim(s: string): (r: string)
  {
    var t := s[LeadingSpaces(s)..];
    t[..|t| - TrailingSpaces(t)]
  }

  /** Trim cuts white space off both ends and nothing else. */
  lemma TrimShape(s: string)
    ensures Trim(s) == [] || (!IsSpace(Trim(s)[0]) && !IsSpace(Trim(s)[|Trim(s)| - 1]))
    ensures exists i, j :: 0 <= i <= j <= |s| && Trim(s) == s[i..j] && AllSpace(s[..i]) && AllSpace(s[j..])
  {
    var k := LeadingSpaces(s);
    var t := s[k..];
    var m := TrailingSpaces(t);
    assert t[..|t| - m] == s[k..|s| - m];
    assert AllSpace(s[..k]);
    var tail := s[|s| - m..];
    assert AllSpace(tail) by {
      forall i | 0 <= i < m ensures IsSpace(tail[i]) {
        assert tail[i] == t[|t| - m + i];
      }
    }
    if Trim(s) != [] {
      assert Trim(s)[0] == s[k];
      assert Trim(s)[|Trim(s)| - 1] == t[|t| - 1 - m];
    }
  }

  /** A string trims to "" exactly when it is all white space. */
  lemma {:induction false} TrimEmptyIffBlank(s: string)
    ensures Trim(s) == [] <==> AllSpace(s)
  {
    var k := LeadingSpaces(s);
    var t := s[k..];
    var m := TrailingSpaces(t);
    if AllSpace(s) {
      assert k == |s|;
    }
    if Trim(s) == [] {
      assert m == |t|;
      assert k == |s|;
    }
  }

  function LowerChar(c: char): char {
    if 'A' <= c <= 'Z' then (c as int + 32) as char else c
  }

  function UpperChar(c: char): char {
    if 'a' <= c <= 'z' then (c as int - 32) as char else c
  }

  /** `s.toLowerCase()` on ASCII letters. */
  function Lower(s: string): (r: string)
    ensures |r| == |s|
    ensures forall i :: 0 <= i < |s| ==> r[i] == LowerChar(s[i])
  {
    seq(|s|, i requires 0 <= i < |s| => LowerChar(s[i]))
  }

  /** `s.toUpperCase()` on ASCII letters. */
  function Upper(s: string): (r: string)
    ensures |r| == |s|
    ensures forall i :: 0 <= i < |s| ==> r[i] == UpperChar(s[i])
  {
    seq(|s|, i requires 0 <= i < |s| => UpperChar(s[i]))
  }

  /** Lowering is idempotent. */
  lemma LowerIdempotent(s: string)
    ensures Lower(Lower(s)) == Lower(s)
  {
    assert forall i :: 0 <= i < |s| ==> LowerChar(LowerChar(s[i])) == LowerChar(s[i]);
  }

  ghost predicate OccursAt(h: string, n: string, i: int) {
    0 <= i && i + |n| <= |h| && h[i..i + |n|] == n
  }

  /** `h.includes(n)`: n occurs in h at some position. */
  function Contains(h: string, n: string): (r: bool)
    ensures r <==> exists i :: OccursAt(h, n, i)
    decreases |h|
  {
    if |n| > |h| then false
    else if h[..|n|] == n then (assert OccursAt(h, n, 0); true)
    else
      var r := Contains(h[1..], n);
      assert forall i :: OccursAt(h[1..], n, i) ==> OccursAt(h, n, i + 1) by {
        forall i | OccursAt(h[1..], n, i) ensures OccursAt(h, n, i + 1) {
          assert h[1..][i..i + |n|] == h[i + 1..i + 1 + |n|];
        }
      }
      assert forall i :: OccursAt(h, n, i) && i > 0 ==> OccursAt(h[1..], n, i - 1) by {
        forall i | OccursAt(h, n, i) && i > 0 ensures OccursAt(h[1..], n, i - 1) {
          assert h[1..][i - 1..i - 1 + |n|] == h[i..i + |n|];
        }
      }
      r
  }
}
