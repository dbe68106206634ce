/** Strings as the program's framing sees them: stripping, suffixes, and lines up to CR LF. */
module Text {
  import opened Wrappers

  const CRLF := "\r\n"

  predicate NoNewline(s: string) { forall i | 0 <= i < |s| :: s[i] != '\n' }

  lemma NoNewlineSlice(s: string, a: nat, b: nat)
    requires a <= b <= |s| && forall i | a <= i < b :: s[i] != '\n'
    ensures NoNewline(s[a..b])
  {
    assert forall i | 0 <= i < b - a :: s[a..b][i] == s[a+i];
  }

  /** The characters str.strip() removes. */
  predicate IsSpace(c: char) {
    var n := c as int;
    || 9 <= n <= 13 || 28 <= n <= 32 || n == 0x85 || n == 0xA0 || n == 0x1680
    || 0x2000 <= n <= 0x200A || n == 0x2028 || n == 0x2029 || n == 0x202F || n == 0x205F || n == 0x3000
  }

  function SkipSpaces(s: string, from: nat): (r: nat)
    requires from <= |s|
    ensures from <= r <= |s| && (r < |s| ==> !IsSpace(s[r]))
    ensures forall k | from <= k < r :: IsSpace(s[k])
    decreases |s| - from
  {
    if from < |s| && IsSpace(s[from]) then SkipSpaces(s, from + 1) else from
  }

  function SkipSpacesBack(s: string, low: nat, end: nat): (r: nat)
    requires low <= end <= |s|
    ensures low <= r <= end && (low < r ==> !IsSpace(s[r-1]))
    ensures forall k | r <= k < end :: IsSpace(s[k])
    decreases end
  {
    if low < end && IsSpace(s[end-1]) then SkipSpacesBack(s, low, end - 1) else end
  }

  /** str.strip() */
  function Strip(s: string): string {
    var a := SkipSpaces(s, 0);
    s[a..SkipSpacesBack(s, a, |s|)]
  }

  /** Nothing for strip() to remove. */
  predicate Trimmed(s: string) {
    s == "" || (!IsSpace(s[0]) && !IsSpace(s[|s|-1]))
  }

  /** Stripping removes exactly the white space around a trimmed stretch. */
  lemma StripAround(s: string, a: nat, b: nat)
    requires a <= b <= |s|
    requires forall i | 0 <= i < a || b <= i < |s| :: IsSpace(s[i])
    requires a < b ==> !IsSpace(s[a]) && !IsSpace(s[b-1])
    ensures Strip(s) == s[a..b]
  {
    var l := SkipSpaces(s, 0);
    var r := SkipSpacesBack(s, l, |s|);
    if a < b {
      assert l == a && r == b;
    } else {
      assert l == |s|;
    }
  }

  /** White space around a text makes no difference to what strip() leaves. */
  lemma StripPadded(a: string, s: string, b: string)
    requires (forall i | 0 <= i < |a| :: IsSpace(a[i])) && (forall i | 0 <= i < |b| :: IsSpace(b[i]))
    ensures Strip(a + s + b) == Strip(s)
  {
    hide IsSpace, Strip;
    var l := SkipSpaces(s, 0);
    var r := SkipSpacesBack(s, l, |s|);
    var t := a + s + b;
    PaddedSpaces(a, s, b, l, r);
    StripAround(t, |a| + l, |a| + r);
    assert t[|a|+l..|a|+r] == s[l..r];
    StripIs(s);
  }

  lemma StripIs(s: string)
    ensures var l := SkipSpaces(s, 0); Strip(s) == s[l..SkipSpacesBack(s, l, |s|)]
  {
  }

  /** What is white space in a text, between two of white space. */
  lemma PaddedSpaces(a: string, s: string, b: string, l: nat, r: nat)
    requires l <= r <= |s| && (forall i | 0 <= i < |a| :: IsSpace(a[i])) && (forall i | 0 <= i < |b| :: IsSpace(b[i]))
    requires forall i | 0 <= i < l || r <= i < |s| :: IsSpace(s[i])
    ensures forall i | 0 <= i < |a| + l || |a| + r <= i < |a + s + b| :: IsSpace((a + s + b)[i])
  {
    hide IsSpace;
    var t := a + s + b;
    forall i | 0 <= i < |a| + l || |a| + r <= i < |t| ensures IsSpace(t[i]) {
      assert t[i] == if i < |a| then a[i] else if i < |a| + |s| then s[i-|a|] else b[i-|a|-|s|];
    }
  }

  lemma StripTrims(s: string)
    ensures Trimmed(Strip(s)) && |Strip(s)| <= |s|
    ensures NoNewline(s) ==> NoNewline(Strip(s))
    ensures s != "" && !IsSpace(s[0]) ==> Strip(s) != ""
  {
  }

  predicate EndsWith(s: string, suffix: string) {
    |suffix| <= |s| && s[|s|-|suffix|..] == suffix
  }

  /** Where reading s up to a delimiter stops: the delimiter, the cap, or the end of the input. */
  predicate StopsAt(s: string, until: string, cap: Option<int>, n: nat)
    requires n <= |s|
  {
    n == |s| || (cap.Some? && cap.value <= n) || EndsWith(s[..n], until)
  }

  function UntilFrom(s: string, until: string, cap: Option<int>, n: nat): (r: nat)
    requires n <= |s|
    ensures n <= r <= |s| && StopsAt(s, until, cap, r)
    ensures forall m: nat | n <= m < r :: !StopsAt(s, until, cap, m)
    decreases |s| - n
  {
    if StopsAt(s, until, cap, n) then n else UntilFrom(s, until, cap, n + 1)
  }

  /** How many characters are read: at least one whenever there is one. */
  function ReadLength(s: string, until: string, cap: Option<int>): nat {
    if s == "" then 0 else UntilFrom(s, until, cap, 1)
  }

  function LineEnd(s: string): (n: nat)
    ensures n <= |s| && (s != "" ==> n > 0)
  {
    ReadLength(s, CRLF, None)
  }

  lemma LastOfLine(s: string)
    ensures EndsWith(s, CRLF) ==> s[|s|-1] == '\n'
  {
    if EndsWith(s, CRLF) {
      assert s[|s|-2..][1] == CRLF[1];
    }
  }

  /** A line without a newline inside is read back whole, with its CR LF, and nothing else. */
  lemma LineEndAt(x: string, rest: string)
    requires NoNewline(x)
    ensures LineEnd(x + CRLF + rest) == |x| + 2
    ensures (x + CRLF + rest)[..|x|+2] == x + CRLF && (x + CRLF + rest)[|x|+2..] == rest
  {
    var s := x + CRLF + rest;
    assert s[..|x|+2] == x + CRLF;
    assert EndsWith(s[..|x|+2], CRLF);
    assert (x + CRLF)[|x|..] == CRLF;
    forall m: nat | 1 <= m < |x| + 2 ensures !StopsAt(s, CRLF, None, m) {
      LastOfLine(s[..m]);
      assert s[..m][m-1] == if m - 1 < |x| then x[m-1] else '\r';
    }
    var n := UntilFrom(s, CRLF, None, 1);
    assert StopsAt(s, CRLF, None, |x| + 2);
    assert n <= |x| + 2;
    assert StopsAt(s, CRLF, None, n);
    assert n >= |x| + 2;
  }
}
