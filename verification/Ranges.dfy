/** The two patterns of the session layer: the address a SETUP names and the range a PLAY asks for. */
module Ranges {
  import opened Wrappers
  import opened Patterns
  import Decimal

  function Lits(t: string): Pattern {
    if t == "" then [] else [Lit(t[0])] + Lits(t[1..])
  }

  // ^diantp://(?P<host>[^/]+)/(?P<file>[^/]+)$
  function HostAndFile(): Pattern { [Plus(Except('/')), Lit('/'), Plus(Except('/'))] }

  function UrlPattern(): Pattern { Lits("diantp://") + HostAndFile() }

  // ^npt *= *(?P<start>[0-9]+)-(?P<end>[0-9]+)? *$
  function StartAndEnd(): Pattern {
    [ Star(Only(' ')), Lit('='), Star(Only(' ')),
      Plus(Between('0', '9')), Lit('-'), Star(Between('0', '9')), Star(Only(' ')) ]
  }

  function RangePattern(): Pattern { Lits("npt") + StartAndEnd() }

  /** The file name an address asks for. */
  function FileOf(url: string): Option<string> {
    MatchIsAWay(UrlPattern(), url, 0);
    LitsLength("diantp://");
    match Match(UrlPattern(), url, 0)
    case None => None
    case Some(e) =>
      assert Fits(UrlPattern()[11], url, Start(0, e, 11), e[11]);
      Some(Group(url, e, 11))
  }

  /** The start and the end, if it is given, of a requested range. */
  function ParseRange(text: string): Option<(nat, Option<nat>)> {
    MatchIsAWay(RangePattern(), text, 0);
    LitsLength("npt");
    match Match(RangePattern(), text, 0)
    case None => None
    case Some(e) =>
      assert RangePattern()[6] == Plus(Between('0', '9')) && RangePattern()[8] == Star(Between('0', '9'));
      assert Fits(RangePattern()[6], text, Start(0, e, 6), e[6]);
      assert Fits(RangePattern()[8], text, Start(0, e, 8), e[8]);
      var start, end := Group(text, e, 6), Group(text, e, 8);
      Some((Decimal.Value(start), if end == "" then None else Some(Decimal.Value(end))))
  }

  lemma {:induction false} LitsLength(t: string)
    ensures |Lits(t)| == |t|
  {
    if t != "" { LitsLength(t[1..]); }
  }

  predicate TextAt(s: string, pos: nat, t: string) {
    pos + |t| <= |s| && forall i | 0 <= i < |t| :: s[pos+i] == t[i]
  }

  lemma MatchLit(c: char, p: Pattern, s: string, pos: nat)
    requires pos <= |s|
    ensures var q := [Lit(c)] + p;
      if pos < |s| && s[pos] == c then
        var r := Match(p, s, pos + 1);
        Match(q, s, pos) == if r.None? then None else Some([pos + 1] + r.value)
      else
        Match(q, s, pos) == None
  {
    var q := [Lit(c)] + p;
    assert q[0] == Lit(c) && q[1..] == p;
    var end := RunEnd(q[0], s, pos, pos);
    RunEndFits(q[0], s, pos, pos);
    if pos < |s| && s[pos] == c {
      assert Fits(q[0], s, pos, pos + 1);
      assert !Fits(q[0], s, pos, pos + 2);
      assert end == pos + 1;
      if Match(p, s, pos + 1).None? {
        assert MatchDown(q, s, pos, pos) == None;
      }
    } else {
      assert !Fits(q[0], s, pos, pos + 1);
      assert end == pos;
    }
  }

  /** A literal prefix matches itself and nothing else; the pieces after it then see the rest. */
  lemma {:induction false} MatchLits(t: string, p: Pattern, s: string, pos: nat)
    requires pos <= |s|
    ensures TextAt(s, pos, t) ==>
      var r := Match(p, s, pos + |t|); var all := Match(Lits(t) + p, s, pos);
      if r.None? then all.None? else all.Some? && |all.value| == |t| + |r.value| && all.value[|t|..] == r.value
    ensures !TextAt(s, pos, t) ==> Match(Lits(t) + p, s, pos) == None
  {
    if t == "" {
      assert Lits(t) + p == p;
    } else {
      var q := Lits(t[1..]) + p;
      assert Lits(t) + p == [Lit(t[0])] + q;
      MatchLit(t[0], q, s, pos);
      assert TextAt(s, pos, t) ==> s[pos+0] == t[0];
      if pos < |s| && s[pos] == t[0] {
        TextStep(s, pos, t);
        MatchLits(t[1..], p, s, pos + 1);
      }
    }
  }

  lemma TextStep(s: string, pos: nat, t: string)
    requires t != "" && pos < |s| && s[pos] == t[0]
    ensures TextAt(s, pos, t) <==> TextAt(s, pos + 1, t[1..])
  {
    if TextAt(s, pos + 1, t[1..]) {
      forall i | 0 <= i < |t| ensures s[pos+i] == t[i] {
        if i > 0 { assert s[pos+1+(i-1)] == t[1..][i-1]; }
      }
    }
    if TextAt(s, pos, t) {
      forall i | 0 <= i < |t| - 1 ensures s[pos+1+i] == t[1..][i] {
        assert s[pos+(i+1)] == t[i+1];
      }
    }
  }

  // ----- addresses -----

  predicate NoSlash(t: string) { forall i | 0 <= i < |t| :: t[i] != '/' }

  /** What the way through host and file must be. */
  lemma HostAndFileWay(s: string, pos: nat, w: seq<nat>)
    ensures IsWay(HostAndFile(), s, pos, w) <==>
      && |w| == 3 && pos < w[0] && w[1] == w[0] + 1 && w[1] < w[2] <= |s| && AtEnd(s, w[2])
      && (forall i | pos <= i < w[0] :: s[i] != '/') && s[w[0]] == '/' && (forall i | w[1] <= i < w[2] :: s[i] != '/')
  {
    var p := HostAndFile();
    if IsWay(p, s, pos, w) {
      assert Fits(p[0], s, Start(pos, w, 0), w[0]);
      assert Fits(p[1], s, Start(pos, w, 1), w[1]);
      assert Fits(p[2], s, Start(pos, w, 2), w[2]);
    }
  }

  ghost predicate NamesFile(url: string, host: string, file: string) {
    && host != "" && NoSlash(host) && file != "" && NoSlash(file)
    && url == "diantp://" + host + "/" + file
  }

  /** The file asked for is exactly what an address of the accepted form names. */
  lemma FileOfExactly(url: string, file: string)
    ensures FileOf(url) == Some(file) <==> exists host :: NamesFile(url, host, file)
  {
    if host :| NamesFile(url, host, file) {
      FileOfIf(url, host, file);
    }
    if FileOf(url) == Some(file) {
      var host := FileOfOnlyIf(url, file);
    }
  }

  /** The file runs to the very end of the address, a final newline included. */
  lemma FileToTheEnd(url: string, w: seq<nat>)
    requires Match(HostAndFile(), url, 9) == Some(w)
    ensures |w| == 3 && w[2] == |url|
  {
    var p := HostAndFile();
    MatchExactly(p, url, 9, w);
    HostAndFileWay(url, 9, w);
    if w[2] < |url| { LongerFile(url, w); }
  }

  lemma LongerFile(url: string, w: seq<nat>)
    requires IsWay(HostAndFile(), url, 9, w) && |w| == 3 && w[2] < |url|
    ensures var longer := [w[0], w[1], |url|];
      IsWay(HostAndFile(), url, 9, longer) && TriedBefore(HostAndFile(), longer, w)
  {
    var longer := [w[0], w[1], |url|];
    HostAndFileWay(url, 9, w);
    HostAndFileWay(url, 9, longer);
    assert longer[..2] == w[..2] && HostAndFile()[2].greedy && longer[2] > w[2];
  }

  lemma FileOfOnlyIf(url: string, file: string) returns (host: string)
    requires FileOf(url) == Some(file)
    ensures NamesFile(url, host, file)
  {
    hide IsWay, Fits;
    MatchLits("diantp://", HostAndFile(), url, 0);
    MatchIsAWay(HostAndFile(), url, 9);
    var w := Match(HostAndFile(), url, 9).value;
    HostAndFileWay(url, 9, w);
    FileToTheEnd(url, w);
    FileOfIsLast(url, w);
    host := url[9..w[0]];
    HostAndFileNamed(url, w[0]);
  }

  lemma HostAndFileNamed(url: string, h: nat)
    requires TextAt(url, 0, "diantp://") && 9 < h && h + 1 < |url| && url[h] == '/'
    requires forall i | 9 <= i < |url| && i != h :: url[i] != '/'
    ensures NamesFile(url, url[9..h], url[h+1..])
  {
    assert url[..9] == "diantp://";
    assert url == url[..9] + url[9..h] + [url[h]] + url[h+1..];
  }

  lemma FileOfIsLast(url: string, w: seq<nat>)
    requires TextAt(url, 0, "diantp://") && Match(HostAndFile(), url, 9) == Some(w)
    requires |w| == 3 && w[1] <= w[2] <= |url|
    ensures FileOf(url) == Some(url[w[1]..w[2]])
  {
    MatchLits("diantp://", HostAndFile(), url, 0);
    var all := Match(UrlPattern(), url, 0).value;
    assert all[9..][1] == w[1] && all[9..][2] == w[2];
    assert Group(url, all, 11) == url[w[1]..w[2]];
  }

  lemma HostAndFileMatch(url: string, h: nat)
    requires 9 < h && h + 1 < |url| && url[h] == '/'
    requires forall i | 9 <= i < |url| && i != h :: url[i] != '/'
    ensures Match(HostAndFile(), url, 9) == Some([h, h + 1, |url|])
  {
    var p, e := HostAndFile(), [h, h + 1, |url|];
    HostAndFileWay(url, 9, e);
    forall w | IsWay(p, url, 9, w) ensures !TriedBefore(p, w, e) {
      HostAndFileWay(url, 9, w);
      assert w[0] == h && w[1] == h + 1 && w[2] <= |url|;
    }
    MatchExactly(p, url, 9, e);
  }

  lemma FileOfIf(url: string, host: string, file: string)
    requires NamesFile(url, host, file)
    ensures FileOf(url) == Some(file)
  {
    hide IsWay, Fits;
    var h := 9 + |host|;
    assert url[9..h] == host && url[h+1..] == file && url[h] == '/';
    assert forall i | 9 <= i < h :: url[i] == host[i-9];
    assert forall i | h + 1 <= i < |url| :: url[i] == file[i-h-1];
    HostAndFileMatch(url, h);
    assert TextAt(url, 0, "diantp://");
    var e := [h, h + 1, |url|];
    FileOfIsLast(url, e);
    assert url[e[1]..e[2]] == file;
  }

  // ----- ranges -----

  /** A range as it may be written: the two numbers, the spaces around, and perhaps a final newline. */
  datatype Written = Written(
    beforeEq: string,
    afterEq: string,
    start: string,
    end: string,
    trailing: string,
    newline: bool)

  function Spelled(r: Written): string { "npt" + (r.beforeEq + AfterSpaces(r)) }

  function AfterSpaces(r: Written): string { "=" + (r.afterEq + Numbers(r)) }

  function Numbers(r: Written): string { r.start + ("-" + (r.end + Rest(r))) }

  function Rest(r: Written): string { r.trailing + if r.newline then "\n" else "" }

  predicate AllSpaces(t: string) { forall i | 0 <= i < |t| :: t[i] == ' ' }

  predicate WellWritten(r: Written) {
    && AllSpaces(r.beforeEq) && AllSpaces(r.afterEq) && AllSpaces(r.trailing)
    && Decimal.IsNumeral(r.start) && Decimal.AllDigits(r.end)
  }

  /** The numbers that are written; an end may be missing. */
  function Asked(r: Written): (nat, Option<nat>)
    requires WellWritten(r)
  {
    (Decimal.Value(r.start), if r.end == "" then None else Some(Decimal.Value(r.end)))
  }

  /** The ends of the pieces after "npt". */
  ghost predicate RangeAt(s: string, pos: nat, w: seq<nat>) {
    && |w| == 7 && pos <= w[0] < w[1] <= w[2] < w[3] < w[4] <= w[5] <= w[6] <= |s| && AtEnd(s, w[6])
    && w[1] == w[0] + 1 && s[w[0]] == '=' && w[4] == w[3] + 1 && s[w[3]] == '-'
    && (forall i | pos <= i < w[0] || w[1] <= i < w[2] || w[5] <= i < w[6] :: s[i] == ' ')
    && (forall i | w[2] <= i < w[3] || w[4] <= i < w[5] :: '0' <= s[i] <= '9')
  }

  lemma StartAndEndWay(s: string, pos: nat, w: seq<nat>)
    ensures IsWay(StartAndEnd(), s, pos, w) <==> RangeAt(s, pos, w)
  {
    if IsWay(StartAndEnd(), s, pos, w) { WayIsRange(s, pos, w); }
    if RangeAt(s, pos, w) { RangeIsWay(s, pos, w); }
  }

  lemma WayIsRange(s: string, pos: nat, w: seq<nat>)
    requires IsWay(StartAndEnd(), s, pos, w)
    ensures RangeAt(s, pos, w)
  {
    var p := StartAndEnd();
    assert Fits(p[0], s, Start(pos, w, 0), w[0]);
    assert Fits(p[1], s, Start(pos, w, 1), w[1]);
    assert Fits(p[2], s, Start(pos, w, 2), w[2]);
    assert Fits(p[3], s, Start(pos, w, 3), w[3]);
    assert Fits(p[4], s, Start(pos, w, 4), w[4]);
    assert Fits(p[5], s, Start(pos, w, 5), w[5]);
    assert Fits(p[6], s, Start(pos, w, 6), w[6]);
  }

  lemma RangeIsWay(s: string, pos: nat, w: seq<nat>)
    requires RangeAt(s, pos, w)
    ensures IsWay(StartAndEnd(), s, pos, w)
  {
    var p := StartAndEnd();
    forall k | 0 <= k < 7 ensures Fits(p[k], s, Start(pos, w, k), w[k]) {
      assert k == 0 || k == 1 || k == 2 || k == 3 || k == 4 || k == 5 || k == 6;
    }
  }

  /** A range can be read in one way only. */
  lemma OneReading(s: string, pos: nat, w: seq<nat>, v: seq<nat>)
    requires RangeAt(s, pos, w) && RangeAt(s, pos, v)
    ensures w == v
  {
    assert w[0] == v[0];
    assert '0' <= s[w[2]] <= '9' && '0' <= s[v[2]] <= '9';
    assert w[2] == v[2];
    assert w[3] == v[3];
    assert w[5] < |s| ==> s[w[5]] == ' ' || s[w[5]] == '\n';
    assert v[5] < |s| ==> s[v[5]] == ' ' || s[v[5]] == '\n';
    assert w[5] == v[5];
    assert w[6] == v[6];
  }

  lemma RangeMatch(s: string, pos: nat, w: seq<nat>)
    ensures Match(StartAndEnd(), s, pos) == Some(w) <==> RangeAt(s, pos, w)
  {
    var p := StartAndEnd();
    MatchIsAWay(p, s, pos);
    StartAndEndWay(s, pos, w);
    if RangeAt(s, pos, w) {
      MatchIsEarliest(p, s, pos, w);
      var v := Match(p, s, pos).value;
      StartAndEndWay(s, pos, v);
      OneReading(s, pos, w, v);
    }
  }

  lemma ParseRangeAt(s: string, w: seq<nat>)
    requires TextAt(s, 0, "npt") && RangeAt(s, 3, w)
    ensures Decimal.AllDigits(s[w[2]..w[3]]) && Decimal.AllDigits(s[w[4]..w[5]])
    ensures ParseRange(s) == Some((Decimal.Value(s[w[2]..w[3]]),
      if w[4] == w[5] then None else Some(Decimal.Value(s[w[4]..w[5]]))))
  {
    RangeMatch(s, 3, w);
    MatchLits("npt", StartAndEnd(), s, 0);
    var all := Match(RangePattern(), s, 0).value;
    assert all[3..][2] == w[2] && all[3..][3] == w[3] && all[3..][4] == w[4] && all[3..][5] == w[5];
    assert Group(s, all, 6) == s[w[2]..w[3]] && Group(s, all, 8) == s[w[4]..w[5]];
  }

  /** Where the pieces of a written range end. */
  function PiecesOf(r: Written): seq<nat> {
    var a := 3 + |r.beforeEq|;
    var b := a + 1 + |r.afterEq|;
    var c := b + |r.start|;
    var d := c + 1 + |r.end|;
    [a, a + 1, b, c, c + 1, d, d + |r.trailing|]
  }

  /** s continues at pos with a, then with rest. */
  lemma Continues(s: string, pos: nat, a: string, rest: string)
    requires pos <= |s| && s[pos..] == a + rest
    ensures pos + |a| <= |s| && s[pos..pos+|a|] == a && s[pos+|a|..] == rest
  {
    var t := s[pos..];
    assert t[..|a|] == a && t[|a|..] == rest;
    assert s[pos..pos+|a|] == t[..|a|] && s[pos+|a|..] == t[|a|..];
  }

  ghost predicate PiecesAre(s: string, w: seq<nat>, r: Written) {
    && |w| == 7 && 3 <= w[0] < w[1] <= w[2] < w[3] < w[4] <= w[5] <= w[6] <= |s|
    && s[..3] == "npt" && s[3..w[0]] == r.beforeEq && s[w[0]..w[1]] == "=" && s[w[1]..w[2]] == r.afterEq
    && s[w[2]..w[3]] == r.start && s[w[3]..w[4]] == "-" && s[w[4]..w[5]] == r.end && s[w[5]..w[6]] == r.trailing
    && s[w[6]..] == if r.newline then "\n" else ""
  }

  lemma FirstPieces(r: Written)
    ensures var s, a := Spelled(r), 3 + |r.beforeEq|; var b := a + 1 + |r.afterEq|;
      && b <= |s| && s[..3] == "npt" && s[3..a] == r.beforeEq && s[a..a+1] == "=" && s[a+1..b] == r.afterEq
      && s[b..] == Numbers(r)
  {
    var s, a := Spelled(r), 3 + |r.beforeEq|;
    assert s[0..] == s;
    Continues(s, 0, "npt", r.beforeEq + AfterSpaces(r));
    Continues(s, 3, r.beforeEq, AfterSpaces(r));
    Continues(s, a, "=", r.afterEq + Numbers(r));
    Continues(s, a + 1, r.afterEq, Numbers(r));
  }

  lemma LastPieces(s: string, b: nat, r: Written)
    requires b <= |s| && s[b..] == Numbers(r)
    ensures var c := b + |r.start|; var d := c + 1 + |r.end|; var e := d + |r.trailing|;
      && e <= |s| && s[b..c] == r.start && s[c..c+1] == "-" && s[c+1..d] == r.end && s[d..e] == r.trailing
      && s[e..] == if r.newline then "\n" else ""
  {
    var c := b + |r.start|;
    Continues(s, b, r.start, "-" + (r.end + Rest(r)));
    Continues(s, c, "-", r.end + Rest(r));
    hide Numbers;
    EndPieces(s, c + 1, r);
  }

  lemma EndPieces(s: string, c: nat, r: Written)
    requires c <= |s| && s[c..] == r.end + Rest(r)
    ensures var d := c + |r.end|; var e := d + |r.trailing|;
      && e <= |s| && s[c..d] == r.end && s[d..e] == r.trailing && s[e..] == if r.newline then "\n" else ""
  {
    Continues(s, c, r.end, Rest(r));
    Continues(s, c + |r.end|, r.trailing, if r.newline then "\n" else "");
  }

  lemma SpelledPieces(r: Written)
    requires WellWritten(r)
    ensures PiecesAre(Spelled(r), PiecesOf(r), r)
  {
    var s, w := Spelled(r), PiecesOf(r);
    FirstPieces(r);
    LastPieces(s, w[2], r);
  }

  lemma PiecesAreRange(s: string, w: seq<nat>, r: Written)
    requires WellWritten(r) && PiecesAre(s, w, r) && w[1] == w[0] + 1 && w[4] == w[3] + 1
    ensures TextAt(s, 0, "npt") && RangeAt(s, 3, w)
  {
    assert forall i | 0 <= i < 3 :: s[i] == s[..3][i];
    assert forall i | 3 <= i < w[0] :: s[i] == s[3..w[0]][i-3];
    assert forall i | w[1] <= i < w[2] :: s[i] == s[w[1]..w[2]][i-w[1]];
    assert forall i | w[2] <= i < w[3] :: s[i] == s[w[2]..w[3]][i-w[2]];
    assert forall i | w[4] <= i < w[5] :: s[i] == s[w[4]..w[5]][i-w[4]];
    assert forall i | w[5] <= i < w[6] :: s[i] == s[w[5]..w[6]][i-w[5]];
    assert s[w[0]] == s[w[0]..w[1]][0] && s[w[3]] == s[w[3]..w[4]][0];
    assert |s[w[6]..]| == |s| - w[6] && (r.newline ==> s[w[6]] == s[w[6]..][0]);
  }

  lemma NumbersAre(s: string, w: seq<nat>, r: Written)
    requires PiecesAre(s, w, r)
    ensures s[w[2]..] == Numbers(r)
  {
    Split(s, w[5], w[6]);
    assert s[w[5]..] == Rest(r);
    Split(s, w[4], w[5]);
    Split(s, w[3], w[4]);
    Split(s, w[2], w[3]);
  }

  lemma SpelledIs(s: string, w: seq<nat>, r: Written)
    requires PiecesAre(s, w, r)
    ensures s == Spelled(r)
  {
    NumbersAre(s, w, r);
    Split(s, w[1], w[2]);
    Split(s, w[0], w[1]);
    assert s[w[0]..] == AfterSpaces(r);
    Split(s, 3, w[0]);
    Split(s, 0, 3);
    assert s[0..3] == s[..3] && s[0..] == s;
  }

  lemma RangeIsWritten(s: string, w: seq<nat>) returns (r: Written)
    requires TextAt(s, 0, "npt") && RangeAt(s, 3, w)
    ensures WellWritten(r) && s == Spelled(r) && r.start == s[w[2]..w[3]] && r.end == s[w[4]..w[5]]
  {
    hide Spelled;
    r := Written(s[3..w[0]], s[w[1]..w[2]], s[w[2]..w[3]], s[w[4]..w[5]], s[w[5]..w[6]], w[6] < |s|);
    PiecesOfRange(s, w, r);
    SpelledIs(s, w, r);
    assert WellWritten(r);
  }

  lemma PiecesOfRange(s: string, w: seq<nat>, r: Written)
    requires TextAt(s, 0, "npt") && RangeAt(s, 3, w)
    requires r == Written(s[3..w[0]], s[w[1]..w[2]], s[w[2]..w[3]], s[w[4]..w[5]], s[w[5]..w[6]], w[6] < |s|)
    ensures PiecesAre(s, w, r)
  {
    assert s[..3] == "npt";
    assert s[w[0]..w[1]] == "=" && s[w[3]..w[4]] == "-";
    assert s[w[6]..] == if r.newline then "\n" else "";
  }

  lemma Split(s: string, a: nat, b: nat)
    requires a <= b <= |s|
    ensures s[a..] == s[a..b] + s[b..]
  {
  }

  /** A range asks for a start and an end, or for a start alone, exactly when it is so written. */
  lemma RangeParsesExactly(text: string, wanted: (nat, Option<nat>))
    ensures ParseRange(text) == Some(wanted) <==> exists r :: WellWritten(r) && text == Spelled(r) && Asked(r) == wanted
  {
    if r :| WellWritten(r) && text == Spelled(r) && Asked(r) == wanted {
      SpelledPieces(r);
      PiecesAreRange(text, PiecesOf(r), r);
      ParseRangeAt(text, PiecesOf(r));
    }
    if ParseRange(text) == Some(wanted) {
      MatchLits("npt", StartAndEnd(), text, 0);
      var w := Match(StartAndEnd(), text, 3).value;
      RangeMatch(text, 3, w);
      ParseRangeAt(text, w);
      var r := RangeIsWritten(text, w);
    }
  }
}
