/** The three line patterns: what each recovers from a printed line, and exactly when.

The dot matches a carriage return, so the greedy last group always keeps the CR that the
printer put before the newline, and the optional CR after it matches nothing.
*/
module Lines {
  import opened Wrappers
  import opened Text
  import Decimal
  import opened Patterns

  // ^(?P<method>[A-Z]+) (?P<url>.+) (?P<version>.+)(\r)?$
  const REQUEST_HEAD: Pattern :=
    [Plus(Between('A', 'Z')), Lit(' '), Plus(AnyButNewline), Lit(' '), Plus(AnyButNewline), Maybe(Only('\r'))]

  // ^(?P<key>.+?) *: *(?P<value>.+)(\r)?$
  const HEADER_LINE: Pattern :=
    [LazyPlus(AnyButNewline), Star(Only(' ')), Lit(':'), Star(Only(' ')), Plus(AnyButNewline), Maybe(Only('\r'))]

  // ^(?P<version>.+) (?P<status>[0-9]+) (?P<status_text>.+)(\r)?$
  const RESPONSE_HEAD: Pattern :=
    [Plus(AnyButNewline), Lit(' '), Plus(Between('0', '9')), Lit(' '), Plus(AnyButNewline), Maybe(Only('\r'))]

  // ----- what the patterns capture -----

  datatype RequestLine = RequestLine(verb: string, url: string, version: string)
  datatype StatusLine = StatusLine(version: string, status: nat, text: string)

  function ParseRequestHead(line: string): Option<RequestLine> {
    MatchIsAWay(REQUEST_HEAD, line, 0);
    match Match(REQUEST_HEAD, line, 0)
    case None => None
    case Some(e) =>
      assert forall k | 0 <= k < 6 :: Fits(REQUEST_HEAD[k], line, Start(0, e, k), e[k]);
      Some(RequestLine(Group(line, e, 0), Group(line, e, 2), Group(line, e, 4)))
  }

  function ParseHeaderLine(line: string): (r: Option<(string, string)>)
    ensures r.Some? ==> line != ""
  {
    MatchIsAWay(HEADER_LINE, line, 0);
    match Match(HEADER_LINE, line, 0)
    case None => None
    case Some(e) =>
      assert forall k | 0 <= k < 6 :: Fits(HEADER_LINE[k], line, Start(0, e, k), e[k]);
      Some((Strip(Group(line, e, 0)), Strip(Group(line, e, 4))))
  }

  function ParseResponseHead(line: string): Option<StatusLine> {
    MatchIsAWay(RESPONSE_HEAD, line, 0);
    match Match(RESPONSE_HEAD, line, 0)
    case None => None
    case Some(e) =>
      assert forall k | 0 <= k < 6 :: Fits(RESPONSE_HEAD[k], line, Start(0, e, k), e[k]);
      Some(StatusLine(Group(line, e, 0), Decimal.Value(Group(line, e, 2)), Group(line, e, 4)))
  }

  // ----- what is printed (without the CR LF) -----

  function RequestHead(verb: string, url: string, version: string): string {
    verb + " " + url + " " + version
  }

  function HeaderLine(key: string, value: string): string {
    key + ":" + value
  }

  function ResponseHead(version: string, status: nat, text: string): string {
    version + " " + Decimal.Digits(status) + " " + text
  }

  // ----- when a printed line comes back -----

  predicate RequestHeadOk(verb: string, url: string, version: string) {
    && verb != "" && (forall i | 0 <= i < |verb| :: 'A' <= verb[i] <= 'Z')
    && url != "" && NoNewline(url)
    && NoNewline(version) && ' ' !in version
  }

  /** Text that survives as a header key. */
  predicate KeyOk(key: string) { key != "" && NoNewline(key) && Trimmed(key) && ':' !in key[1..] }

  /** Text that survives as a header value. */
  predicate ValueOk(t: string) { NoNewline(t) && Trimmed(t) }

  predicate HeaderOk(key: string, value: string) { KeyOk(key) && ValueOk(value) }

  /** A number between spaces, with something after it: it would be taken for the status. */
  ghost predicate HasNumberWord(t: string) {
    exists j, k :: NumberWordAt(t, j, k) && k < |t| - 1
  }

  predicate NumberWordAt(t: string, j: int, k: int) {
    && 0 <= j && j + 1 < k < |t| && t[j] == ' ' && t[k] == ' '
    && forall i | j < i < k :: Decimal.IsDigit(t[i])
  }

  ghost predicate ResponseHeadOk(version: string, text: string) {
    && version != "" && NoNewline(version) && NoNewline(text)
    && !HasNumberWord(" " + text + "\r")
  }

  // ----- proofs -----

  predicate SkipsNewlines(p: Pattern) {
    forall k | 0 <= k < |p| :: !p[k].chars.Has('\n')
  }

  lemma {:induction false} NoNewlineInWay(p: Pattern, s: string, w: seq<nat>, k: nat)
    requires SkipsNewlines(p) && IsWay(p, s, 0, w) && k <= |p|
    ensures Start(0, w, k) <= |s|
    ensures forall i | 0 <= i < Start(0, w, k) :: s[i] != '\n'
  {
    if k > 0 {
      NoNewlineInWay(p, s, w, k - 1);
      assert Fits(p[k-1], s, Start(0, w, k - 1), w[k-1]);
    }
  }

  lemma IsWay6(p: Pattern, s: string, w: seq<nat>)
    requires |p| == 6 == |w|
    ensures IsWay(p, s, 0, w) <==>
      && Fits(p[0], s, 0, w[0]) && Fits(p[1], s, w[0], w[1]) && Fits(p[2], s, w[1], w[2])
      && Fits(p[3], s, w[2], w[3]) && Fits(p[4], s, w[3], w[4]) && Fits(p[5], s, w[4], w[5])
      && AtEnd(s, w[5])
  {
    if Fits(p[0], s, 0, w[0]) && Fits(p[1], s, w[0], w[1]) && Fits(p[2], s, w[1], w[2])
      && Fits(p[3], s, w[2], w[3]) && Fits(p[4], s, w[3], w[4]) && Fits(p[5], s, w[4], w[5])
      && AtEnd(s, w[5]) {
      forall k | 0 <= k < 6 ensures Fits(p[k], s, Start(0, w, k), w[k]) {
        assert k == 0 || k == 1 || k == 2 || k == 3 || k == 4 || k == 5;
      }
    }
    if IsWay(p, s, 0, w) {
      assert Fits(p[0], s, Start(0, w, 0), w[0]);
      assert Fits(p[1], s, Start(0, w, 1), w[1]);
      assert Fits(p[2], s, Start(0, w, 2), w[2]);
      assert Fits(p[3], s, Start(0, w, 3), w[3]);
      assert Fits(p[4], s, Start(0, w, 4), w[4]);
      assert Fits(p[5], s, Start(0, w, 5), w[5]);
    }
  }

  /** The text is this line, with or without the newline that ends it. */
  predicate IsLine(s: string, line: string) { NoNewline(line) && (s == line || s == line + "\n") }

  /** What a pattern of this shape matches is a line, and its last group takes all that is left of it. */
  lemma TakesTheLine(p: Pattern, s: string, e: seq<nat>)
    requires Match(p, s, 0) == Some(e) && |p| == 6 && SkipsNewlines(p)
    requires p[4] == Plus(AnyButNewline) && p[5] == Maybe(Only('\r'))
    ensures |e| == 6 && e[3] < e[4] == e[5] <= |s| && IsLine(s, s[..e[4]])
  {
    MatchExactly(p, s, 0, e);
    NoNewlineInWay(p, s, e, 6);
    IsWay6(p, s, e);
    if e[4] < e[5] {
      var w := e[4 := e[5]];
      assert w[..4] == e[..4] && w[4] > e[4];
      assert TriedBefore(p, w, e);
      IsWay6(p, s, w);
    }
    assert s == s[..e[4]] || s == s[..e[4]] + "\n";
  }

  /** Three texts with a space between each two of them. */
  function Spaced(a: string, b: string, c: string): string { a + " " + b + " " + c }

  lemma SpacedAt(s: string, a: string, b: string, c: string)
    requires IsLine(s, Spaced(a, b, c))
    ensures var m := |a|; var u := m + 1 + |b|; var n := u + 1 + |c|;
      && n <= |s| && AtEnd(s, n) && s[..m] == a && s[m] == ' ' && s[m+1..u] == b && s[u] == ' ' && s[u+1..n] == c
      && s[..n] == Spaced(a, b, c) && (forall i | 0 <= i < n :: s[i] != '\n')
  {
    var m := |a|; var u := m + 1 + |b|; var n := u + 1 + |c|;
    var t := Spaced(a, b, c);
    assert forall i | 0 <= i < n :: s[i] == t[i];
    assert s[..n] == t;
    assert t[..m] == a && t[m] == ' ' && t[m+1..u] == b && t[u] == ' ' && t[u+1..] == c;
    assert s[u+1..n] == t[u+1..] && s[m+1..u] == t[m+1..u] && s[..m] == t[..m];
  }

  lemma SpacedParts(s: string, m: nat, u: nat, n: nat)
    requires m + 1 <= u && u + 1 <= n <= |s| && s[m] == ' ' && s[u] == ' '
    ensures s[..n] == Spaced(s[..m], s[m+1..u], s[u+1..n])
  {
  }

  // ----- request heads -----

  predicate RequestLineOk(line: RequestLine) {
    && line.verb != "" && (forall i | 0 <= i < |line.verb| :: 'A' <= line.verb[i] <= 'Z')
    && line.url != ""
    && line.version != "" && ' ' !in line.version[..|line.version|-1]
  }

  /** For every text: a request line is read with these fields if and only if it spells them and they are well
  formed. */
  lemma RequestHeadParsesExactly(s: string, line: RequestLine)
    ensures ParseRequestHead(s) == Some(line)
       <==> IsLine(s, RequestHead(line.verb, line.url, line.version)) && RequestLineOk(line)
  {
    hide IsLine;
    if ParseRequestHead(s) == Some(line) {
      RequestHeadReadsOnly(s, line, Match(REQUEST_HEAD, s, 0).value);
    }
    if IsLine(s, RequestHead(line.verb, line.url, line.version)) && RequestLineOk(line) {
      RequestHeadReads(s, line);
    }
  }

  lemma RequestHeadGroups(s: string, e: seq<nat>)
    requires Match(REQUEST_HEAD, s, 0) == Some(e) && |e| == 6 && e[0] <= e[1] <= e[2] <= e[3] <= e[4] <= |s|
    ensures ParseRequestHead(s) == Some(RequestLine(s[..e[0]], s[e[1]..e[2]], s[e[3]..e[4]]))
  {
    assert Group(s, e, 0) == s[..e[0]] && Group(s, e, 2) == s[e[1]..e[2]] && Group(s, e, 4) == s[e[3]..e[4]];
  }

  lemma RequestHeadReadsOnly(s: string, line: RequestLine, e: seq<nat>)
    requires Match(REQUEST_HEAD, s, 0) == Some(e) && ParseRequestHead(s) == Some(line)
    ensures IsLine(s, RequestHead(line.verb, line.url, line.version)) && RequestLineOk(line)
  {
    hide ParseRequestHead, IsLine;
    RequestHeadShape(s, e);
    RequestHeadGroups(s, e);
    TakesTheLine(REQUEST_HEAD, s, e);
    SpacedParts(s, e[0], e[2], e[4]);
  }

  /** A head with its two spaces at m and u, and its end at n. */
  predicate RequestHeadAt(s: string, m: nat, u: nat, n: nat) {
    && 0 < m && m + 1 < u && u + 1 < n <= |s| && AtEnd(s, n) && s[m] == s[u] == ' '
    && (forall i | 0 <= i < m :: 'A' <= s[i] <= 'Z')
    && (forall i | 0 <= i < n :: s[i] != '\n')
    && (forall i | u < i < n - 1 :: s[i] != ' ')
  }

  lemma RequestHeadReads(s: string, line: RequestLine)
    requires IsLine(s, RequestHead(line.verb, line.url, line.version)) && RequestLineOk(line)
    ensures ParseRequestHead(s) == Some(line)
  {
    hide ParseRequestHead, IsLine;
    var m := |line.verb|; var u := m + 1 + |line.url|; var n := u + 1 + |line.version|;
    SpacedAt(s, line.verb, line.url, line.version);
    RequestHeadPlaces(s, m, u, n, line);
    RequestHeadCut(s, m, u, n);
    RequestHeadGroups(s, [m, m + 1, u, u + 1, n, n]);
  }

  lemma RequestHeadPlaces(s: string, m: nat, u: nat, n: nat, line: RequestLine)
    requires m + 1 <= u && u + 1 <= n <= |s| && AtEnd(s, n) && s[m] == s[u] == ' '
    requires s[..m] == line.verb && s[m+1..u] == line.url && s[u+1..n] == line.version && RequestLineOk(line)
    requires forall i | 0 <= i < n :: s[i] != '\n'
    ensures RequestHeadAt(s, m, u, n)
  {
    assert forall i | 0 <= i < m :: s[i] == line.verb[i];
    assert forall i | u < i < n - 1 :: s[i] == line.version[..|line.version|-1][i-u-1];
  }

  lemma RequestHeadCut(s: string, m: nat, u: nat, n: nat)
    requires RequestHeadAt(s, m, u, n)
    ensures Match(REQUEST_HEAD, s, 0) == Some([m, m + 1, u, u + 1, n, n])
  {
    hide IsWay, Fits, Match, TriedBefore, IsLine;
    var w := [m, m + 1, u, u + 1, n, n];
    RequestHeadIsWay(s, m, u, n);
    MatchFails(REQUEST_HEAD, s, 0);
    var e := Match(REQUEST_HEAD, s, 0).value;
    RequestHeadShape(s, e);
    TakesTheLine(REQUEST_HEAD, s, e);
    OneLineEnd(s, n, e[4]);
    OneHead(s, m, u, n, e);
    assert e == w;
  }

  lemma RequestHeadIsWay(s: string, m: nat, u: nat, n: nat)
    requires RequestHeadAt(s, m, u, n)
    ensures IsWay(REQUEST_HEAD, s, 0, [m, m + 1, u, u + 1, n, n])
  {
    IsWay6(REQUEST_HEAD, s, [m, m + 1, u, u + 1, n, n]);
  }

  lemma OneHead(s: string, m: nat, u: nat, n: nat, e: seq<nat>)
    requires RequestHeadAt(s, m, u, n) && |e| == 6 && 0 < e[0] < e[1] < e[2] < e[3] < e[4] == n
    requires e[1] == e[0] + 1 && e[3] == e[2] + 1 && s[e[0]] == ' ' && s[e[2]] == ' '
    requires forall i | 0 <= i < e[0] :: 'A' <= s[i] <= 'Z'
    requires forall i | e[3] <= i < e[4] - 1 :: s[i] != ' '
    ensures e[0] == m && e[2] == u
  {
  }

  lemma LineEndsAt(s: string, k: nat)
    requires k <= |s| && IsLine(s, s[..k])
    ensures AtEnd(s, k) && forall i | 0 <= i < k :: s[i] != '\n'
  {
    assert forall i | 0 <= i < k :: s[..k][i] == s[i];
  }

  lemma OneLineEnd(s: string, n: nat, k: nat)
    requires n <= |s| && AtEnd(s, n) && forall i | 0 <= i < n :: s[i] != '\n'
    requires k <= |s| && IsLine(s, s[..k])
    ensures k == n
  {
    LineEndsAt(s, k);
  }

  /** What every match of a request head looks like. */
  lemma RequestHeadShape(s: string, e: seq<nat>)
    requires Match(REQUEST_HEAD, s, 0) == Some(e)
    ensures |e| == 6 && 0 < e[0] < e[1] < e[2] < e[3] < e[4] <= e[5] <= |s|
    ensures e[1] == e[0] + 1 && e[3] == e[2] + 1 && s[e[0]] == ' ' && s[e[2]] == ' '
    ensures forall i | 0 <= i < e[0] :: 'A' <= s[i] <= 'Z'
    ensures forall i | e[1] <= i < e[4] :: s[i] != '\n'
    ensures forall i | e[3] <= i < e[4] - 1 :: s[i] != ' '
    ensures IsWay(REQUEST_HEAD, s, 0, e)
  {
    MatchExactly(REQUEST_HEAD, s, 0, e);
    RequestHeadWay(s, e);
    forall j | e[3] <= j < e[4] - 1 ensures s[j] != ' ' {
      if s[j] == ' ' { RequestHeadLongerUrl(s, e, j); }
    }
  }

  lemma RequestHeadWay(s: string, e: seq<nat>)
    requires IsWay(REQUEST_HEAD, s, 0, e)
    ensures |e| == 6 && 0 < e[0] < e[1] < e[2] < e[3] < e[4] <= e[5] <= |s|
    ensures e[1] == e[0] + 1 && e[3] == e[2] + 1 && s[e[0]] == ' ' && s[e[2]] == ' '
    ensures forall i | 0 <= i < e[0] :: 'A' <= s[i] <= 'Z'
    ensures forall i | e[1] <= i < e[4] :: s[i] != '\n'
  {
    IsWay6(REQUEST_HEAD, s, e);
    NoNewlineInWay(REQUEST_HEAD, s, e, 6);
  }

  /** A space inside the version would have let the url take more. */
  lemma RequestHeadLongerUrl(s: string, e: seq<nat>, j: nat)
    requires IsWay(REQUEST_HEAD, s, 0, e) && e[3] <= j < e[4] - 1 && e[4] <= |s| && s[j] == ' '
    ensures var w := [e[0], e[1], j, j + 1, e[4], e[5]];
      IsWay(REQUEST_HEAD, s, 0, w) && TriedBefore(REQUEST_HEAD, w, e)
  {
    var w := [e[0], e[1], j, j + 1, e[4], e[5]];
    RequestHeadWay(s, e);
    assert w[..2] == e[..2] && w[2] > e[2];
    IsWay6(REQUEST_HEAD, s, e);
    IsWay6(REQUEST_HEAD, s, w);
  }

  /** A printed request head gives back its fields, the version with the CR, exactly when they are well formed. */
  lemma RequestHeadRoundTrip(verb: string, url: string, version: string)
    ensures ParseRequestHead(RequestHead(verb, url, version) + CRLF) == Some(RequestLine(verb, url, version + "\r"))
       <==> RequestHeadOk(verb, url, version)
  {
    var line := RequestLine(verb, url, version + "\r");
    var x := RequestHead(verb, url, version + "\r");
    assert RequestHead(verb, url, version) + CRLF == x + "\n";
    RequestHeadParsesExactly(x + "\n", line);
    assert line.version[..|line.version|-1] == version;
    SpacedIsClean(verb, url, version + "\r");
    assert NoNewline(version + "\r") <==> NoNewline(version) by {
      assert forall i | 0 <= i < |version| :: (version + "\r")[i] == version[i];
    }
  }

  lemma SpacedIsClean(a: string, b: string, c: string)
    ensures NoNewline(Spaced(a, b, c)) <==> NoNewline(a) && NoNewline(b) && NoNewline(c)
  {
    var s := Spaced(a, b, c);
    assert forall i | 0 <= i < |a| :: a[i] == s[i];
    assert forall i | 0 <= i < |b| :: b[i] == s[|a|+1+i];
    assert forall i | 0 <= i < |c| :: c[i] == s[|a|+|b|+2+i];
  }

  // ----- header lines -----

  /** The colon that ends the key: the first one after the first character, with something after it. */
  predicate ColonAt(line: string, c: int) {
    && 1 <= c < |line| - 1 && line[c] == ':'
    && forall i | 1 <= i < c :: line[i] != ':'
  }

  /** For every text: a header line is read as this key and value if and only if these are what is before and after its
  colon, stripped. */
  lemma HeaderLineParsesExactly(s: string, key: string, value: string)
    ensures ParseHeaderLine(s) == Some((key, value)) <==> exists line, c ::
      IsLine(s, line) && ColonAt(line, c) && key == Strip(line[..c]) && value == Strip(line[c+1..])
  {
    hide IsLine, Strip;
    if ParseHeaderLine(s) == Some((key, value)) {
      var e := Match(HEADER_LINE, s, 0).value;
      HeaderLineColon(s, e);
      assert IsLine(s, s[..e[4]]) && ColonAt(s[..e[4]], e[1]);
    }
    if line, c :| IsLine(s, line) && ColonAt(line, c) && key == Strip(line[..c]) && value == Strip(line[c+1..]) {
      HeaderLineReads(s, line, c);
    }
  }

  /** Where the colon of a match is, and what is stripped around it. */
  lemma HeaderLineColon(s: string, e: seq<nat>)
    requires Match(HEADER_LINE, s, 0) == Some(e)
    ensures |e| == 6 && 1 <= e[1] && e[1] + 1 < e[4] <= |s| && IsLine(s, s[..e[4]]) && ColonAt(s[..e[4]], e[1])
    ensures ParseHeaderLine(s) == Some((Strip(s[..e[4]][..e[1]]), Strip(s[..e[4]][e[1]+1..])))
  {
    hide Strip, ParseHeaderLine, IsLine, IsWay, Match, Group, ColonAt;
    HeaderLineShape(s, e);
    TakesTheLine(HEADER_LINE, s, e);
    HeaderLineSpaces(s, e);
    HeaderLineGroups(s, e);
    SpacesStrip(s, e);
    ColonIsFirst(s, e);
  }

  lemma HeaderLineSpaces(s: string, e: seq<nat>)
    requires IsWay(HEADER_LINE, s, 0, e)
    ensures |e| == 6 && e[0] <= e[1] < e[2] <= e[3] <= e[4] <= |s| && e[2] == e[1] + 1 && s[e[1]] == ':'
    ensures forall i | e[0] <= i < e[1] || e[2] <= i < e[3] :: s[i] == ' '
  {
    IsWay6(HEADER_LINE, s, e);
  }

  lemma ColonIsFirst(s: string, e: seq<nat>)
    requires |e| == 6 && 0 < e[0] <= e[1] && e[1] + 1 < e[4] <= |s| && s[e[1]] == ':'
    requires forall i | 1 <= i < e[0] :: s[i] != ':'
    requires forall i | e[0] <= i < e[1] :: s[i] == ' '
    ensures ColonAt(s[..e[4]], e[1])
  {
  }

  lemma SpacesStrip(s: string, e: seq<nat>)
    requires |e| == 6 && e[0] <= e[1] < e[2] <= e[3] <= e[4] <= |s| && e[2] == e[1] + 1
    requires forall i | e[0] <= i < e[1] || e[2] <= i < e[3] :: s[i] == ' '
    ensures Strip(s[..e[4]][..e[1]]) == Strip(s[..e[0]])
    ensures Strip(s[..e[4]][e[1]+1..]) == Strip(s[e[3]..e[4]])
  {
    hide Strip;
    StripPadded("", s[..e[0]], s[e[0]..e[1]]);
    StripPadded(s[e[2]..e[3]], s[e[3]..e[4]], "");
    assert s[..e[4]][..e[1]] == "" + s[..e[0]] + s[e[0]..e[1]];
    assert s[..e[4]][e[1]+1..] == s[e[2]..e[3]] + s[e[3]..e[4]] + "";
  }

  lemma HeaderLineReads(s: string, line: string, c: nat)
    requires IsLine(s, line) && ColonAt(line, c)
    ensures ParseHeaderLine(s) == Some((Strip(line[..c]), Strip(line[c+1..])))
  {
    hide Strip, ParseHeaderLine;
    var n := |line|;
    assert forall i | 0 <= i < n :: s[i] == line[i];
    var w := [c, c, c + 1, c + 1, n, n];
    assert IsWay(HEADER_LINE, s, 0, w) by { IsWay6(HEADER_LINE, s, w); }
    MatchFails(HEADER_LINE, s, 0);
    var e := Match(HEADER_LINE, s, 0).value;
    HeaderLineColon(s, e);
    OneLineEnd(s, n, e[4]);
    assert s[..n] == line;
  }

  /** A printed header line gives back its key and value exactly when they are well formed. */
  lemma HeaderLineRoundTrip(key: string, value: string)
    ensures ParseHeaderLine(HeaderLine(key, value) + CRLF) == Some((key, value)) <==> HeaderOk(key, value)
  {
    if HeaderOk(key, value) {
      HeaderLineIf(key, value);
    }
    if ParseHeaderLine(HeaderLine(key, value) + CRLF) == Some((key, value)) {
      HeaderLineOnlyIf(key, value);
    }
  }

  lemma HeaderLineIf(key: string, value: string)
    requires HeaderOk(key, value)
    ensures ParseHeaderLine(HeaderLine(key, value) + CRLF) == Some((key, value))
  {
    hide Strip;
    var line := HeaderLine(key, value + "\r");
    assert HeaderLine(key, value) + CRLF == line + "\n";
    assert forall i | 0 <= i < |key| :: line[i] == key[i];
    assert forall i | 1 <= i < |key| :: line[i] == key[1..][i-1];
    assert forall i | |key| < i < |line| :: line[i] == (value + "\r")[i-|key|-1];
    HeaderLineReads(line + "\n", line, |key|);
    assert line[..|key|] == key && line[|key|+1..] == value + "\r";
    StripAround(key, 0, |key|);
    assert key[0..|key|] == key;
    ValueStrips(value);
  }

  lemma ValueStrips(value: string)
    requires Trimmed(value)
    ensures Strip(value + "\r") == value
  {
    var v := value + "\r";
    StripAround(v, 0, |value|);
    assert v[0..|value|] == value;
  }

  lemma HeaderLineGroups(s: string, e: seq<nat>)
    requires Match(HEADER_LINE, s, 0) == Some(e) && |e| == 6 && e[0] <= |s| && e[3] <= e[4] <= |s|
    ensures ParseHeaderLine(s) == Some((Strip(s[..e[0]]), Strip(s[e[3]..e[4]])))
  {
    assert Group(s, e, 0) == s[..e[0]] && Group(s, e, 4) == s[e[3]..e[4]];
  }

  /** What every match of a header line looks like. */
  lemma HeaderLineShape(s: string, e: seq<nat>)
    requires Match(HEADER_LINE, s, 0) == Some(e)
    ensures |e| == 6 && 0 < e[0] <= e[1] < e[2] <= e[3] < e[4] <= e[5] <= |s|
    ensures forall i | 0 <= i < e[4] :: s[i] != '\n'
    ensures forall i | 1 <= i < e[0] :: s[i] != ':'
    ensures IsWay(HEADER_LINE, s, 0, e)
  {
    MatchExactly(HEADER_LINE, s, 0, e);
    HeaderLineWay(s, e);
    forall j | 1 <= j < e[0] ensures s[j] != ':' {
      if s[j] == ':' { HeaderLineShorterKey(s, e, j); }
    }
  }

  lemma HeaderLineWay(s: string, e: seq<nat>)
    requires IsWay(HEADER_LINE, s, 0, e)
    ensures |e| == 6 && 0 < e[0] <= e[1] < e[2] <= e[3] < e[4] <= e[5] <= |s|
    ensures forall i | 0 <= i < e[4] :: s[i] != '\n'
  {
    IsWay6(HEADER_LINE, s, e);
    NoNewlineInWay(HEADER_LINE, s, e, 6);
  }

  /** A colon inside the key would have let the key take less. */
  lemma HeaderLineShorterKey(s: string, e: seq<nat>, j: nat)
    requires IsWay(HEADER_LINE, s, 0, e) && 1 <= j < e[0] <= |s| && s[j] == ':'
    ensures var w := [j, j, j + 1, j + 1, e[4], e[5]];
      IsWay(HEADER_LINE, s, 0, w) && TriedBefore(HEADER_LINE, w, e)
  {
    var w := [j, j, j + 1, j + 1, e[4], e[5]];
    HeaderLineWay(s, e);
    assert w[..0] == e[..0] && w[0] < e[0];
    IsWay6(HEADER_LINE, s, e);
    IsWay6(HEADER_LINE, s, w);
  }

  /** Whatever a header line holds, what is captured from it is trimmed and has no newline. */
  lemma CapturedIsClean(line: string, key: string, value: string)
    requires ParseHeaderLine(line) == Some((key, value))
    ensures Trimmed(key) && Trimmed(value)
    ensures NoNewline(key)
    ensures NoNewline(value)
  {
    var e := CapturedCut(line, key, value);
    StripTrims(line[..e[0]]);
    StripTrims(line[e[3]..e[4]]);
  }

  lemma CapturedCut(line: string, key: string, value: string) returns (e: seq<nat>)
    requires ParseHeaderLine(line) == Some((key, value))
    ensures |e| == 6 && 0 < e[0] <= e[3] < e[4] <= |line|
    ensures key == Strip(line[..e[0]]) && value == Strip(line[e[3]..e[4]])
    ensures NoNewline(line[..e[0]])
    ensures NoNewline(line[e[3]..e[4]])
    ensures forall i | 1 <= i < e[0] :: line[i] != ':'
  {
    e := Match(HEADER_LINE, line, 0).value;
    HeaderLineShape(line, e);
    HeaderLineGroups(line, e);
    NoNewlineSlice(line, 0, e[0]);
    NoNewlineSlice(line, e[3], e[4]);
    assert line[0..e[0]] == line[..e[0]];
  }

  lemma KeyShape(s: string, k: nat, key: string)
    requires 0 < k <= |s| && key == Strip(s[..k])
    ensures |key| <= k && (key == "" ==> s[0] != ':')
  {
    StripTrims(s[..k]);
    assert s[..k][0] == s[0];
  }

  lemma HeaderLineOnlyIf(key: string, value: string)
    requires ParseHeaderLine(HeaderLine(key, value) + CRLF) == Some((key, value))
    ensures HeaderOk(key, value)
  {
    var s := HeaderLine(key, value) + CRLF;
    CapturedIsClean(s, key, value);
    var e := CapturedCut(s, key, value);
    assert key == "" ==> s[0] == ':';
    KeyShape(s, e[0], key);
    forall i | 0 <= i < |key| - 1 ensures key[1..][i] != ':' {
      assert key[1..][i] == key[i+1] == s[i+1];
    }
  }

  // ----- response heads -----

  /** The line spells these fields, the number in any digits, and no number between spaces comes later, but at the
  very end. */
  ghost predicate SpellsStatusLine(t: string, line: StatusLine) {
    && line.version != "" && line.text != "" && !HasNumberWord(" " + line.text)
    && exists digits ::
      && Decimal.IsNumeral(digits) && Decimal.Value(digits) == line.status
      && t == Spaced(line.version, digits, line.text)
  }

  /** For every text: a status line is read with these fields if and only if it spells them. */
  lemma ResponseHeadParsesExactly(s: string, line: StatusLine)
    ensures ParseResponseHead(s) == Some(line) <==> exists t :: IsLine(s, t) && SpellsStatusLine(t, line)
  {
    hide IsLine, HasNumberWord;
    if ParseResponseHead(s) == Some(line) {
      ResponseHeadReadsOnly(s, line, Match(RESPONSE_HEAD, s, 0).value);
    }
    if t :| IsLine(s, t) && SpellsStatusLine(t, line) {
      var digits :|
        && Decimal.IsNumeral(digits) && Decimal.Value(digits) == line.status
        && t == Spaced(line.version, digits, line.text);
      ResponseHeadReads(s, line, digits);
    }
  }

  lemma ResponseHeadReadsOnly(s: string, line: StatusLine, e: seq<nat>)
    requires Match(RESPONSE_HEAD, s, 0) == Some(e) && ParseResponseHead(s) == Some(line)
    ensures line.version != "" && line.text != "" && !HasNumberWord(" " + line.text)
    ensures |e| == 6 && e[1] < e[2] <= |s|
    ensures var digits := s[e[1]..e[2]];
      && Decimal.IsNumeral(digits) && Decimal.Value(digits) == line.status
      && IsLine(s, Spaced(line.version, digits, line.text))
  {
    hide ParseResponseHead, IsLine, HasNumberWord, NumberWordAt, IsWay, Match, Decimal.Value, Spaced;
    ResponseHeadShape(s, e);
    LastNumber(s, e);
    DigitsBetween(s, e[1], e[2]);
    ResponseHeadGroups(s, e);
    TakesTheLine(RESPONSE_HEAD, s, e);
    SpacedParts(s, e[0], e[2], e[4]);
  }

  lemma LastNumber(s: string, e: seq<nat>)
    requires Match(RESPONSE_HEAD, s, 0) == Some(e)
    ensures |e| == 6 && e[3] == e[2] + 1 < e[4] <= |s| && !HasNumberWord(" " + s[e[3]..e[4]])
  {
    hide HasNumberWord, IsWay, Match;
    ResponseHeadShape(s, e);
    NoLaterNumber(s, e[2], e[4]);
  }

  lemma DigitsBetween(s: string, a: nat, b: nat)
    requires a < b <= |s| && forall i | a <= i < b :: Decimal.IsDigit(s[i])
    ensures Decimal.IsNumeral(s[a..b])
  {
  }

  lemma NoLaterNumber(s: string, d: nat, n: nat)
    requires d + 1 < n <= |s| && s[d] == ' '
    ensures !HasNumberWord(" " + s[d+1..n]) <==> forall j, k | d <= j && k < n - 1 :: !NumberWordAt(s, j, k)
  {
    hide HasNumberWord;
    NumberWordsIn(s, d, n);
    assert s[d..n] == " " + s[d+1..n];
  }

  lemma ResponseHeadReads(s: string, line: StatusLine, digits: string)
    requires line.version != "" && line.text != "" && !HasNumberWord(" " + line.text)
    requires Decimal.IsNumeral(digits) && Decimal.Value(digits) == line.status
    requires IsLine(s, Spaced(line.version, digits, line.text))
    ensures ParseResponseHead(s) == Some(line)
  {
    hide ParseResponseHead, IsLine, HasNumberWord, NumberWordAt, IsWay, Match, Decimal.Value, Spaced;
    var v := |line.version|; var d := v + 1 + |digits|; var n := d + 1 + |line.text|;
    SpacedAt(s, line.version, digits, line.text);
    assert forall i | v < i < d :: s[i] == digits[i-v-1];
    NoLaterNumber(s, d, n);
    ResponseHeadCut(s, v, d, n);
    ResponseHeadGroups(s, [v, v + 1, d, d + 1, n, n]);
  }

  /** The head "version status text" cut at v, d and n, with no later number word. */
  ghost predicate ResponseHeadAt(s: string, v: nat, d: nat, n: nat) {
    && 0 < v && v + 1 < d && d + 1 < n <= |s| && AtEnd(s, n) && s[v] == s[d] == ' '
    && (forall i | v < i < d :: Decimal.IsDigit(s[i]))
    && (forall i | 0 <= i < n :: s[i] != '\n')
    && (forall j, k | d <= j && k < n - 1 :: !NumberWordAt(s, j, k))
  }

  lemma ResponseHeadCut(s: string, v: nat, d: nat, n: nat)
    requires ResponseHeadAt(s, v, d, n)
    ensures Match(RESPONSE_HEAD, s, 0) == Some([v, v + 1, d, d + 1, n, n])
  {
    hide IsWay, Fits, Match, TriedBefore, IsLine;
    var w := [v, v + 1, d, d + 1, n, n];
    ResponseHeadIsWay(s, v, d, n);
    MatchFails(RESPONSE_HEAD, s, 0);
    var e := Match(RESPONSE_HEAD, s, 0).value;
    ResponseHeadShape(s, e);
    TakesTheLine(RESPONSE_HEAD, s, e);
    OneLineEnd(s, n, e[4]);
    assert NumberWordAt(s, v, d) && NumberWordAt(s, e[0], e[2]);
    OneNumberWord(s, v, d, e[0], e[2], n);
    assert e == w;
  }

  lemma ResponseHeadIsWay(s: string, v: nat, d: nat, n: nat)
    requires ResponseHeadAt(s, v, d, n)
    ensures IsWay(RESPONSE_HEAD, s, 0, [v, v + 1, d, d + 1, n, n])
  {
    hide NumberWordAt;
    IsWay6(RESPONSE_HEAD, s, [v, v + 1, d, d + 1, n, n]);
  }

  /** There is only one last number word. */
  lemma OneNumberWord(s: string, v: nat, d: nat, a: nat, b: nat, n: nat)
    requires n <= |s| && d < n - 1 && b < n - 1 && NumberWordAt(s, v, d) && NumberWordAt(s, a, b)
    requires forall j, k | d <= j && k < n - 1 :: !NumberWordAt(s, j, k)
    requires forall j, k | b <= j && k < n - 1 :: !NumberWordAt(s, j, k)
    ensures v == a && d == b
  {
    assert a < d && v < b;
    assert !Decimal.IsDigit(s[v]) && !Decimal.IsDigit(s[a]) && !Decimal.IsDigit(s[d]) && !Decimal.IsDigit(s[b]);
  }

  lemma ResponseHeadGroups(s: string, e: seq<nat>)
    requires Match(RESPONSE_HEAD, s, 0) == Some(e)
    requires |e| == 6 && e[0] <= e[1] <= e[2] <= e[3] <= e[4] <= |s| && Decimal.AllDigits(s[e[1]..e[2]])
    ensures ParseResponseHead(s) == Some(StatusLine(s[..e[0]], Decimal.Value(s[e[1]..e[2]]), s[e[3]..e[4]]))
  {
    assert Group(s, e, 0) == s[..e[0]] && Group(s, e, 2) == s[e[1]..e[2]] && Group(s, e, 4) == s[e[3]..e[4]];
  }

  /** What every match of a response head looks like. */
  lemma ResponseHeadShape(s: string, e: seq<nat>)
    requires Match(RESPONSE_HEAD, s, 0) == Some(e)
    ensures |e| == 6 && 0 < e[0] < e[1] < e[2] < e[3] < e[4] <= e[5] <= |s|
    ensures e[1] == e[0] + 1 && e[3] == e[2] + 1 && s[e[0]] == ' ' && s[e[2]] == ' '
    ensures forall i | e[1] <= i < e[2] :: '0' <= s[i] <= '9'
    ensures forall i | 0 <= i < e[4] :: s[i] != '\n'
    ensures forall j, k | e[2] <= j && k < e[4] - 1 :: !NumberWordAt(s, j, k)
    ensures IsWay(RESPONSE_HEAD, s, 0, e)
  {
    MatchExactly(RESPONSE_HEAD, s, 0, e);
    ResponseHeadWay(s, e);
    forall j, k | e[2] <= j && k < e[4] - 1 ensures !NumberWordAt(s, j, k) {
      if NumberWordAt(s, j, k) { ResponseHeadLongerVersion(s, e, j, k); }
    }
  }

  lemma ResponseHeadWay(s: string, e: seq<nat>)
    requires IsWay(RESPONSE_HEAD, s, 0, e)
    ensures |e| == 6 && 0 < e[0] < e[1] < e[2] < e[3] < e[4] <= e[5] <= |s|
    ensures e[1] == e[0] + 1 && e[3] == e[2] + 1 && s[e[0]] == ' ' && s[e[2]] == ' '
    ensures forall i | e[1] <= i < e[2] :: '0' <= s[i] <= '9'
    ensures forall i | 0 <= i < e[4] :: s[i] != '\n'
  {
    IsWay6(RESPONSE_HEAD, s, e);
    NoNewlineInWay(RESPONSE_HEAD, s, e, 6);
  }

  /** A number word inside the text would have let the version take more. */
  lemma ResponseHeadLongerVersion(s: string, e: seq<nat>, j: nat, k: nat)
    requires IsWay(RESPONSE_HEAD, s, 0, e) && e[2] <= j && k < e[4] - 1 && NumberWordAt(s, j, k)
    ensures var w := [j, j + 1, k, k + 1, e[4], e[5]];
      IsWay(RESPONSE_HEAD, s, 0, w) && TriedBefore(RESPONSE_HEAD, w, e)
  {
    var w := [j, j + 1, k, k + 1, e[4], e[5]];
    ResponseHeadWay(s, e);
    LongerVersionIsWay(s, e, j, k);
    LongerVersionFirst(e, w);
  }

  lemma LongerVersionIsWay(s: string, e: seq<nat>, j: nat, k: nat)
    requires |e| == 6 && IsWay(RESPONSE_HEAD, s, 0, e) && 0 < e[2] <= j < k < e[4] - 1 && e[4] <= |s|
    requires NumberWordAt(s, j, k) && forall i | 0 <= i < e[4] :: s[i] != '\n'
    ensures IsWay(RESPONSE_HEAD, s, 0, [j, j + 1, k, k + 1, e[4], e[5]])
  {
    IsWay6(RESPONSE_HEAD, s, e);
    IsWay6(RESPONSE_HEAD, s, [j, j + 1, k, k + 1, e[4], e[5]]);
  }

  lemma LongerVersionFirst(e: seq<nat>, w: seq<nat>)
    requires |e| == |w| == 6 && w[0] > e[0]
    ensures TriedBefore(RESPONSE_HEAD, w, e)
  {
    assert w[..0] == e[..0];
  }

  /** The number words of a piece of text, by position. */
  lemma NumberWordsIn(s: string, d: nat, n: nat)
    requires d < n <= |s|
    ensures HasNumberWord(s[d..n]) <==> exists j, k | d <= j && k < n - 1 :: NumberWordAt(s, j, k)
  {
    var t := s[d..n];
    if j, k :| NumberWordAt(t, j, k) && k < |t| - 1 {
      assert forall i | j < i < k :: s[d+i] == t[i];
      assert forall i | d + j < i < d + k :: s[i] == t[i-d];
      assert NumberWordAt(s, d + j, d + k);
    }
    if j, k :| d <= j && k < n - 1 && NumberWordAt(s, j, k) {
      assert NumberWordAt(t, j - d, k - d);
    }
  }

  /** A printed response head gives back its fields, the text with the CR, exactly when they are well formed. */
  lemma ResponseHeadRoundTrip(version: string, status: nat, text: string)
    ensures ParseResponseHead(ResponseHead(version, status, text) + CRLF)
         == Some(StatusLine(version, status, text + "\r"))
       <==> ResponseHeadOk(version, text)
  {
    hide HasNumberWord, IsLine, Decimal.Value, ParseResponseHead;
    var line := StatusLine(version, status, text + "\r");
    var s := ResponseHead(version, status, text) + CRLF;
    ResponseHeadParsesExactly(s, line);
    ResponseLineClean(version, status, text);
    Decimal.ValueOfDigits(status);
    assert " " + line.text == " " + text + "\r";
    if ParseResponseHead(s) == Some(line) {
      CapturedResponseClean(s, version, status, text);
    }
  }

  lemma ResponseLineClean(version: string, status: nat, text: string)
    ensures NoNewline(version) && NoNewline(text) ==>
      IsLine(ResponseHead(version, status, text) + CRLF, Spaced(version, Decimal.Digits(status), text + "\r"))
  {
    var d := Decimal.Digits(status);
    SpacedIsClean(version, d, text + "\r");
    assert forall i | 0 <= i < |d| :: Decimal.IsDigit(d[i]);
    assert ResponseHead(version, status, text) + CRLF == Spaced(version, d, text + "\r") + "\n";
  }

  lemma CapturedResponseClean(line: string, version: string, status: nat, text: string)
    requires ParseResponseHead(line) == Some(StatusLine(version, status, text + "\r"))
    ensures NoNewline(version) && NoNewline(text)
  {
    var e := Match(RESPONSE_HEAD, line, 0).value;
    ResponseHeadShape(line, e);
    NoNewlineSlice(line, 0, e[0]);
    NoNewlineSlice(line, e[3], e[4]);
    assert forall i | 0 <= i < |text| :: text[i] == line[e[3]..e[4]][i];
  }
}
