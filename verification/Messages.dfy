/** Requests and responses: how they are printed, how they are read back, and exactly when
a stream of them comes back as it was sent. */
module Messages {
  import opened Wrappers
  import opened Text
  import opened Headers
  import opened Lines
  import Decimal
  import Patterns

  const VERSION := "0.5"

  datatype Request = Request(verb: string, url: string, version: string, headers: HeaderMap, body: string)

  datatype Response = Response(version: string, status: nat, text: string, headers: HeaderMap, body: string)

  // ----- printing -----

  /** The header lines joined by CR LF, with none after the last. */
  function JoinHeaders(h: HeaderMap): string {
    if h == [] then ""
    else HeaderLine(h[0].0, h[0].1) + if |h| == 1 then "" else CRLF + JoinHeaders(h[1..])
  }

  function PrintHead(first: string, h: HeaderMap): string {
    first + CRLF + (JoinHeaders(h) + CRLF + CRLF)
  }

  function PrintRequest(r: Request): string {
    PrintHead(RequestHead(r.verb, r.url, r.version), r.headers) + r.body
  }

  function PrintResponse(r: Response): string {
    PrintHead(ResponseHead(r.version, r.status, r.text), r.headers) + r.body
  }

  // ----- reading -----

  /** Header lines are folded into a map up to the first line that is not one; that line is consumed. */
  function ParseHeaders(input: string, acc: HeaderMap): (HeaderMap, string)
    decreases |input|
  {
    var n := LineEnd(input);
    match ParseHeaderLine(input[..n])
    case None => (acc, input[n..])
    case Some(kv) => ParseHeaders(input[n..], Put(acc, kv.0, kv.1))
  }

  /** The request that is read, or None for an invalid head, and the unread input. */
  function ParseRequest(input: string): (Option<Request>, string) {
    var n := LineEnd(input);
    match ParseRequestHead(input[..n])
    case None => (None, input[n..])
    case Some(line) =>
      var (h, rest) := ParseHeaders(input[n..], []);
      (Some(Request(line.verb, line.url, line.version, h, "")), rest)
  }

  /** The body length a response announces; -1 when it announces none. */
  function ContentLength(h: HeaderMap): Option<int> {
    match Find(h, "Content-Length")
    case None => Some(-1)
    case Some(text) => Decimal.Parse(text)
  }

  /** A response whose body is still in the stream, with the announced length. */
  datatype Pending = Pending(head: Response, limit: int)

  function ParseResponse(input: string): (Option<Pending>, string) {
    var n := LineEnd(input);
    match ParseResponseHead(input[..n])
    case None => (None, input[n..])
    case Some(line) =>
      var (h, rest) := ParseHeaders(input[n..], []);
      match ContentLength(h)
      case None => (None, rest)
      case Some(limit) => (Some(Pending(Response(line.version, line.status, line.text, h, ""), limit)), rest)
  }

  /** Reading a whole body with the announced length; a length below -1 raises an error. */
  function ReadBody(limit: int, input: string): Option<(string, string)> {
    if limit == -1 then Some(("", input))
    else if limit < 0 then None
    else if limit <= |input| then Some((input[..limit], input[limit..]))
    else Some((input, ""))
  }

  // ----- when a message comes back -----

  predicate EachHeaderOk(h: HeaderMap) {
    h == [] || (HeaderOk(h[0].0, h[0].1) && EachHeaderOk(h[1..]))
  }

  predicate HeadersOk(h: HeaderMap) { h != [] && EachHeaderOk(h) }

  predicate RequestOk(r: Request) {
    RequestHeadOk(r.verb, r.url, r.version) && HeadersOk(r.headers)
  }

  ghost predicate ResponseOk(r: Response) {
    ResponseHeadOk(r.version, r.text) && HeadersOk(r.headers) && ContentLength(r.headers).Some?
  }

  /** What the reader of a request gets: the version keeps the CR, the body is left unread. */
  function Received(r: Request): Request {
    r.(version := r.version + "\r", body := "")
  }

  function ReceivedHead(r: Response): Response {
    r.(text := r.text + "\r", body := "")
  }

  /** The announced length is the length of the body. */
  predicate Framed(r: Response) {
    ContentLength(r.headers) == Some(|r.body|) || (r.body == "" && ContentLength(r.headers) == Some(-1))
  }

  // ----- header blocks -----

  /** The header lines and the blank line after them. */
  function HeaderBlock(h: HeaderMap): string {
    if h == [] then CRLF else HeaderLine(h[0].0, h[0].1) + CRLF + HeaderBlock(h[1..])
  }

  lemma {:induction false} JoinIsBlock(h: HeaderMap)
    ensures h != [] ==> JoinHeaders(h) + CRLF + CRLF == HeaderBlock(h)
  {
    if |h| > 1 {
      JoinIsBlock(h[1..]);
      var x := HeaderLine(h[0].0, h[0].1);
      assert JoinHeaders(h) + CRLF + CRLF == x + CRLF + (JoinHeaders(h[1..]) + CRLF + CRLF);
    }
  }

  lemma BlankLineStops()
    ensures ParseHeaderLine(CRLF) == None
  {
    assert CRLF[1] == '\n';
    if e: seq<nat> :| Patterns.Match(HEADER_LINE, CRLF, 0) == Some(e) {
      HeaderLineShape(CRLF, e);
    }
  }

  /** One line of a block, split off by position. */
  lemma FirstHeaderLine(h: HeaderMap, rest: string)
    requires h != [] && NoNewline(h[0].0) && NoNewline(h[0].1)
    ensures var input := HeaderBlock(h) + rest; var n := LineEnd(input);
      input[..n] == HeaderLine(h[0].0, h[0].1) + CRLF && input[n..] == HeaderBlock(h[1..]) + rest
  {
    var x := HeaderLine(h[0].0, h[0].1);
    assert HeaderBlock(h) + rest == x + CRLF + (HeaderBlock(h[1..]) + rest);
    LineEndAt(x, HeaderBlock(h[1..]) + rest);
  }

  lemma BlankLine(rest: string)
    ensures var input := CRLF + rest; var n := LineEnd(input); input[..n] == CRLF && input[n..] == rest
  {
    assert "" + CRLF + rest == CRLF + rest;
    LineEndAt("", rest);
    assert "" + CRLF == CRLF;
  }

  lemma {:induction false} BlockReads(h: HeaderMap, acc: HeaderMap, rest: string)
    requires EachHeaderOk(h)
    ensures ParseHeaders(HeaderBlock(h) + rest, acc) == (PutAll(acc, h), rest)
    decreases |h|
  {
    if h == [] {
      BlankLine(rest);
      BlankLineStops();
    } else {
      FirstHeaderLine(h, rest);
      HeaderLineRoundTrip(h[0].0, h[0].1);
      BlockReads(h[1..], Put(acc, h[0].0, h[0].1), rest);
    }
  }

  predicate Clean(h: HeaderMap) {
    forall i | 0 <= i < |h| :: NoNewline(h[i].0) && NoNewline(h[i].1)
  }

  lemma {:induction false} PutClean(h: HeaderMap, key: string, value: string)
    requires Clean(h) && NoNewline(key) && NoNewline(value)
    ensures Clean(Put(h, key, value))
  {
    if h != [] && h[0].0 != key { PutClean(h[1..], key, value); }
  }

  /** Nothing captured from the input holds a newline. */
  lemma {:induction false} ParsedIsClean(input: string, acc: HeaderMap)
    requires Clean(acc)
    ensures Clean(ParseHeaders(input, acc).0)
    decreases |input|
  {
    var n := LineEnd(input);
    match ParseHeaderLine(input[..n])
    case None =>
    case Some(kv) =>
      CapturedIsClean(input[..n], kv.0, kv.1);
      PutClean(acc, kv.0, kv.1);
      ParsedIsClean(input[n..], Put(acc, kv.0, kv.1));
  }

  /** A block of n lines yields at most n entries; if it yields n, no entry was overwritten. */
  lemma {:induction false} BlockLength(h: HeaderMap, acc: HeaderMap, rest: string)
    requires Clean(h)
    ensures var r := ParseHeaders(HeaderBlock(h) + rest, acc).0;
      |r| <= |acc| + |h| && (|r| == |acc| + |h| ==> r[..|acc|] == acc)
    decreases |h|
  {
    if h == [] {
      BlankLine(rest);
      BlankLineStops();
    } else {
      FirstHeaderLine(h, rest);
      match ParseHeaderLine(HeaderLine(h[0].0, h[0].1) + CRLF)
      case None =>
      case Some(kv) =>
        PutPlace(acc, kv.0, kv.1);
        BlockLength(h[1..], Put(acc, kv.0, kv.1), rest);
        var r := ParseHeaders(HeaderBlock(h) + rest, acc).0;
        if |r| == |acc| + |h| { assert r[..|acc|] == r[..|acc|+1][..|acc|]; }
    }
  }

  lemma {:induction false} BlockOnlyIf(h: HeaderMap, acc: HeaderMap, rest: string)
    requires Clean(h) && ParseHeaders(HeaderBlock(h) + rest, acc).0 == acc + h
    ensures EachHeaderOk(h)
    decreases |h|
  {
    if h != [] {
      BlockStep(h, acc, rest);
      BlockOnlyIf(h[1..], acc + [h[0]], rest);
    }
  }

  lemma BlockStep(h: HeaderMap, acc: HeaderMap, rest: string)
    requires h != [] && Clean(h) && ParseHeaders(HeaderBlock(h) + rest, acc).0 == acc + h
    ensures HeaderOk(h[0].0, h[0].1)
    ensures ParseHeaders(HeaderBlock(h[1..]) + rest, acc + [h[0]]).0 == acc + [h[0]] + h[1..]
  {
    FirstHeaderLine(h, rest);
    assert acc + [h[0]] + h[1..] == acc + h;
    assert acc + h != acc by { assert |acc + h| > |acc|; }
    var kv := ParseHeaderLine(HeaderLine(h[0].0, h[0].1) + CRLF).value;
    FirstEntry(h, acc, kv, rest);
    assert HeaderOk(h[0].0, h[0].1) by { HeaderLineRoundTrip(h[0].0, h[0].1); }
  }

  /** When a block of n lines yields n new entries, its first line yielded the first of them. */
  lemma FirstEntry(h: HeaderMap, acc: HeaderMap, kv: Header, rest: string)
    requires h != [] && Clean(h)
    requires ParseHeaders(HeaderBlock(h[1..]) + rest, Put(acc, kv.0, kv.1)).0 == acc + h
    ensures kv == h[0] && Put(acc, kv.0, kv.1) == acc + [h[0]]
  {
    PutPlace(acc, kv.0, kv.1);
    BlockLength(h[1..], Put(acc, kv.0, kv.1), rest);
    assert |acc + h| == |acc| + 1 + |h[1..]|;
    assert acc + [kv] == (acc + h)[..|acc|+1];
    assert (acc + [kv])[|acc|] == (acc + h)[|acc|];
  }

  lemma HeadersIf(h: HeaderMap, rest: string)
    requires IsDict(h) && HeadersOk(h)
    ensures ParseHeaders(JoinHeaders(h) + CRLF + CRLF + rest, []) == (h, rest)
  {
    JoinIsBlock(h);
    BlockReads(h, [], rest);
    assert [] + h == h;
    PutAllRebuilds([], h);
  }

  lemma HeadersOnlyIf(h: HeaderMap, rest: string)
    requires h != [] && ParseHeaders(JoinHeaders(h) + CRLF + CRLF + rest, []).0 == h
    ensures HeadersOk(h)
  {
    JoinIsBlock(h);
    ParsedIsClean(HeaderBlock(h) + rest, []);
    assert [] + h == h;
    BlockOnlyIf(h, [], rest);
  }

  /** Printed headers are read back, leaving the rest, exactly when there is one and all are well formed. */
  lemma HeadersRoundTrip(h: HeaderMap, rest: string)
    requires IsDict(h)
    ensures ParseHeaders(JoinHeaders(h) + CRLF + CRLF + rest, []) == (h, rest) <==> HeadersOk(h)
  {
    if h == [] {
      EmptyHeadersLeaveABlankLine(rest);
      assert |CRLF + rest| == 2 + |rest|;
    } else if HeadersOk(h) {
      HeadersIf(h, rest);
    } else if ParseHeaders(JoinHeaders(h) + CRLF + CRLF + rest, []) == (h, rest) {
      HeadersOnlyIf(h, rest);
    }
  }

  /** With no header at all, one of the two blank lines is left unread. */
  lemma EmptyHeadersLeaveABlankLine(rest: string)
    ensures ParseHeaders(JoinHeaders([]) + CRLF + CRLF + rest, []) == ([], CRLF + rest)
  {
    assert JoinHeaders([]) + CRLF + CRLF + rest == CRLF + (CRLF + rest);
    BlankLine(CRLF + rest);
    BlankLineStops();
  }

  // ----- whole messages -----

  lemma HeadSplits(first: string, h: HeaderMap, rest: string)
    requires NoNewline(first)
    ensures var input := PrintHead(first, h) + rest; var n := LineEnd(input);
      input[..n] == first + CRLF && input[n..] == JoinHeaders(h) + CRLF + CRLF + rest
  {
    var tail := JoinHeaders(h) + CRLF + CRLF;
    assert PrintHead(first, h) + rest == first + CRLF + (tail + rest);
    LineEndAt(first, tail + rest);
  }

  lemma CapturedRequestClean(line: string, verb: string, url: string, version: string)
    requires ParseRequestHead(line) == Some(RequestLine(verb, url, version + "\r"))
    ensures NoNewline(verb) && NoNewline(url) && NoNewline(version)
  {
    var e := Patterns.Match(REQUEST_HEAD, line, 0).value;
    RequestHeadShape(line, e);
    NoNewlineSlice(line, 0, e[0]);
    NoNewlineSlice(line, e[1], e[2]);
    NoNewlineSlice(line, e[3], e[4]);
    assert forall i | 0 <= i < |version| :: version[i] == line[e[3]..e[4]][i];
  }

  lemma RequestHeadNoNewline(verb: string, url: string, version: string)
    requires NoNewline(verb) && NoNewline(url) && NoNewline(version)
    ensures NoNewline(RequestHead(verb, url, version))
  {
  }

  /** A printed request is read back, leaving exactly its body and what follows, exactly when it is well formed. */
  lemma RequestRoundTrip(r: Request, rest: string)
    requires IsDict(r.headers)
    ensures ParseRequest(PrintRequest(r) + rest) == (Some(Received(r)), r.body + rest) <==> RequestOk(r)
  {
    var first := RequestHead(r.verb, r.url, r.version);
    var input := PrintRequest(r) + rest;
    assert input == PrintHead(first, r.headers) + (r.body + rest);
    if RequestOk(r) || ParseRequest(input) == (Some(Received(r)), r.body + rest) {
      if !RequestOk(r) {
        CapturedRequestClean(input[..LineEnd(input)], r.verb, r.url, r.version);
      }
      RequestHeadNoNewline(r.verb, r.url, r.version);
      HeadSplits(first, r.headers, r.body + rest);
      RequestHeadRoundTrip(r.verb, r.url, r.version);
      HeadersRoundTrip(r.headers, r.body + rest);
    }
  }

  lemma ResponseHeadNoNewline(version: string, status: nat, text: string)
    requires NoNewline(version) && NoNewline(text)
    ensures NoNewline(ResponseHead(version, status, text))
  {
    var d := Decimal.Digits(status);
    assert forall i | 0 <= i < |d| :: Decimal.IsDigit(d[i]);
  }

  /** A printed response is read back, leaving exactly its body and what follows, exactly when it is well formed. */
  lemma ResponseRoundTrip(r: Response, rest: string)
    requires IsDict(r.headers)
    ensures (exists limit ::
        ParseResponse(PrintResponse(r) + rest) == (Some(Pending(ReceivedHead(r), limit)), r.body + rest))
      <==> ResponseOk(r)
    ensures ResponseOk(r) ==>
      ParseResponse(PrintResponse(r) + rest)
      == (Some(Pending(ReceivedHead(r), ContentLength(r.headers).value)), r.body + rest)
  {
    var first := ResponseHead(r.version, r.status, r.text);
    var input := PrintResponse(r) + rest;
    assert input == PrintHead(first, r.headers) + (r.body + rest);
    var back := exists limit :: ParseResponse(input) == (Some(Pending(ReceivedHead(r), limit)), r.body + rest);
    if ResponseOk(r) || back {
      if !ResponseOk(r) {
        CapturedResponseClean(input[..LineEnd(input)], r.version, r.status, r.text);
      }
      ResponseHeadNoNewline(r.version, r.status, r.text);
      HeadSplits(first, r.headers, r.body + rest);
      ResponseHeadRoundTrip(r.version, r.status, r.text);
      HeadersRoundTrip(r.headers, r.body + rest);
    }
  }

  /** The body comes out whole, whatever follows it, exactly when the announced length is right. */
  lemma FramingExact(r: Response)
    requires ContentLength(r.headers).Some?
    ensures (forall rest: string :: ReadBody(ContentLength(r.headers).value, r.body + rest) == Some((r.body, rest)))
       <==> Framed(r)
  {
    var limit := ContentLength(r.headers).value;
    if Framed(r) {
      forall rest: string ensures ReadBody(limit, r.body + rest) == Some((r.body, rest)) {
        assert (r.body + rest)[..|r.body|] == r.body && (r.body + rest)[|r.body|..] == rest;
      }
    } else if limit >= 0 && limit > |r.body| {
      var rest := seq(limit, i => 'x');
      assert |(r.body + rest)[..limit]| != |r.body|;
      assert ReadBody(limit, r.body + rest) != Some((r.body, rest));
    } else {
      assert ReadBody(limit, r.body + "") != Some((r.body, ""));
    }
  }

  /** A message printed without any header leaves a blank line, and the next read fails on it. */
  lemma EmptyHeadersBreakTheStream(r: Response, next: string)
    requires r.headers == [] && r.body == "" && ResponseHeadOk(r.version, r.text)
    ensures ParseResponse(PrintResponse(r) + next) == (Some(Pending(ReceivedHead(r), -1)), CRLF + next)
    ensures ParseResponse(CRLF + next) == (None, next)
    ensures ParseRequest(CRLF + next) == (None, next)
  {
    var first := ResponseHead(r.version, r.status, r.text);
    assert PrintResponse(r) + next == PrintHead(first, []) + next;
    ResponseHeadNoNewline(r.version, r.status, r.text);
    HeadSplits(first, [], next);
    ResponseHeadRoundTrip(r.version, r.status, r.text);
    EmptyHeadersLeaveABlankLine(next);
    BlankLine(next);
    BlankLineIsNoHead();
  }

  lemma BlankLineIsNoHead()
    ensures ParseRequestHead(CRLF) == None && ParseResponseHead(CRLF) == None
  {
    assert |CRLF| == 2;
    if e: seq<nat> :| Patterns.Match(REQUEST_HEAD, CRLF, 0) == Some(e) {
      RequestHeadShape(CRLF, e);
    }
    if e: seq<nat> :| Patterns.Match(RESPONSE_HEAD, CRLF, 0) == Some(e) {
      ResponseHeadShape(CRLF, e);
    }
  }

  // ----- any line, well formed or not -----

  /** Whatever the next line is: with a colon it is an entry, stripped; without one it ends the headers and is taken. */
  lemma NextHeaderLine(x: string, rest: string, acc: HeaderMap)
    requires NoNewline(x)
    ensures forall c | ColonAt(x + "\r", c) ::
      ParseHeaders(x + CRLF + rest, acc) == ParseHeaders(rest, Put(acc, Strip(x[..c]), Strip(x[c+1..])))
    ensures (forall c :: !ColonAt(x + "\r", c)) ==> ParseHeaders(x + CRLF + rest, acc) == (acc, rest)
  {
    hide Strip, ParseHeaderLine;
    LineEndAt(x, rest);
    LineWithReturn(x);
    var parsed := ParseHeaderLine(x + CRLF);
    forall c | ColonAt(x + "\r", c) ensures 0 <= c < |x| && parsed == Some((Strip(x[..c]), Strip(x[c+1..]))) {
      HeaderLineReads(x + CRLF, x + "\r", c);
      ReturnStrips(x, c);
    }
    if parsed.Some? {
      HeaderLineParsesExactly(x + CRLF, parsed.value.0, parsed.value.1);
      var line, c :| IsLine(x + CRLF, line) && ColonAt(line, c);
      OneLine(x, line);
    }
  }

  lemma LineWithReturn(x: string)
    requires NoNewline(x)
    ensures IsLine(x + CRLF, x + "\r")
  {
    assert x + CRLF == x + "\r" + "\n";
    assert forall i | 0 <= i < |x| :: (x + "\r")[i] == x[i];
  }

  lemma OneLine(x: string, line: string)
    requires NoNewline(x) && IsLine(x + CRLF, line)
    ensures line == x + "\r"
  {
    assert (x + CRLF)[|x|+1] == '\n';
    assert line + "\n" == x + CRLF ==> line == (x + CRLF)[..|line|];
  }

  lemma ReturnStrips(x: string, c: nat)
    requires ColonAt(x + "\r", c)
    ensures c < |x| && (x + "\r")[..c] == x[..c] && Strip((x + "\r")[c+1..]) == Strip(x[c+1..])
  {
    StripPadded("", x[c+1..], "\r");
    assert (x + "\r")[c+1..] == "" + x[c+1..] + "\r";
  }

  /** Whatever the first line is: a request line of the right form starts a request; any other is taken, and is an
  error. */
  lemma AnyRequest(x: string, rest: string)
    requires NoNewline(x)
    ensures var (h, left) := ParseHeaders(rest, []); var read := ParseRequest(x + CRLF + rest);
      && (forall r: RequestLine | x + "\r" == RequestHead(r.verb, r.url, r.version) && RequestLineOk(r) ::
            read == (Some(Request(r.verb, r.url, r.version, h, "")), left))
      && ((forall r: RequestLine | x + "\r" == RequestHead(r.verb, r.url, r.version) :: !RequestLineOk(r)) ==>
            read == (None, rest))
  {
    hide RequestLineOk, RequestHead, ParseRequestHead, ParseHeaders;
    LineEndAt(x, rest);
    LineWithReturn(x);
    var parsed := ParseRequestHead(x + CRLF);
    forall r: RequestLine | x + "\r" == RequestHead(r.verb, r.url, r.version) && RequestLineOk(r)
      ensures parsed == Some(r)
    {
      RequestHeadParsesExactly(x + CRLF, r);
    }
    if parsed.Some? {
      RequestHeadParsesExactly(x + CRLF, parsed.value);
      OneLine(x, RequestHead(parsed.value.verb, parsed.value.url, parsed.value.version));
    }
  }

  /** What a status line and the headers after it make of a response. */
  ghost predicate Starts(r: StatusLine, h: HeaderMap, p: Option<Pending>) {
    var length := Find(h, "Content-Length");
    && (p.Some? <==> length.None? || exists n :: Decimal.Spells(length.value, n))
    && (p.Some? ==>
          && p.value.head == Response(r.version, r.status, r.text, h, "")
          && if length.None? then p.value.limit == -1 else Decimal.Spells(length.value, p.value.limit))
  }

  /** The same for responses, whose Content-Length has to be a number if there is one. */
  lemma AnyResponse(x: string, rest: string)
    requires NoNewline(x)
    ensures var (h, left) := ParseHeaders(rest, []); var read := ParseResponse(x + CRLF + rest);
      && (forall r | SpellsStatusLine(x + "\r", r) :: read.1 == left && Starts(r, h, read.0))
      && ((forall r :: !SpellsStatusLine(x + "\r", r)) ==> read == (None, rest))
  {
    hide SpellsStatusLine, ParseResponseHead, ParseHeaders, Decimal.Spells, Decimal.Parse;
    LineEndAt(x, rest);
    var parsed := ParseResponseHead(x + CRLF);
    forall r | SpellsStatusLine(x + "\r", r) ensures parsed == Some(r) {
      StatusLineReads(x, r);
    }
    if parsed.Some? {
      StatusLineReads(x, parsed.value);
    }
    var length := Find(ParseHeaders(rest, []).0, "Content-Length");
    if length.Some? {
      forall n ensures Decimal.Parse(length.value) == Some(n) <==> Decimal.Spells(length.value, n) {
        Decimal.ParsesExactly(length.value, n);
      }
    }
  }

  lemma StatusLineReads(x: string, r: StatusLine)
    requires NoNewline(x)
    ensures ParseResponseHead(x + CRLF) == Some(r) <==> SpellsStatusLine(x + "\r", r)
  {
    hide ParseResponseHead, HasNumberWord, Decimal.Value, Spaced;
    LineWithReturn(x);
    ResponseHeadParsesExactly(x + CRLF, r);
    forall line | IsLine(x + CRLF, line) ensures line == x + "\r" { OneLine(x, line); }
  }

  // ----- streams of messages -----

  function PrintRequests(rs: seq<Request>): string {
    if rs == [] then "" else PrintRequest(rs[0]) + PrintRequests(rs[1..])
  }

  /** n requests read one after the other, or None if a head is invalid. */
  function ParseRequests(n: nat, input: string): Option<(seq<Request>, string)> {
    if n == 0 then Some(([], input))
    else
      match ParseRequest(input)
      case (None, rest) => None
      case (Some(r), rest) =>
        match ParseRequests(n - 1, rest)
        case None => None
        case Some((rs, end)) => Some(([r] + rs, end))
  }

  function ReceivedAll(rs: seq<Request>): seq<Request> {
    if rs == [] then [] else [Received(rs[0])] + ReceivedAll(rs[1..])
  }

  ghost predicate SendableRequests(rs: seq<Request>) {
    forall r | r in rs :: IsDict(r.headers) && RequestOk(r) && r.body == ""
  }

  /** Requests printed back to back are all read back, in order, and nothing else is consumed. */
  lemma {:induction false} RequestStream(rs: seq<Request>, tail: string)
    requires SendableRequests(rs)
    ensures ParseRequests(|rs|, PrintRequests(rs) + tail) == Some((ReceivedAll(rs), tail))
  {
    if rs == [] {
      assert PrintRequests(rs) + tail == tail;
    } else {
      var more := PrintRequests(rs[1..]) + tail;
      assert PrintRequests(rs) + tail == PrintRequest(rs[0]) + more;
      assert "" + more == more;
      RequestRoundTrip(rs[0], more);
      RequestStream(rs[1..], tail);
    }
  }

  function PrintResponses(rs: seq<Response>): string {
    if rs == [] then "" else PrintResponse(rs[0]) + PrintResponses(rs[1..])
  }

  /** n responses, each followed by reading its whole body. */
  function ParseResponses(n: nat, input: string): Option<(seq<Response>, string)> {
    if n == 0 then Some(([], input))
    else
      match ParseResponse(input)
      case (None, _) => None
      case (Some(p), rest) =>
        match ReadBody(p.limit, rest)
        case None => None
        case Some((body, rest')) =>
          match ParseResponses(n - 1, rest')
          case None => None
          case Some((rs, end)) => Some(([p.head.(body := body)] + rs, end))
  }

  function ReceivedResponse(r: Response): Response { r.(text := r.text + "\r") }

  function ReceivedResponses(rs: seq<Response>): seq<Response> {
    if rs == [] then [] else [ReceivedResponse(rs[0])] + ReceivedResponses(rs[1..])
  }

  ghost predicate Sendable(r: Response) { IsDict(r.headers) && ResponseOk(r) && Framed(r) }

  lemma OneResponse(r: Response, n: nat, more: string)
    requires Sendable(r)
    ensures ParseResponses(n + 1, PrintResponse(r) + more)
         == var back := ParseResponses(n, more);
            if back.None? then None else Some(([ReceivedResponse(r)] + back.value.0, back.value.1))
  {
    ResponseRoundTrip(r, more);
    FramingExact(r);
  }

  /** Responses with bodies, read alternately head and body, are all recovered, ending at the next message. */
  lemma {:induction false} ResponseStream(rs: seq<Response>, tail: string)
    requires forall r | r in rs :: Sendable(r)
    ensures ParseResponses(|rs|, PrintResponses(rs) + tail) == Some((ReceivedResponses(rs), tail))
  {
    if rs == [] {
      assert PrintResponses(rs) + tail == tail;
    } else {
      var more := PrintResponses(rs[1..]) + tail;
      assert PrintResponses(rs) + tail == PrintResponse(rs[0]) + more;
      OneResponse(rs[0], |rs| - 1, more);
      ResponseStream(rs[1..], tail);
    }
  }
}
