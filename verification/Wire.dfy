/** The dialogue as bytes: what the client prints is what the server reads, and the other way round. */
module Wire {
  import opened Wrappers
  import opened Text
  import opened Headers
  import opened Lines
  import opened Messages
  import opened Ranges
  import opened Sessions
  import opened Server
  import opened Dialogue
  import Client
  import Decimal

  // ----- the client's requests -----

  lemma DigitsAreValue(n: nat)
    ensures ValueOk(Decimal.Digits(n))
  {
    var d := Decimal.Digits(n);
    assert Decimal.IsDigit(d[0]) && Decimal.IsDigit(d[|d|-1]);
    assert forall i | 0 <= i < |d| :: Decimal.IsDigit(d[i]);
  }

  /** One more header in front. */
  lemma InFront(key: string, value: string, rest: HeaderMap)
    requires KeyOk(key) && ValueOk(value) && !Has(rest, key) && IsDict(rest) && EachHeaderOk(rest)
    ensures var h := [(key, value)] + rest; IsDict(h) && EachHeaderOk(h)
    ensures forall k :: Find([(key, value)] + rest, k) == if k == key then Some(value) else Find(rest, k)
  {
    assert ([(key, value)] + rest)[1..] == rest;
  }

  predicate IsWord(key: string) {
    key != "" && forall i | 0 <= i < |key| :: 'A' <= key[i] <= 'Z' || 'a' <= key[i] <= 'z' || key[i] == '-'
  }

  lemma WordIsKey(key: string)
    requires IsWord(key)
    ensures KeyOk(key)
  {
    assert forall i | 0 <= i < |key| - 1 :: key[1..][i] == key[i+1];
  }

  lemma KeysAreOk()
    ensures KeyOk("CSeq") && KeyOk("Transport") && KeyOk("Authorization") && KeyOk("Session") && KeyOk("Range")
  {
    WordIsKey("CSeq");
    WordIsKey("Transport");
    WordIsKey("Authorization");
    WordIsKey("Session");
    WordIsKey("Range");
  }

  lemma LengthKeysAreOk()
    ensures KeyOk("Content-Length") && KeyOk("Content-Range")
  {
    WordIsKey("Content-Length");
    WordIsKey("Content-Range");
  }

  lemma RangesKeysAreOk()
    ensures KeyOk("Accept-Ranges") && KeyOk("Connection")
  {
    WordIsKey("Accept-Ranges");
    WordIsKey("Connection");
  }

  lemma ReplyKeysAreOk()
    ensures KeyOk("Content-Length") && KeyOk("Content-Range") && KeyOk("Accept-Ranges") && KeyOk("Connection")
  {
    LengthKeysAreOk();
    RangesKeysAreOk();
  }

  lemma KeysDiffer()
    ensures "CSeq" != "Transport" && "CSeq" != "Authorization" && "Transport" != "Authorization"
    ensures "CSeq" != "Session" && "CSeq" != "Range" && "Session" != "Range" && "Session" != "Transport"
  {
    assert |"CSeq"| == 4 && |"Transport"| == 9 && |"Authorization"| == 13 && |"Session"| == 7 && |"Range"| == 5;
  }

  predicate UrlOk(url: string) { url != "" && NoNewline(url) }

  lemma VerbsOk(url: string)
    requires UrlOk(url)
    ensures RequestHeadOk("SETUP", url, VERSION) && RequestHeadOk("PLAY", url, VERSION)
    ensures RequestHeadOk("TEARDOWN", url, VERSION)
  {
  }

  /** Optional text: absent, empty, or fit for a header value after its prefix. */
  predicate OptionalOk(prefix: string, text: Option<string>) {
    text.Some? && text.value != "" ==> ValueOk(prefix + text.value)
  }

  lemma OptionalHeader(name: string, prefix: string, text: Option<string>)
    requires KeyOk(name) && OptionalOk(prefix, text)
    ensures var h := Client.Optional(name, prefix, text);
      IsDict(h) && EachHeaderOk(h)
      && forall k ::
           Find(h, k) == if text.Some? && text.value != "" && k == name then Some(prefix + text.value) else None
  {
    if text.Some? && text.value != "" {
      InFront(name, prefix + text.value, []);
      assert [(name, prefix + text.value)] + [] == Client.Optional(name, prefix, text);
    }
  }

  /** CSeq, then one fixed header, then perhaps an optional one. */
  lemma ThreeHeaders(cseq: nat, key: string, value: string, rest: HeaderMap)
    requires KeyOk(key) && ValueOk(value) && key != "CSeq" && IsDict(rest) && EachHeaderOk(rest)
    requires !Has(rest, key) && !Has(rest, "CSeq")
    ensures var h := Client.Numbered(cseq) + [(key, value)] + rest;
      && IsDict(h) && HeadersOk(h)
      && forall k | k != "CSeq" :: Find(h, k) == if k == key then Some(value) else Find(rest, k)
  {
    var h := Client.Numbered(cseq) + [(key, value)] + rest;
    var h1 := [(key, value)] + rest;
    assert h == [("CSeq", Decimal.Digits(cseq))] + h1;
    DigitsAreValue(cseq);
    KeysAreOk();
    InFront(key, value, rest);
    InFront("CSeq", Decimal.Digits(cseq), h1);
  }

  /** The request carries this number. */
  predicate NumberIs(r: Request, cseq: nat) {
    var text := Find(r.headers, "CSeq"); text.Some? && Decimal.Parse(text.value) == Some(cseq)
  }

  /** Every request of the client carries the number it was made with. */
  lemma RequestsAreNumbered(cseq: nat, url: string, auth: Option<string>, session: string, range: Option<string>)
    ensures NumberIs(Client.SetupRequest(cseq, url, auth), cseq)
    ensures NumberIs(Client.PlayRequest(cseq, url, session, range), cseq)
    ensures NumberIs(Client.TeardownRequest(cseq, url, session), cseq)
    ensures NumberIs(Client.OptionsRequest(cseq, url), cseq)
  {
    Decimal.ParsePrint(cseq);
    var text := Decimal.Print(cseq);
    assert Client.SetupRequest(cseq, url, auth).headers[0] == ("CSeq", text);
    assert Client.PlayRequest(cseq, url, session, range).headers[0] == ("CSeq", text);
    assert Client.TeardownRequest(cseq, url, session).headers[0] == ("CSeq", text);
    assert Client.OptionsRequest(cseq, url).headers[0] == ("CSeq", text);
  }

  /** A printed OPTIONS of the client is read back by the server as it is. */
  lemma OptionsPrints(cseq: nat, url: string, tail: string)
    requires UrlOk(url)
    ensures var r := Client.OptionsRequest(cseq, url);
      && r.verb == "OPTIONS" && r.url == url && r.version == "0.5" && r.body == ""
      && ParseRequest(PrintRequest(r) + tail) == (Some(Received(r)), tail)
  {
    var r := Client.OptionsRequest(cseq, url);
    KeysAreOk();
    DigitsAreValue(cseq);
    InFront("CSeq", Decimal.Digits(cseq), []);
    assert r.headers == [("CSeq", Decimal.Digits(cseq))] + [];
    assert "" + tail == tail;
    RequestRoundTrip(r, tail);
  }

  /** A printed SETUP of the client is read back by the server with the same headers. */
  lemma SetupPrints(cseq: nat, url: string, auth: Option<string>)
    requires UrlOk(url) && OptionalOk("Bearer ", auth)
    ensures var r := Client.SetupRequest(cseq, url, auth);
      && IsDict(r.headers) && RequestOk(r) && Find(r.headers, "Transport") == Some("TCP")
      && Find(r.headers, "Authorization")
         == (if auth.Some? && auth.value != "" then Some("Bearer " + auth.value) else None)
      && r.verb == "SETUP" && r.url == url && r.version == "0.5" && r.body == ""
  {
    KeysAreOk();
    KeysDiffer();
    VerbsOk(url);
    OptionalHeader("Authorization", "Bearer ", auth);
    ThreeHeaders(cseq, "Transport", "TCP", Client.Optional("Authorization", "Bearer ", auth));
  }

  lemma PlayPrints(cseq: nat, url: string, session: string, range: Option<string>)
    requires UrlOk(url) && ValueOk(session) && OptionalOk("", range)
    ensures var r := Client.PlayRequest(cseq, url, session, range);
      && IsDict(r.headers) && RequestOk(r) && Find(r.headers, "Session") == Some(session)
      && Find(r.headers, "Range") == (if range.Some? && range.value != "" then Some(range.value) else None)
      && r.verb == "PLAY" && r.url == url && r.version == "0.5" && r.body == ""
  {
    KeysAreOk();
    KeysDiffer();
    VerbsOk(url);
    OptionalHeader("Range", "", range);
    if range.Some? { assert "" + range.value == range.value; }
    ThreeHeaders(cseq, "Session", session, Client.Optional("Range", "", range));
  }

  lemma TeardownPrints(cseq: nat, url: string, session: string)
    requires UrlOk(url) && ValueOk(session)
    ensures var r := Client.TeardownRequest(cseq, url, session);
      && IsDict(r.headers) && RequestOk(r) && Find(r.headers, "Session") == Some(session)
      && r.verb == "TEARDOWN" && r.url == url && r.version == "0.5" && r.body == ""
  {
    KeysAreOk();
    KeysDiffer();
    VerbsOk(url);
    ThreeHeaders(cseq, "Session", session, []);
    assert Client.Numbered(cseq) + [("Session", session)] + [] == Client.Numbered(cseq) + [("Session", session)];
  }

  function UrlFor(host: string, name: string): string { "diantp://" + host + "/" + name }

  /** The key goes through the gate. */
  predicate KeyFits(gate: Gate, key: Option<string>) {
    && OptionalOk("Bearer ", key)
    && (gate.Locked? ==> key.Some? && key.value != "" && key.value in gate.keys)
  }

  /** The client's requests, as the server reads them, are a well-behaved dialogue. */
  lemma ClientSetupIsGood(world: World, gate: Gate, cseq: nat, host: string, name: string, key: Option<string>)
    requires UrlOk(UrlFor(host, name)) && NamesFile(UrlFor(host, name), host, name)
    requires name in world.files && KeyFits(gate, key)
    ensures var r := Received(Client.SetupRequest(cseq, UrlFor(host, name), key));
      GoodSetup(world, gate, r) && FileFor(world, r) == world.files[name]
  {
    hide FileOf;
    SetupPrints(cseq, UrlFor(host, name), key);
    FileOfExactly(UrlFor(host, name), name);
    if gate.Locked? {
      var i :| 0 <= i < |gate.keys| && gate.keys[i] == key.value;
      assert Keys(gate.keys)[i] == "Bearer " + key.value;
    }
  }

  lemma ClientPlayIsGood(world: World, cseq: nat, url: string, id: Id, file: string, range: Option<string>)
    requires UrlOk(url) && ValueOk(world.idText(id)) && OptionalOk("", range) && InRange(file, range)
    ensures GoodPlay(world, id, file, Received(Client.PlayRequest(cseq, url, world.idText(id), range)))
  {
    PlayPrints(cseq, url, world.idText(id), range);
  }

  lemma ClientTeardownIsGood(world: World, cseq: nat, url: string, id: Id)
    requires UrlOk(url) && ValueOk(world.idText(id))
    ensures GoodTeardown(world, id, Received(Client.TeardownRequest(cseq, url, world.idText(id))))
  {
    TeardownPrints(cseq, url, world.idText(id));
  }

  // ----- the server's replies -----

  lemma NoDigitsNoNumberWord(text: string)
    requires forall i | 0 <= i < |text| :: !Decimal.IsDigit(text[i])
    ensures !HasNumberWord(" " + text + "\r")
  {
    var t := " " + text + "\r";
    assert forall i | 0 < i < |t| - 1 :: t[i] == text[i-1];
    assert t[|t|-1] == '\r';
    assert forall i | 0 <= i < |t| :: !Decimal.IsDigit(t[i]);
    forall j, k ensures !NumberWordAt(t, j, k) {
      if 0 <= j && j + 1 < k < |t| { assert !Decimal.IsDigit(t[j+1]); }
    }
  }

  lemma ReplyHeadsOk()
    ensures ResponseHeadOk(VERSION, "OK") && ResponseHeadOk(VERSION, "Partial Content")
  {
    NoDigitsNoNumberWord("OK");
    NoDigitsNoNumberWord("Partial Content");
  }

  lemma {:induction false} FindOk(h: HeaderMap, key: string)
    requires EachHeaderOk(h)
    ensures Find(h, key).Some? ==> ValueOk(Find(h, key).value)
  {
    if h != [] { FindOk(h[1..], key); }
  }

  lemma {:induction false} PutOk(h: HeaderMap, key: string, value: string)
    requires EachHeaderOk(h) && KeyOk(key) && ValueOk(value)
    ensures EachHeaderOk(Put(h, key, value)) && Put(h, key, value) != []
  {
    if h != [] {
      assert Put(h, key, value)[1..] == if h[0].0 == key then h[1..] else Put(h[1..], key, value);
      if h[0].0 != key { PutOk(h[1..], key, value); }
    } else {
      assert Put(h, key, value)[1..] == [];
    }
  }

  /** Text that starts with "bytes" and ends with a number. */
  lemma BytesValue(middle: string, n: nat)
    requires NoNewline(middle)
    ensures ValueOk("bytes" + middle + Decimal.Digits(n))
  {
    DigitsAreValue(n);
    var d := Decimal.Digits(n);
    var v := "bytes" + middle + d;
    assert v[0] == 'b' && v[|v|-1] == d[|d|-1];
    assert Decimal.IsDigit(d[|d|-1]);
    var m := 5 + |middle|;
    assert forall i | 0 <= i < |v| :: v[i] == if i < 5 then "bytes"[i] else if i < m then middle[i-5] else d[i-m];
  }

  lemma PrintedIsClean(n: int)
    ensures NoNewline(Decimal.Print(n)) && Trimmed(Decimal.Print(n))
  {
    if n < 0 {
      DigitsAreValue(-n);
      var d := Decimal.Digits(-n);
      assert Decimal.Print(n)[|d|] == d[|d|-1];
      assert Decimal.IsDigit(d[|d|-1]);
    } else {
      DigitsAreValue(n);
    }
  }

  /** The values that a reply to PLAY computes. */
  lemma WholeRangeOk(size: nat)
    ensures ValueOk("bytes=0-" + Decimal.Digits(size))
  {
    BytesValue("=0-", size);
    assert "bytes=0-" == "bytes" + "=0-";
  }

  lemma RangeOk(start: nat, last: nat)
    ensures ValueOk("bytes=" + Decimal.Digits(start) + "-" + Decimal.Digits(last))
  {
    DigitsAreValue(start);
    var a, d := Decimal.Digits(start), Decimal.Digits(last);
    BytesValue("=" + a + "-", last);
    assert "bytes=" == "bytes" + "=";
    assert "bytes=" + a + "-" + d == "bytes" + ("=" + a + "-") + d;
  }

  lemma ContentRangeOk(a: string, b: string, size: nat)
    requires NoNewline(a) && NoNewline(b)
    ensures ValueOk("bytes " + a + "-" + b + "/" + Decimal.Digits(size))
  {
    var d := Decimal.Digits(size);
    BytesValue(" " + a + "-" + b + "/", size);
    assert "bytes " == "bytes" + " ";
    assert "bytes " + a + "-" + b + "/" + d == "bytes" + (" " + a + "-" + b + "/") + d;
  }

  lemma WholeContentRangeOk(size: nat)
    ensures ValueOk("bytes 0-" + Decimal.Print(size - 1) + "/" + Decimal.Digits(size))
  {
    PrintedIsClean(size - 1);
    assert "bytes 0-" == "bytes " + "0" + "-";
    ContentRangeOk("0", Decimal.Print(size - 1), size);
  }

  lemma ConstantValuesOk()
    ensures ValueOk("bytes") && ValueOk("keep-alive")
  {
  }

  lemma WholeHeadersOk(h: HeaderMap, size: nat)
    requires EachHeaderOk(h)
    ensures HeadersOk(WholeHeaders(h, size))
  {
    WholeRangeOk(size);
    WholeContentRangeOk(size);
    DigitsAreValue(size);
    KeysAreOk();
    ReplyKeysAreOk();
    ConstantValuesOk();
    var h1 := Put(h, "Range", "bytes=0-" + Decimal.Digits(size));
    var h2 := Put(h1, "Content-Length", Decimal.Digits(size));
    var h3 := Put(h2, "Content-Range", "bytes 0-" + Decimal.Print(size - 1) + "/" + Decimal.Digits(size));
    var h4 := Put(h3, "Accept-Ranges", "bytes");
    PutOk(h, "Range", "bytes=0-" + Decimal.Digits(size));
    PutOk(h1, "Content-Length", Decimal.Digits(size));
    PutOk(h2, "Content-Range", "bytes 0-" + Decimal.Print(size - 1) + "/" + Decimal.Digits(size));
    PutOk(h3, "Accept-Ranges", "bytes");
    PutOk(h4, "Connection", "keep-alive");
  }

  lemma ReplyKeysDiffer()
    ensures "Range" != "Content-Length" && "Range" != "Content-Range"
    ensures "Range" != "Accept-Ranges" && "Range" != "Connection"
    ensures "Content-Length" != "Content-Range" && "Content-Length" != "Accept-Ranges"
    ensures "Content-Length" != "Connection"
    ensures "Content-Range" != "Accept-Ranges" && "Content-Range" != "Connection" && "Accept-Ranges" != "Connection"
  {
    assert |"Range"| == 5 && |"Content-Length"| == 14 && |"Connection"| == 10;
    assert |"Content-Range"| == 13 && |"Accept-Ranges"| == 13;
    assert "Content-Range"[0] != "Accept-Ranges"[0];
  }

  lemma RangeHeadersOk(start: nat, last: nat, size: nat)
    ensures HeadersOk(RangeHeaders(start, last, size)) && IsDict(RangeHeaders(start, last, size))
  {
    var range := "bytes=" + Decimal.Digits(start) + "-" + Decimal.Digits(last);
    var length := Decimal.Print(last - start + 1);
    var place := "bytes " + Decimal.Digits(start) + "-" + Decimal.Digits(last) + "/" + Decimal.Digits(size);
    RangeOk(start, last);
    PrintedIsClean(last - start + 1);
    DigitsAreValue(start);
    DigitsAreValue(last);
    ContentRangeOk(Decimal.Digits(start), Decimal.Digits(last), size);
    FiveHeadersOk(range, length, place);
    assert RangeHeaders(start, last, size) == FiveHeaders(range, length, place);
  }

  function FiveHeaders(range: string, length: string, place: string): HeaderMap {
    [("Range", range)] + ([("Content-Length", length)] + ([("Content-Range", place)]
      + ([("Accept-Ranges", "bytes")] + ([("Connection", "keep-alive")] + []))))
  }

  lemma FiveHeadersOk(range: string, length: string, place: string)
    requires ValueOk(range) && ValueOk(length) && ValueOk(place)
    ensures HeadersOk(FiveHeaders(range, length, place)) && IsDict(FiveHeaders(range, length, place))
  {
    KeysAreOk();
    ReplyKeysAreOk();
    ReplyKeysDiffer();
    ConstantValuesOk();
    var h1 := [("Connection", "keep-alive")] + [];
    InFront("Connection", "keep-alive", []);
    var h2 := [("Accept-Ranges", "bytes")] + h1;
    InFront("Accept-Ranges", "bytes", h1);
    var h3 := [("Content-Range", place)] + h2;
    InFront("Content-Range", place, h2);
    var h4 := [("Content-Length", length)] + h3;
    InFront("Content-Length", length, h3);
    InFront("Range", range, h4);
  }

  // ----- the dialogue on the wire -----

  /** The names and the file of a dialogue can be written down. */
  ghost predicate Writable(world: World, id: Id, asked: seq<Request>) {
    ValueOk(world.idText(id)) && (asked != [] ==> IsDict(asked[0].headers) && EachHeaderOk(asked[0].headers))
  }

  lemma SetupReplySendable(world: World, id: Id, transport: string)
    requires ValueOk(world.idText(id)) && ValueOk(transport)
    ensures Sendable(SetupReply(world, id, transport))
  {
    var text := world.idText(id);
    KeysAreOk();
    KeysDiffer();
    ReplyHeadsOk();
    InFront("Transport", transport, []);
    InFront("Session", text, [("Transport", transport)] + []);
    var h := [("Session", text)] + ([("Transport", transport)] + []);
    assert SetupReply(world, id, transport).headers == h;
    assert |"Content-Length"| == 14 && |"Session"| == 7 && |"Transport"| == 9;
    assert Find(h, "Content-Length") == None;
  }

  lemma PlayReplySendable(h: HeaderMap, file: string, range: Option<string>)
    requires InRange(file, range) && IsDict(h) && EachHeaderOk(h)
    ensures var reply := PlayReply(h, file, range); reply.Some? && Sendable(reply.value)
  {
    ReplyHeadsOk();
    if PlaysWhole(range) {
      WholeExact(h, file);
      WholeHeadersOk(h, |file|);
      WholeHeadersDict(h, |file|);
    } else {
      var (start, end) := ParseRange(range.value).value;
      RangeExact(start, end.value, file);
      RangeHeadersOk(start, end.value, |file|);
    }
  }

  predicate IsTeardown(r: Request) { r.verb == "TEARDOWN" }

  /** Every reply of a dialogue but the last comes back from its print, framed. */
  lemma ReplySendable(world: World, gate: Gate, id: Id, asked: seq<Request>, i: nat)
    requires Script(world, gate, id, asked) && Writable(world, id, asked) && i < |asked| && !IsTeardown(asked[i])
    ensures Sendable(ReplyTo(world, id, asked, i))
  {
    if i == 0 {
      FindOk(asked[0].headers, "Transport");
      SetupReplySendable(world, id, Find(asked[0].headers, "Transport").value);
    } else {
      PlayReplySendable(asked[0].headers, FileFor(world, asked[0]), Find(asked[i].headers, "Range"));
    }
  }

  /** A reply without headers and body, as to a TEARDOWN. */
  ghost predicate Bare(r: Response) { r.headers == [] && r.body == "" && ResponseHeadOk(r.version, r.text) }

  lemma LastFrom(input: string, head: Response, rest: string, n: nat)
    requires n == 1 && ParseResponse(input) == (Some(Pending(head, -1)), rest) && head.body == ""
    ensures ParseResponses(n, input) == Some(([head], rest))
  {
    assert ReadBody(-1, rest) == Some(("", rest));
    assert head.(body := "") == head && [head] + [] == [head];
    assert ParseResponses(n - 1, rest) == Some(([], rest));
  }

  lemma BareIsRead(r: Response, tail: string)
    requires Bare(r)
    ensures ParseResponse(PrintResponse(r) + tail) == (Some(Pending(ReceivedHead(r), -1)), CRLF + tail)
  {
    EmptyHeadersBreakTheStream(r, tail);
  }

  lemma LastResponse(r: Response, n: nat, tail: string)
    requires Bare(r) && n == 1
    ensures ParseResponses(n, PrintResponse(r) + tail) == Some(([ReceivedHead(r)], CRLF + tail))
  {
    BareIsRead(r, tail);
    LastFrom(PrintResponse(r) + tail, ReceivedHead(r), CRLF + tail, n);
  }

  /** A stream of framed replies that ends in a bare one is read back whole, but for one blank line. */
  lemma {:induction false} StreamThenBare(rs: seq<Response>, last: Response, tail: string)
    requires Bare(last) && forall r | r in rs :: Sendable(r)
    ensures ParseResponses(|rs| + 1, PrintResponses(rs + [last]) + tail)
         == Some((ReceivedResponses(rs + [last]), CRLF + tail))
  {
    var all := rs + [last];
    var more := PrintResponses(all[1..]) + tail;
    if rs == [] {
      LastResponse(last, |all|, tail);
      assert all[1..] == [];
      assert PrintResponses(all) == PrintResponse(last);
      assert ReceivedResponses(all) == [ReceivedHead(last)];
    } else {
      assert PrintResponses(all) + tail == PrintResponse(rs[0]) + more;
      assert all[1..] == rs[1..] + [last];
      OneResponse(rs[0], |rs|, more);
      StreamThenBare(rs[1..], last, tail);
    }
  }

  lemma RepliesSendable(world: World, gate: Gate, id: Id, asked: seq<Request>, n: nat)
    requires Script(world, gate, id, asked) && Writable(world, id, asked)
    requires n <= |asked| && (n > 0 ==> !IsTeardown(asked[n-1]))
    ensures forall r | r in RepliesTo(world, id, asked)[..n] :: Sendable(r)
  {
    var replies := RepliesTo(world, id, asked);
    forall i: nat | i < n ensures Sendable(replies[i]) {
      ReplySendable(world, gate, id, asked, i);
    }
    assert forall r | r in replies[..n] :: exists i: nat | i < n :: replies[i] == r;
  }

  /** Replies that are framed, the last perhaps bare, and what they leave behind. */
  ghost predicate Framings(rs: seq<Response>, left: string) {
    || (left == "" && forall r | r in rs :: Sendable(r))
    || (left == CRLF && rs != [] && Bare(rs[|rs|-1]) && forall r | r in rs[..|rs|-1] :: Sendable(r))
  }

  lemma FramedComeBack(rs: seq<Response>, left: string, tail: string)
    requires Framings(rs, left)
    ensures ParseResponses(|rs|, PrintResponses(rs) + tail) == Some((ReceivedResponses(rs), left + tail))
  {
    if left == "" {
      ResponseStream(rs, tail);
      assert left + tail == tail;
    } else {
      var n := |rs| - 1;
      assert rs == rs[..n] + [rs[n]];
      StreamThenBare(rs[..n], rs[n], tail);
    }
  }

  lemma FramedAlone(rs: seq<Response>, left: string)
    requires Framings(rs, left)
    ensures ParseResponses(|rs|, PrintResponses(rs)) == Some((ReceivedResponses(rs), left))
  {
    FramedComeBack(rs, left, "");
    NothingAfter(PrintResponses(rs));
    NothingAfter(left);
  }

  lemma NothingAfter(s: string)
    ensures s + "" == s
  {
  }

  /** The blank line that the reply to a TEARDOWN leaves behind. */
  function LeftBehind(asked: seq<Request>): string {
    if asked != [] && IsTeardown(asked[|asked|-1]) then CRLF else ""
  }

  lemma LastReply(world: World, gate: Gate, id: Id, asked: seq<Request>)
    requires Script(world, gate, id, asked) && asked != [] && IsTeardown(asked[|asked|-1])
    ensures |asked| > 1 && !IsTeardown(asked[|asked|-2]) && Bare(ReplyTo(world, id, asked, |asked| - 1))
  {
    ReplyHeadsOk();
  }

  lemma RepliesAreFramed(world: World, gate: Gate, id: Id, asked: seq<Request>)
    requires Script(world, gate, id, asked) && Writable(world, id, asked)
    ensures Framings(RepliesTo(world, id, asked), LeftBehind(asked))
  {
    var replies := RepliesTo(world, id, asked);
    if asked != [] && IsTeardown(asked[|asked|-1]) {
      LastReply(world, gate, id, asked);
      RepliesSendable(world, gate, id, asked, |asked| - 1);
    } else {
      RepliesSendable(world, gate, id, asked, |asked|);
      assert replies[..|replies|] == replies;
    }
  }

  /** The client reads back every reply of its dialogue, in order, with every body, and stops where
  they end, but for the blank line that the reply to a TEARDOWN leaves. */
  lemma RepliesComeBack(world: World, gate: Gate, id: Id, asked: seq<Request>, tail: string)
    requires Script(world, gate, id, asked) && Writable(world, id, asked)
    ensures var replies := RepliesTo(world, id, asked);
      ParseResponses(|replies|, PrintResponses(replies) + tail)
      == Some((ReceivedResponses(replies), LeftBehind(asked) + tail))
  {
    RepliesAreFramed(world, gate, id, asked);
    FramedComeBack(RepliesTo(world, id, asked), LeftBehind(asked), tail);
  }

  lemma ScriptPrefix(world: World, gate: Gate, id: Id, all: seq<Request>, asked: seq<Request>)
    requires Script(world, gate, id, all) && Writable(world, id, all) && asked <= all
    ensures Script(world, gate, id, asked) && Writable(world, id, asked)
    ensures RepliesTo(world, id, asked) == RepliesTo(world, id, all)[..|asked|]
  {
    hide FileOf, PlayReply, InRange, Accepted;
    assert forall i | 0 <= i < |asked| :: asked[i] == all[i];
  }

  /** What has been answered so far is read back whole. */
  lemma AnswersAreRead(world: World, gate: Gate, id: Id, asked: seq<Request>, answers: seq<Response>)
    requires Script(world, gate, id, asked) && Writable(world, id, asked)
    requires answers <= RepliesTo(world, id, asked)
    ensures ParseResponses(|answers|, PrintResponses(answers))
         == Some((ReceivedResponses(answers), LeftBehind(asked[..|answers|])))
  {
    hide FileOf, PlayReply, InRange, Framings;
    var n := |answers|;
    assert RepliesTo(world, id, asked)[..n] == answers;
    ScriptPrefix(world, gate, id, asked, asked[..n]);
    RepliesAreFramed(world, gate, id, asked[..n]);
    FramedAlone(answers, LeftBehind(asked[..n]));
  }
}
