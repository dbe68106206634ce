/** A session: one open file, played whole or by ranges. */
module Sessions {
  import opened Wrappers
  import opened Headers
  import opened Messages
  import opened Ranges
  import Decimal
  import Lines
  import Readers

  // ----- what a PLAY answers, as a function of the file and the headers kept from SETUP -----

  /** read(n) at a position: -1 reads to the end, and a size below that raises an error. */
  function Slice(file: string, pos: nat, n: int): string {
    if pos >= |file| || n < -1 then ""
    else if n == -1 || pos + n > |file| then file[pos..]
    else file[pos..pos+n]
  }

  function WholeHeaders(h: HeaderMap, size: nat): HeaderMap {
    var h1 := Put(h, "Range", "bytes=0-" + Decimal.Digits(size));
    var h2 := Put(h1, "Content-Length", Decimal.Digits(size));
    var h3 := Put(h2, "Content-Range", "bytes 0-" + Decimal.Print(size - 1) + "/" + Decimal.Digits(size));
    var h4 := Put(h3, "Accept-Ranges", "bytes");
    Put(h4, "Connection", "keep-alive")
  }

  function RangeHeaders(start: nat, end: nat, size: nat): HeaderMap {
    [ ("Range", "bytes=" + Decimal.Digits(start) + "-" + Decimal.Digits(end)),
      ("Content-Length", Decimal.Print(end - start + 1)),
      ("Content-Range", "bytes " + Decimal.Digits(start) + "-" + Decimal.Digits(end) + "/" + Decimal.Digits(size)),
      ("Accept-Ranges", "bytes"),
      ("Connection", "keep-alive") ]
  }

  /** An end of zero counts as not given. */
  function LastWanted(end: nat, size: nat): nat { if end == 0 then size + 1 else end }

  function Partial(h: HeaderMap, body: string): Response {
    Response(VERSION, 206, "Partial Content", h, body)
  }

  function PlayWhole(h: HeaderMap, file: string): Response {
    Partial(WholeHeaders(h, |file|), file)
  }

  function PlayRange(start: nat, end: nat, file: string): Response {
    var last := LastWanted(end, |file|);
    Partial(RangeHeaders(start, last, |file|), Slice(file, start, last + 1 - start))
  }

  /** No range, or an empty one, plays the whole file. */
  predicate PlaysWhole(range: Option<string>) { range.None? || range.value == "" }

  /** The reply to a PLAY; None when the range is unreadable or open-ended, which raises an error. */
  function PlayReply(h: HeaderMap, file: string, range: Option<string>): Option<Response> {
    if PlaysWhole(range) then Some(PlayWhole(h, file))
    else
      match ParseRange(range.value)
      case Some((start, Some(end))) => Some(PlayRange(start, end, file))
      case _ => None
  }

  /** Reading the body raises an error, after the head was sent: the start is more than two past the end. */
  predicate Raises(file: string, range: Option<string>) {
    && !PlaysWhole(range)
    && match ParseRange(range.value)
       case Some((start, Some(end))) => LastWanted(end, |file|) + 2 < start
       case _ => false
  }

  /** Playing the whole file also rewrites the headers kept from SETUP. */
  function HeadersAfter(h: HeaderMap, file: string, range: Option<string>): HeaderMap {
    if PlaysWhole(range) then WholeHeaders(h, |file|) else h
  }

  // ----- the objects -----

  class File {
    const content: string
    var pos: nat
    var closed: bool

    constructor (content: string)
      ensures this.content == content && pos == 0 && !closed
    {
      this.content, pos, closed := content, 0, false;
    }

    method Seek(n: nat)
      requires !closed
      modifies this`pos
      ensures pos == n
    {
      pos := n;
    }

    /** What is left from the position on. */
    function Left(): string
      reads this`pos
    {
      if pos < |content| then content[pos..] else ""
    }

    /** read(n): the next n characters, or as many as there are; -1 for all; less is an error. */
    method Read(n: int) returns (r: Option<string>)
      requires !closed
      modifies this`pos
      ensures r.Some? <==> n >= -1
      ensures r.Some? ==>
        && r.value <= old(Left()) && |r.value| == (if n == -1 then |old(Left())| else Min(n, |old(Left())|))
        && pos == old(pos) + |r.value|
      ensures r.None? ==> pos == old(pos)
    {
      if n < -1 {
        return None;
      }
      var left := Left();
      r := Some(if n == -1 || n >= |left| then left else left[..n]);
      pos := pos + |r.value|;
    }
  }

  class FileStreamReader {
    const file: File
    const low: int
    const high: int

    constructor (file: File, low: int, high: int)
      requires !file.closed && low >= -1
      modifies file`pos
      ensures this.file == file && this.low == low && this.high == high
      ensures file.pos == if low != -1 then low else old(file.pos)
    {
      this.file, this.low, this.high := file, low, high;
      new;
      if low != -1 {
        file.Seek(low);
      }
    }

    /** From where the file stands: as many characters as the limits are apart, or all that are left. */
    method ReadAll() returns (r: Option<string>)
      requires !file.closed
      modifies file`pos
      ensures var n, left := if high != -1 then high - low else -1, old(file.Left());
        && (r.Some? <==> n >= -1)
        && (r.Some? ==> r.value <= left && |r.value| == if n == -1 then |left| else Min(n, |left|))
    {
      if high != -1 {
        r := file.Read(high - low);
      } else {
        r := file.Read(-1);
      }
    }
  }

  class Session {
    const sock: Readers.Socket
    const file: File
    const fileSize: nat
    var headers: HeaderMap   // of the request that set the session up

    constructor (sock: Readers.Socket, file: File, headers: HeaderMap)
      ensures this.sock == sock && this.file == file && this.headers == headers && fileSize == |file.content|
    {
      this.sock, this.file, this.headers, this.fileSize := sock, file, headers, |file.content|;
    }

    /** The reply does not depend on where earlier plays left the file. */
    method Play(range: Option<string>) returns (ok: bool)
      requires !file.closed && fileSize == |file.content|
      modifies this`headers, sock, file`pos
      ensures headers == HeadersAfter(old(headers), file.content, range)
      ensures var reply := PlayReply(old(headers), file.content, range);
        && (ok <==> reply.Some? && !Raises(file.content, range))
        && sock.outgoing == old(sock.outgoing) + if reply.Some? then PrintResponse(reply.value) else ""
      ensures sock.incoming == old(sock.incoming)
    {
      if PlaysWhole(range) {
        SendWhole();
        return true;
      }
      var m := ParseRange(range.value);
      if m.None? || m.value.1.None? {
        return false;
      }
      ok := SendRange(m.value.0, m.value.1.value);
    }

    /** The whole file, with the headers kept from SETUP rewritten. */
    method SendWhole()
      requires !file.closed && fileSize == |file.content|
      modifies this`headers, sock, file`pos
      ensures headers == WholeHeaders(old(headers), fileSize)
      ensures sock.outgoing == old(sock.outgoing) + PrintResponse(PlayWhole(old(headers), file.content))
      ensures sock.incoming == old(sock.incoming)
    {
      var reader := new FileStreamReader(file, 0, fileSize);
      headers := Put(headers, "Range", "bytes=0-" + Decimal.Digits(fileSize));
      headers := Put(headers, "Content-Length", Decimal.Digits(fileSize));
      headers :=
        Put(headers, "Content-Range", "bytes 0-" + Decimal.Print(fileSize - 1) + "/" + Decimal.Digits(fileSize));
      headers := Put(headers, "Accept-Ranges", "bytes");
      headers := Put(headers, "Connection", "keep-alive");
      var ok := Respond(headers, reader);
    }

    /** false stands for the error that reading the body raises; the head has been sent by then. */
    method SendRange(start: nat, end: nat) returns (ok: bool)
      requires !file.closed && fileSize == |file.content|
      modifies sock, file`pos
      ensures ok <==> start <= LastWanted(end, fileSize) + 2
      ensures sock.outgoing == old(sock.outgoing) + PrintResponse(PlayRange(start, end, file.content))
      ensures sock.incoming == old(sock.incoming)
    {
      var last := end;
      if last == 0 {
        last := fileSize + 1;
      }
      var reader := new FileStreamReader(file, start, last + 1);
      ok := Respond(RangeHeaders(start, last, fileSize), reader);
    }

    /** The head is sent first, then the body is read and sent. */
    method Respond(h: HeaderMap, reader: FileStreamReader) returns (ok: bool)
      requires reader.file == file && !file.closed && reader.high != -1 && reader.low == file.pos
      modifies sock, file`pos
      ensures ok <==> reader.high - reader.low >= -1
      ensures sock.outgoing == old(sock.outgoing)
           + PrintResponse(Partial(h, Slice(file.content, reader.low, reader.high - reader.low)))
      ensures sock.incoming == old(sock.incoming)
    {
      hide PrintHead, PrintResponse, Slice, Lines.ResponseHead;
      ghost var sent, size := sock.outgoing, reader.high - reader.low;
      sock.Send(PrintHead(Lines.ResponseHead(VERSION, 206, "Partial Content"), h));
      HeadThenBody(h, Slice(file.content, reader.low, size), sent);
      var body := reader.ReadAll();
      SliceIsPrefix(file.content, reader.low, size);
      if body.None? {
        return false;
      }
      sock.Send(body.value);
      ok := true;
    }
  }

  lemma HeadThenBody(h: HeaderMap, body: string, sent: string)
    ensures sent + PrintResponse(Partial(h, body))
         == sent + PrintHead(Lines.ResponseHead(VERSION, 206, "Partial Content"), h) + body
    ensures body == "" ==>
      sent + PrintResponse(Partial(h, body))
      == sent + PrintHead(Lines.ResponseHead(VERSION, 206, "Partial Content"), h)
  {
  }

  // ----- what is promised of plays -----

  function Announced(r: Response): Option<int> { ContentLength(r.headers) }

  lemma RangeAnnounces(start: nat, end: nat, file: string)
    ensures Announced(PlayRange(start, end, file)) == Some(LastWanted(end, |file|) - start + 1)
  {
    var last := LastWanted(end, |file|);
    var h := RangeHeaders(start, last, |file|);
    assert h[1..][0].0 == "Content-Length" && h[0].0 != "Content-Length" by {
      assert |"Range"| != |"Content-Length"|;
    }
    assert Find(h, "Content-Length") == Find(h[1..], "Content-Length") == Some(Decimal.Print(last - start + 1));
    Decimal.ParsePrint(last - start + 1);
  }

  /** A range is answered with exactly as many bytes as announced in exactly these cases. */
  lemma RangeFramedExactly(start: nat, end: nat, file: string)
    ensures var r := PlayRange(start, end, file); Announced(r) == Some(|r.body|) <==>
      if end == 0 then start == |file| + 2 else start == end + 1 || start <= end < |file|
  {
    RangeAnnounces(start, end, file);
  }

  lemma SliceIsPrefix(file: string, pos: nat, n: int)
    ensures var left, r := if pos < |file| then file[pos..] else "", Slice(file, pos, n);
      && (n < -1 ==> r == "")
      && (forall t | t <= left && n >= -1 && |t| == (if n == -1 then |left| else Min(n, |left|)) :: t == r)
  {
    var left := if pos < |file| then file[pos..] else "";
    forall t | t <= left && n >= -1 && |t| == (if n == -1 then |left| else Min(n, |left|))
      ensures t == Slice(file, pos, n)
    {
      assert t == left[..|t|];
    }
  }

  /** What a range sends, for every start and end: from the start to one past the end, as far as the file goes; all
  the rest when the start is exactly two past the end, which is a read of -1; nothing otherwise. */
  lemma RangeSends(start: nat, end: nat, file: string)
    ensures var last := if end == 0 then |file| + 1 else end;
      PlayRange(start, end, file).body
      == if start >= |file| then ""
         else if start <= last then file[start..Min(last + 1, |file|)]
         else if start == last + 2 then file[start..]
         else ""
  {
  }

  /** A play of a readable range with an end is that range's; of all non-empty ranges only these are answered. */
  lemma PlaysAsWritten(h: HeaderMap, file: string, text: string)
    requires text != ""
    ensures PlayReply(h, file, Some(text)).Some? <==> exists w :: WellWritten(w) && w.end != "" && text == Spelled(w)
    ensures forall w | WellWritten(w) && w.end != "" && text == Spelled(w) ::
      var start, end := Decimal.Value(w.start), Decimal.Value(w.end);
      && PlayReply(h, file, Some(text)) == Some(PlayRange(start, end, file))
      && (Raises(file, Some(text)) <==> start > 2 + if end == 0 then |file| + 1 else end)
  {
    hide ParseRange, Spelled, PlayRange, Decimal.Value;
    forall w | WellWritten(w) && w.end != "" && text == Spelled(w)
      ensures ParseRange(text) == Some((Decimal.Value(w.start), Some(Decimal.Value(w.end))))
    {
      RangeParsesExactly(text, Asked(w));
    }
    if PlayReply(h, file, Some(text)).Some? {
      RangeParsesExactly(text, ParseRange(text).value);
    }
  }

  /** An empty range is as good as none: the whole file. */
  lemma NoRangePlaysWhole(h: HeaderMap, file: string)
    ensures PlayReply(h, file, None) == PlayReply(h, file, Some(""))
    ensures PlayReply(h, file, None).Some? && PlayReply(h, file, None).value.body == file
  {
  }

  /** The headers of a range reply tell the range, its place in the file, and its length. */
  lemma RangeHeadersTell(start: nat, end: nat, size: nat)
    ensures var h := RangeHeaders(start, end, size); exists a, b, c, n: string ::
      && Find(h, "Range") == Some("bytes=" + a + "-" + b) && Find(h, "Content-Length") == Some(n)
      && Find(h, "Content-Range") == Some("bytes " + a + "-" + b + "/" + c)
      && Find(h, "Accept-Ranges") == Some("bytes") && Find(h, "Connection") == Some("keep-alive")
      && Decimal.Parse(a) == Some(start) && Decimal.Parse(b) == Some(end) && Decimal.Parse(c) == Some(size)
      && Decimal.Parse(n) == Some(end - start + 1)
  {
    var a, b, c, n := Decimal.Print(start), Decimal.Print(end), Decimal.Print(size), Decimal.Print(end - start + 1);
    Decimal.ParsePrint(start);
    Decimal.ParsePrint(end);
    Decimal.ParsePrint(size);
    Decimal.ParsePrint(end - start + 1);
    FiveFinds("bytes=" + a + "-" + b, n, "bytes " + a + "-" + b + "/" + c);
    assert Find(RangeHeaders(start, end, size), "Content-Length") == Some(n);
  }

  lemma FiveFinds(range: string, length: string, place: string)
    ensures var h := [ ("Range", range), ("Content-Length", length), ("Content-Range", place),
                       ("Accept-Ranges", "bytes"), ("Connection", "keep-alive") ];
      && Find(h, "Range") == Some(range) && Find(h, "Content-Length") == Some(length)
      && Find(h, "Content-Range") == Some(place)
      && Find(h, "Accept-Ranges") == Some("bytes") && Find(h, "Connection") == Some("keep-alive")
  {
    var h4 := [("Connection", "keep-alive")];
    var h3 := [("Accept-Ranges", "bytes")] + h4;
    var h2 := [("Content-Range", place)] + h3;
    var h1 := [("Content-Length", length)] + h2;
    assert |"Range"| == 5 && |"Content-Length"| == 14 && |"Connection"| == 10;
    assert |"Content-Range"| == 13 && |"Accept-Ranges"| == 13 && "Content-Range"[0] != "Accept-Ranges"[0];
    assert Find(h4, "Connection") == Some("keep-alive");
    FindFront(("Accept-Ranges", "bytes"), h4);
    FindFront(("Content-Range", place), h3);
    FindFront(("Content-Length", length), h2);
    FindFront(("Range", range), h1);
    assert [("Range", range)] + h1 == [ ("Range", range), ("Content-Length", length), ("Content-Range", place),
                                        ("Accept-Ranges", "bytes"), ("Connection", "keep-alive") ];
  }

  lemma FindFront(x: Header, rest: HeaderMap)
    ensures forall k :: Find([x] + rest, k) == if x.0 == k then Some(x.1) else Find(rest, k)
  {
    assert ([x] + rest)[1..] == rest;
  }

  /** A range inside the file gets exactly its bytes, the last one included. */
  lemma RangeExact(start: nat, end: nat, file: string)
    requires start <= end < |file| && end > 0
    ensures var r := PlayRange(start, end, file);
      r.body == file[start..end+1] && Announced(r) == Some(end - start + 1) && Framed(r)
  {
    RangeAnnounces(start, end, file);
  }

  /** Asking for the first byte alone announces two bytes more than the file has, and sends the file. */
  lemma FirstByteAlone(file: string)
    ensures var r := PlayRange(0, 0, file); Announced(r) == Some(|file| + 2) && r.body == file
  {
    RangeAnnounces(0, 0, file);
  }

  lemma WholeHeadersFind(h: HeaderMap, size: nat, key: string)
    ensures Find(WholeHeaders(h, size), key) ==
      if key == "Connection" then Some("keep-alive")
      else if key == "Accept-Ranges" then Some("bytes")
      else if key == "Content-Range" then Some("bytes 0-" + Decimal.Print(size - 1) + "/" + Decimal.Digits(size))
      else if key == "Content-Length" then Some(Decimal.Digits(size))
      else if key == "Range" then Some("bytes=0-" + Decimal.Digits(size))
      else Find(h, key)
  {
    var h1 := Put(h, "Range", "bytes=0-" + Decimal.Digits(size));
    var h2 := Put(h1, "Content-Length", Decimal.Digits(size));
    var h3 := Put(h2, "Content-Range", "bytes 0-" + Decimal.Print(size - 1) + "/" + Decimal.Digits(size));
    var h4 := Put(h3, "Accept-Ranges", "bytes");
    FindPut(h, "Range", "bytes=0-" + Decimal.Digits(size), key);
    FindPut(h1, "Content-Length", Decimal.Digits(size), key);
    FindPut(h2, "Content-Range", "bytes 0-" + Decimal.Print(size - 1) + "/" + Decimal.Digits(size), key);
    FindPut(h3, "Accept-Ranges", "bytes", key);
    FindPut(h4, "Connection", "keep-alive", key);
  }

  /** A whole play sends the file and announces its size. */
  lemma WholeExact(h: HeaderMap, file: string)
    ensures var r := PlayWhole(h, file);
      r.body == file && Announced(r) == Some(|file|) && Framed(r)
  {
    WholeHeadersFind(h, |file|, "Content-Length");
    Decimal.ParsePrint(|file|);
  }

  lemma PutSame(h: HeaderMap, key: string, value: string)
    requires IsDict(h) && Find(h, key) == Some(value)
    ensures Put(h, key, value) == h
  {
    PutPlace(h, key, value);
  }

  lemma WholeHeadersDict(h: HeaderMap, size: nat)
    requires IsDict(h)
    ensures IsDict(WholeHeaders(h, size))
  {
    var h1 := Put(h, "Range", "bytes=0-" + Decimal.Digits(size));
    var h2 := Put(h1, "Content-Length", Decimal.Digits(size));
    var h3 := Put(h2, "Content-Range", "bytes 0-" + Decimal.Print(size - 1) + "/" + Decimal.Digits(size));
    var h4 := Put(h3, "Accept-Ranges", "bytes");
    PutPlace(h, "Range", "bytes=0-" + Decimal.Digits(size));
    PutPlace(h1, "Content-Length", Decimal.Digits(size));
    PutPlace(h2, "Content-Range", "bytes 0-" + Decimal.Print(size - 1) + "/" + Decimal.Digits(size));
    PutPlace(h3, "Accept-Ranges", "bytes");
    PutPlace(h4, "Connection", "keep-alive");
  }

  /** Rewriting the kept headers a second time changes nothing. */
  lemma WholeHeadersTwice(h: HeaderMap, size: nat)
    requires IsDict(h)
    ensures WholeHeaders(WholeHeaders(h, size), size) == WholeHeaders(h, size)
  {
    var w := WholeHeaders(h, size);
    WholeHeadersDict(h, size);
    WholeHeadersFind(h, size, "Range");
    WholeHeadersFind(h, size, "Content-Length");
    WholeHeadersFind(h, size, "Content-Range");
    WholeHeadersFind(h, size, "Accept-Ranges");
    WholeHeadersFind(h, size, "Connection");
    PutSame(w, "Range", "bytes=0-" + Decimal.Digits(size));
    PutSame(w, "Content-Length", Decimal.Digits(size));
    PutSame(w, "Content-Range", "bytes 0-" + Decimal.Print(size - 1) + "/" + Decimal.Digits(size));
    PutSame(w, "Accept-Ranges", "bytes");
    PutSame(w, "Connection", "keep-alive");
  }

  /** The replies to successive plays of one session. */
  function Replies(h: HeaderMap, file: string, ranges: seq<Option<string>>): seq<Option<Response>>
    decreases |ranges|
  {
    if ranges == [] then []
    else [PlayReply(h, file, ranges[0])] + Replies(HeadersAfter(h, file, ranges[0]), file, ranges[1..])
  }

  /** Earlier plays leave no trace: every reply is the one the session would give if it came first. */
  lemma {:induction false} PlaysAreHistoryFree(h: HeaderMap, file: string, ranges: seq<Option<string>>, i: nat)
    requires IsDict(h) && i < |ranges|
    ensures |Replies(h, file, ranges)| == |ranges| && Replies(h, file, ranges)[i] == PlayReply(h, file, ranges[i])
    decreases |ranges|
  {
    hide WholeHeaders, RangeHeaders, ParseRange;
    var h' := HeadersAfter(h, file, ranges[0]);
    WholeHeadersDict(h, |file|);
    WholeHeadersTwice(h, |file|);
    if |ranges| > 1 {
      PlaysAreHistoryFree(h', file, ranges[1..], if i > 0 then i - 1 else 0);
    }
  }

  // ----- playing a file in consecutive ranges -----

  /** Positions that cut a file of this size into non-empty stretches from the first cut on. */
  predicate Cuts(cuts: seq<nat>, size: nat) {
    cuts != [] && if |cuts| == 1 then cuts[0] == size else cuts[0] < cuts[1] && Cuts(cuts[1..], size)
  }

  function PlayCut(file: string, cuts: seq<nat>): Response
    requires |cuts| >= 2 && cuts[0] < cuts[1]
  {
    PlayRange(cuts[0], cuts[1] - 1, file)
  }

  function Bodies(file: string, cuts: seq<nat>): string
    requires Cuts(cuts, |file|)
  {
    if |cuts| == 1 then "" else PlayCut(file, cuts).body + Bodies(file, cuts[1..])
  }

  /** The sum of the announced lengths. */
  function TotalAnnounced(file: string, cuts: seq<nat>): int
    requires Cuts(cuts, |file|)
  {
    if |cuts| == 1 then 0
    else
      RangeAnnounces(cuts[0], cuts[1] - 1, file);
      Announced(PlayCut(file, cuts)).value + TotalAnnounced(file, cuts[1..])
  }

  lemma {:induction false} CutsStay(cuts: seq<nat>, size: nat)
    requires Cuts(cuts, size)
    ensures cuts[0] <= size && (|cuts| > 1 ==> cuts[1] <= size)
  {
    if |cuts| > 1 { CutsStay(cuts[1..], size); }
  }

  lemma {:induction false} LaterCuts(file: string, cuts: seq<nat>)
    requires Cuts(cuts, |file|) && (|cuts| > 1 ==> cuts[1] > 1)
    ensures cuts[0] <= |file|
    ensures Bodies(file, cuts) == file[cuts[0]..] && TotalAnnounced(file, cuts) == |file| - cuts[0]
  {
    hide PlayRange, Announced;
    CutsStay(cuts, |file|);
    if |cuts| > 1 {
      CutExact(file, cuts);
      if |cuts| > 2 { assert cuts[1..][1] > cuts[1..][0]; }
      LaterCuts(file, cuts[1..]);
      var body := PlayCut(file, cuts).body;
      assert Bodies(file, cuts) == body + file[cuts[1]..];
      assert file[cuts[0]..] == file[cuts[0]..cuts[1]] + file[cuts[1]..];
    }
  }

  lemma CutExact(file: string, cuts: seq<nat>)
    requires |cuts| > 1 && cuts[0] < cuts[1] <= |file| && cuts[1] > 1
    ensures PlayCut(file, cuts).body == file[cuts[0]..cuts[1]]
    ensures Announced(PlayCut(file, cuts)) == Some(cuts[1] - cuts[0])
  {
    RangeExact(cuts[0], cuts[1] - 1, file);
  }

  /** Played range by range, the bodies join to the file and the lengths add up, unless the first range is one byte. */
  lemma PartitionPlays(file: string, cuts: seq<nat>)
    requires Cuts(cuts, |file|) && |cuts| >= 2 && cuts[0] == 0
    ensures Bodies(file, cuts) == file && TotalAnnounced(file, cuts) == |file| <==> cuts[1] != 1
  {
    if cuts[1] != 1 {
      LaterCuts(file, cuts);
    } else {
      CutsStay(cuts[1..], |file|);
      if |cuts| > 2 { assert cuts[1..][1] > cuts[1..][0]; }
      LaterCuts(file, cuts[1..]);
      FirstByteAlone(file);
    }
  }
}
