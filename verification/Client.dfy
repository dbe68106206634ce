/** The client: numbered requests on one connection, each answered by one response. */
module Client {
  import opened Wrappers
  import opened Headers
  import opened Messages
  import Decimal
  import Readers

  function Numbered(cseq: nat): HeaderMap { [("CSeq", Decimal.Digits(cseq))] }

  /** An absent and an empty text are treated alike. */
  function Optional(name: string, prefix: string, text: Option<string>): HeaderMap {
    if text.Some? && text.value != "" then [(name, prefix + text.value)] else []
  }

  function SetupRequest(cseq: nat, url: string, auth: Option<string>): Request {
    Request("SETUP", url, VERSION,
            Numbered(cseq) + [("Transport", "TCP")] + Optional("Authorization", "Bearer ", auth), "")
  }

  function PlayRequest(cseq: nat, url: string, session: string, range: Option<string>): Request {
    Request("PLAY", url, VERSION, Numbered(cseq) + [("Session", session)] + Optional("Range", "", range), "")
  }

  function TeardownRequest(cseq: nat, url: string, session: string): Request {
    Request("TEARDOWN", url, VERSION, Numbered(cseq) + [("Session", session)], "")
  }

  function OptionsRequest(cseq: nat, url: string): Request {
    Request("OPTIONS", url, VERSION, Numbered(cseq), "")
  }

  /** What follows the body; when its length raises an error nothing is taken. */
  function AfterBody(limit: int, rest: string): string {
    var read := ReadBody(limit, rest);
    if read.Some? then read.value.1 else rest
  }

  class Client {
    const sock: Readers.Socket
    const url: string
    var session: Option<string>
    var cseq: nat
    var playRecord: seq<Request>

    constructor (sock: Readers.Socket, url: string)
      ensures this.sock == sock && this.url == url && session == None && cseq == 0 && playRecord == []
    {
      this.sock, this.url, session, cseq, playRecord := sock, url, None, 0, [];
    }

    function SessionText(): string
      reads this
    {
      if session.Some? then session.value else "None"
    }

    /** What the next response on the stream is, and what follows its head. */
    ghost function Coming(): (Option<Pending>, string)
      reads sock
    {
      ParseResponse(sock.incoming)
    }

    /** Sends the request and reads the head of one response; its body is left to a reader. */
    method Request(req: Messages.Request) returns (r: Option<Response>, body: Readers.SocketStreamReader?)
      modifies sock
      ensures sock.outgoing == old(sock.outgoing) + PrintRequest(req)
      ensures sock.incoming == old(Coming()).1
      ensures Answered(old(Coming()).0, r, body)
      ensures body != null ==> fresh(body)
    {
      sock.Send(PrintRequest(req));
      r, body := Readers.UnparseResponse(sock);
    }

    /** What is returned is the head, with a reader for as many characters as it announces. */
    predicate Answered(p: Option<Pending>, r: Option<Response>, body: Readers.SocketStreamReader?)
      reads body
    {
      && (r.Some? <==> p.Some?) && (body != null <==> p.Some?)
      && (p.Some? ==>
            r == Some(p.value.head)
            && body.sock == sock && body.maxRead == p.value.limit && body.haveRead == 0)
    }

    /** A response that is let go of: its reader takes the rest of the body when it is collected. */
    method LetGo(body: Readers.SocketStreamReader?)
      requires body != null ==> body.sock == sock && body.haveRead == 0
      modifies sock, body
      ensures sock.outgoing == old(sock.outgoing)
      ensures sock.wholeReads ==>
        sock.incoming == if body == null then old(sock.incoming) else AfterBody(body.maxRead, old(sock.incoming))
    {
      if body != null {
        var rest := body.ReadAll();
      }
    }

    /** What is left once a response is read and let go of. */
    ghost function Later(p: Option<Pending>, rest: string): string {
      if p.None? then rest else AfterBody(p.value.limit, rest)
    }

    /** false stands for the exception on a refusal or a missing Session header. */
    method Setup(auth: Option<string>) returns (ok: bool)
      modifies this`session, this`cseq, sock
      ensures cseq == old(cseq) + 1
      ensures sock.outgoing == old(sock.outgoing) + PrintRequest(SetupRequest(old(cseq), url, auth))
      ensures var (p, rest) := old(Coming());
        && (ok <==> p.Some? && p.value.head.status == 200 && Has(p.value.head.headers, "Session"))
        && session == (if ok then Find(p.value.head.headers, "Session") else old(session))
        && (sock.wholeReads ==> sock.incoming == Later(p, rest))
    {
      var req := SetupRequest(cseq, url, auth);
      cseq := cseq + 1;
      var r, body := Request(req);
      LetGo(body);
      if r.None? || r.value.status != 200 || !Has(r.value.headers, "Session") {
        return false;
      }
      session := Find(r.value.headers, "Session");
      ok := true;
    }

    /** The response with its body unread, or the exception on a refusal. */
    method Play(range: Option<string>) returns (r: Option<Response>, body: Readers.SocketStreamReader?)
      modifies this`cseq, this`playRecord, sock
      ensures body != null ==> fresh(body)
      ensures var id := if old(session).Some? then old(session).value else "None";
        var req := PlayRequest(old(cseq), url, id, range);
        && cseq == old(cseq) + 1 && playRecord == old(playRecord) + [req]
        && sock.outgoing == old(sock.outgoing) + PrintRequest(req)
      ensures var (p, rest) := old(Coming());
        if p.Some? && (p.value.head.status == 200 || p.value.head.status == 206) then
          Answered(p, r, body) && sock.incoming == rest
        else
          r.None? && body == null && (sock.wholeReads ==> sock.incoming == Later(p, rest))
    {
      var req := PlayRequest(cseq, url, SessionText(), range);
      playRecord := playRecord + [req];
      cseq := cseq + 1;
      r, body := Request(req);
      if r.Some? && r.value.status != 200 && r.value.status != 206 {
        LetGo(body);
        r, body := None, null;
      }
    }

    method Teardown() returns (ok: bool)
      modifies this`cseq, sock
      ensures cseq == old(cseq) + 1
      ensures var id := if session.Some? then session.value else "None";
        sock.outgoing == old(sock.outgoing) + PrintRequest(TeardownRequest(old(cseq), url, id))
      ensures var (p, rest) := old(Coming());
        && (ok <==> p.Some? && p.value.head.status == 200)
        && (sock.wholeReads ==> sock.incoming == Later(p, rest))
    {
      var req := TeardownRequest(cseq, url, SessionText());
      cseq := cseq + 1;
      var r, body := Request(req);
      LetGo(body);
      ok := r.Some? && r.value.status == 200;
    }

    method Options() returns (r: Option<Response>, body: Readers.SocketStreamReader?)
      modifies this`cseq, sock
      ensures body != null ==> fresh(body)
      ensures cseq == old(cseq) + 1
      ensures sock.outgoing == old(sock.outgoing) + PrintRequest(OptionsRequest(old(cseq), url))
      ensures var (p, rest) := old(Coming());
        if p.Some? && p.value.head.status == 200 then
          Answered(p, r, body) && sock.incoming == rest
        else
          r.None? && body == null && (sock.wholeReads ==> sock.incoming == Later(p, rest))
    {
      var req := OptionsRequest(cseq, url);
      cseq := cseq + 1;
      r, body := Request(req);
      if r.Some? && r.value.status != 200 {
        LetGo(body);
        r, body := None, null;
      }
    }
  }
}
