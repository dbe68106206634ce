/** What each request is answered with, in every run, as its text and the state at that moment call for. */
module Replies {
  import opened Wrappers
  import opened Headers
  import opened Messages
  import opened Ranges
  import opened Sessions
  import opened Server
  import opened Guarantees
  import opened Ledger
  import opened Dialogue
  import Provenance
  import Decimal

  // ----- keys -----

  /** The request carries one of the keys, after the word Bearer. */
  ghost predicate HasKeyFor(auths: seq<string>, r: Request) {
    exists i | 0 <= i < |auths| :: Find(r.headers, "Authorization") == Some("Bearer " + auths[i])
  }

  lemma AcceptedExactly(auths: seq<string>, r: Request)
    ensures Accepted(auths, r) <==> HasKeyFor(auths, r)
  {
    var key := Find(r.headers, "Authorization");
    if Accepted(auths, r) {
      var i :| 0 <= i < |auths| && Keys(auths)[i] == key.value;
      assert key == Some("Bearer " + auths[i]);
    }
    if i :| 0 <= i < |auths| && key == Some("Bearer " + auths[i]) {
      assert Keys(auths)[i] == key.value;
    }
  }

  /** A SETUP whose key is compared goes on with one of the keys, and is refused with 403 without. */
  lemma KeyComparedExactly(world: World, s: State, w: nat)
    requires Inv(s) && w < |s.workers| && s.workers[w].CompareKey?
    ensures var pc, t := s.workers[w], Next(world, s, Go(w)); var k, r := pc.sock, pc.req;
      && k in s.conns
      && if exists i | 0 <= i < |s.auths| :: Find(r.headers, "Authorization") == Some("Bearer " + s.auths[i])
         then t.workers[w] == NewId(k, r, true) && t.conns == s.conns
         else t.workers[w] == Waiting(k)
              && t.conns == s.conns[k := s.conns[k].(answers := s.conns[k].answers + [Plain(403, "Forbidden", [])])]
  {
    hide FileOf, PlayReply;
    assert WorkerOk(s, w);
    AcceptedExactly(s.auths, s.workers[w].req);
    hide Accepted;
  }

  lemma {:induction false} AuthsAreAdded(world: World, s: State, es: seq<Event>, key: string) returns (j: nat)
    requires Run(world, s, es).Some? && key in Run(world, s, es).value.auths && key !in s.auths
    ensures j < |es| && es[j] == AddAuth(key)
    decreases |es|
  {
    hide Next, Enabled;
    if es[0] == AddAuth(key) {
      j := 0;
    } else {
      AuthsAfter(world, s, es[0]);
      var i := AuthsAreAdded(world, Next(world, s, es[0]), es[1..], key);
      j := i + 1;
    }
  }

  lemma AuthsAfter(world: World, s: State, e: Event)
    requires Enabled(s, e)
    ensures Next(world, s, e).auths == if e.AddAuth? then s.auths + [e.key] else s.auths
  {
    hide Advance, Touch;
    if e.Go? {
      Provenance.SameAuths(world, s, e.w);
    } else if e.Reset? {
      Provenance.TouchSameAuths(s, s.workers[e.w]);
    }
  }

  /** In every run, each session whose key was asked for was set up with a key that had been added. */
  lemma CheckedSessionsHaveKeys(world: World, n: nat, es: seq<Event>, id: Id) returns (j: nat)
    requires var t := Run(world, Initial(n), es); t.Some? && id in t.value.sessions && t.value.sessions[id].checked
    ensures var t := Run(world, Initial(n), es).value;
      && j < |es| && es[j].AddAuth?
      && Find(t.sessions[id].request.headers, "Authorization") == Some("Bearer " + es[j].key)
  {
    var t := Run(world, Initial(n), es).value;
    var r := t.sessions[id].request;
    Provenance.SessionsHaveGrounds(world, n, es, id);
    AcceptedExactly(t.auths, r);
    var i :| 0 <= i < |t.auths| && Find(r.headers, "Authorization") == Some("Bearer " + t.auths[i]);
    j := AuthsAreAdded(world, Initial(n), es, t.auths[i]);
  }

  // ----- what a request calls for -----

  ghost predicate Names(url: string, file: string) { exists host :: NamesFile(url, host, file) }

  /** What a SETUP is answered with, and when. */
  ghost predicate SetupCalls(world: World, m: State, k: Sock, r: Request, reply: Response) {
    if !Has(r.headers, "Transport") then reply == Plain(461, "Transport Not Found", [])
    else
      || (m.useAuth && !Has(r.headers, "Authorization")
          && reply == Plain(401, "Unauthorized", [("WWW-Authenticate", "Basic realm=\"dian\"")]))
      || (m.useAuth && Has(r.headers, "Authorization") && !HasKeyFor(m.auths, r)
          && reply == Plain(403, "Forbidden", []))
      || ((forall file :: !Names(r.url, file)) && reply == Plain(400, "Bad Request", []))
      || (exists file :: Names(r.url, file) && NamedCalls(world, m, k, r, reply, file))
  }

  /** What a SETUP is answered with that names this file. */
  ghost predicate NamedCalls(world: World, m: State, k: Sock, r: Request, reply: Response, file: string)
    requires Has(r.headers, "Transport")
  {
    if file in world.files then
      exists id | id in m.sessions ::
        && m.sessions[id].sock == k && m.sessions[id].request == r && m.sessions[id].file == world.files[file]
        && reply == Plain(200, "OK", [("Session", world.idText(id)),
                                      ("Transport", Find(r.headers, "Transport").value)])
    else
      && file !in world.directories
      && exists id | id in m.issued && id !in m.owners && k in m.conns && m.issued[id] == m.conns[k].worker ::
        reply == Plain(404, "Not Found", [("Session", world.idText(id))])
  }

  /** What a PLAY or a TEARDOWN is answered with, and when. */
  ghost predicate SessionCalls(world: World, m: State, k: Sock, r: Request, reply: Response) {
    var text := Find(r.headers, "Session");
    if text.None? then reply == Plain(453, "Session Not Found", [])
    else
      var id := world.idOf(text.value);
      && id.Some?
      && if id.value !in m.sessions then reply == Plain(454, "Session Not Found", [])
         else if m.sessions[id.value].sock != k then reply == Plain(455, "Session Not Current", [])
         else if r.verb == "TEARDOWN" then reply == Plain(200, "OK", [])
         else
           var e := m.sessions[id.value];
           PlayReply(e.headers, e.file, Find(r.headers, "Range")) == Some(reply)
  }

  /** The reply is the one that this request, on this connection, calls for in this state. */
  ghost predicate CalledFor(world: World, m: State, k: Sock, r: Request, reply: Response) {
    if r.verb == "OPTIONS" then reply == Plain(200, "OK", [])
    else if r.verb == "SETUP" then SetupCalls(world, m, k, r, reply)
    else if r.verb == "PLAY" || r.verb == "TEARDOWN" then SessionCalls(world, m, k, r, reply)
    else reply == Plain(400, "Bad Request", [])
  }

  // ----- what a worker carries with it -----

  /** What the earlier steps on a request have left a worker with. */
  ghost predicate Carried(world: World, s: State, pc: Pc) {
    && VerbOk(pc)
    && (Owes(pc) && pc.sock in s.conns ==>
          var asked := s.conns[pc.sock].asked; asked != [] && pc.req == asked[|asked|-1])
    && (pc.HasKey? || pc.CompareKey? ==> s.useAuth)
    && (pc.CompareKey? ==> Has(pc.req.headers, "Authorization"))
    && (pc.Insert? ==> Provenance.Grounds(world, pc.req, pc.file))
    && (pc.ReplySetup? ==>
          && pc.id in s.sessions && s.sessions[pc.id].request == pc.req
          && Provenance.Grounds(world, pc.req, s.sessions[pc.id].file))
    && (pc.IsMember? || pc.IsOwner? || pc.Play? || pc.ReplyTeardown? ==>
          var text := Find(pc.req.headers, "Session"); text.Some? && world.idOf(text.value) == Some(pc.id))
  }

  ghost predicate AllCarried(world: World, s: State) {
    forall w: nat | w < |s.workers| :: Carried(world, s, s.workers[w])
  }

  /** Whatever else happens, a worker keeps what it carries. */
  lemma OthersCarried(world: World, s: State, e: Event, w: nat)
    requires Inv(s) && Enabled(s, e) && w < |s.workers| && !IsStepOf(e, w) && Carried(world, s, s.workers[w])
    ensures Carried(world, Next(world, s, e), Next(world, s, e).workers[w])
  {
    hide FileOf, Next;
    assert WorkerOk(s, w);
    LaterStep(world, s, e);
    OthersStay(world, s, e, w);
    if HasSock(s.workers[w]) { OthersLeaveAlone(world, s, e, s.workers[w].sock); }
  }

  lemma OthersStay(world: World, s: State, e: Event, w: nat)
    requires Inv(s) && Enabled(s, e) && w < |s.workers| && !IsStepOf(e, w)
    ensures Next(world, s, e).workers[w] == s.workers[w]
  {
    hide Next;
    if e.Go? { GoStays(world, s, e.w); } else { ElseStays(world, s, e); }
  }

  /** What a worker carries from one place to the next, apart from the state. */
  lemma ActCarries(world: World, s: State, pc: Pc)
    requires Carried(world, s, pc) && Moves(pc) && (PastTransport(pc) ==> Has(pc.req.headers, "Transport"))
    ensures var next := Act(world, s, pc).next;
      && VerbOk(next)
      && (Owes(next) ==> Owes(pc) && next.req == pc.req && next.sock == pc.sock)
      && (next.HasKey? || next.CompareKey? ==> s.useAuth)
      && (next.CompareKey? ==> Has(pc.req.headers, "Authorization"))
      && (next.Insert? ==> Provenance.Grounds(world, pc.req, next.file))
      && (next.ReplySetup? ==> pc.Insert? && next.id == pc.id)
      && (next.IsMember? || next.IsOwner? || next.Play? || next.ReplyTeardown? ==>
            var text := Find(pc.req.headers, "Session"); text.Some? && world.idOf(text.value) == Some(next.id))
  {
    hide FileOf, PlayReply, Accepted;
    ActVerb(world, s, pc);
  }

  lemma InsertedEntry(world: World, s: State, w: nat)
    requires Inv(s) && Enabled(s, Go(w)) && s.workers[w].Insert?
    ensures var pc, t := s.workers[w], Next(world, s, Go(w));
      pc.id in t.sessions && t.sessions[pc.id] == Entry(pc.sock, pc.req.headers, pc.file, pc.req, pc.checked)
  {
    hide FileOf, PlayReply, Accepted;
    Provenance.SameAuths(world, s, w);
  }

  lemma GoCarried(world: World, s: State, w: nat)
    requires Inv(s) && Enabled(s, Go(w)) && Carried(world, s, s.workers[w])
    ensures Carried(world, Next(world, s, Go(w)), Next(world, s, Go(w)).workers[w])
  {
    hide Act, Next, FileOf;
    var pc := s.workers[w];
    assert WorkerOk(s, w);
    ActCarries(world, s, pc);
    StopsOnMove(world, s, w);
    GoStays(world, s, w);
    LaterStep(world, s, Go(w));
    if pc.Insert? { InsertedEntry(world, s, w); }
    NextIsAdvance(world, s, w);
  }

  lemma NextIsAdvance(world: World, s: State, w: nat)
    requires Enabled(s, Go(w))
    ensures Next(world, s, Go(w)) == Advance(world, s, w)
  {
  }

  lemma OwnElseCarried(world: World, s: State, e: Event)
    requires Inv(s) && Enabled(s, e) && !e.Go? && !e.EnableAuth? && !e.AddAuth?
    ensures Carried(world, Next(world, s, e), Next(world, s, e).workers[e.w])
      <== Carried(world, s, s.workers[e.w])
  {
    hide FileOf, Next, Inv;
    ElseStays(world, s, e);
    assert KeepsPlace(e, e.w, s.workers[e.w], Next(world, s, e).workers[e.w]);
    if e.Read? || e.GiveId? { AskedAfter(world, s, e); }
  }

  lemma AskedAfter(world: World, s: State, e: Event)
    requires Inv(s) && Enabled(s, e) && (e.Read? || e.GiveId?)
    ensures var k, t := s.workers[e.w].sock, Next(world, s, e);
      && k in s.conns && k in t.conns
      && t.conns[k].asked == s.conns[k].asked + if e.Read? then [e.req] else []
  {
    hide Advance, Touch;
    assert WorkerOk(s, e.w);
  }

  lemma CarriedNext(world: World, s: State, e: Event)
    requires Inv(s) && AllCarried(world, s) && Enabled(s, e)
    ensures AllCarried(world, Next(world, s, e))
  {
    hide Next, Carried;
    forall w: nat | w < |s.workers| ensures Carried(world, Next(world, s, e), Next(world, s, e).workers[w]) {
      if !IsStepOf(e, w) {
        OthersCarried(world, s, e, w);
      } else if e.Go? {
        assert e == Go(w);
        GoCarried(world, s, w);
      } else {
        OwnElseCarried(world, s, e);
      }
    }
  }

  lemma {:induction false} CarriedRun(world: World, s: State, es: seq<Event>)
    requires Inv(s) && AllCarried(world, s) && Run(world, s, es).Some?
    ensures Inv(Run(world, s, es).value) && AllCarried(world, Run(world, s, es).value)
    decreases |es|
  {
    hide Next, Inv, AllCarried;
    if es != [] {
      InvNext(world, s, es[0]);
      CarriedNext(world, s, es[0]);
      CarriedRun(world, Next(world, s, es[0]), es[1..]);
    }
  }

  // ----- one step -----

  /** The reply that a worker sends is the one that is called for. */
  lemma SentIsCalledFor(world: World, s: State, w: nat)
    requires Inv(s) && Enabled(s, Go(w)) && Carried(world, s, s.workers[w]) && Act(world, s, s.workers[w]).Send?
    ensures var pc := s.workers[w]; CalledFor(world, s, pc.sock, pc.req, Act(world, s, pc).reply)
  {
    assert WorkerOk(s, w);
    var pc := s.workers[w];
    if pc.HasTransport? || pc.HasKey? || pc.CompareKey? || pc.Open? || pc.ReplySetup? {
      SetupIsCalledFor(world, s, w);
    } else if !pc.Dispatch? {
      SessionIsCalledFor(world, s, w);
    }
  }

  lemma SetupIsCalledFor(world: World, s: State, w: nat)
    requires Inv(s) && Enabled(s, Go(w)) && Carried(world, s, s.workers[w]) && Act(world, s, s.workers[w]).Send?
    requires var pc := s.workers[w]; pc.HasTransport? || pc.HasKey? || pc.CompareKey? || pc.Open? || pc.ReplySetup?
    ensures var pc := s.workers[w]; SetupCalls(world, s, pc.sock, pc.req, Act(world, s, pc).reply)
    ensures s.workers[w].req.verb == "SETUP"
  {
    hide PlayReply, Accepted, HasKeyFor, FileOf, NamesFile, Names;
    assert WorkerOk(s, w);
    var pc := s.workers[w];
    AcceptedExactly(s.auths, pc.req);
    NamesExactly(pc.req.url);
  }

  lemma NamesExactly(url: string)
    ensures forall file :: Names(url, file) <==> FileOf(url) == Some(file)
  {
    hide FileOf, NamesFile;
    forall file ensures Names(url, file) <==> FileOf(url) == Some(file) { FileOfExactly(url, file); }
  }

  lemma SessionIsCalledFor(world: World, s: State, w: nat)
    requires Inv(s) && Enabled(s, Go(w)) && Carried(world, s, s.workers[w]) && Act(world, s, s.workers[w]).Send?
    requires var pc := s.workers[w];
      pc.HasSession? || pc.IsMember? || pc.IsOwner? || pc.Play? || pc.ReplyTeardown?
    ensures var pc := s.workers[w]; SessionCalls(world, s, pc.sock, pc.req, Act(world, s, pc).reply)
    ensures s.workers[w].req.verb == "PLAY" || s.workers[w].req.verb == "TEARDOWN"
  {
    hide FileOf, PlayReply, Accepted;
    assert WorkerOk(s, w);
  }

  /** After the key, or where none is asked for. */
  predicate PastKey(pc: Pc) { pc.NewId? || pc.Open? || pc.Insert? || pc.ReplySetup? }

  /** Request i on k has been read and not been answered. */
  predicate Handling(m: State, k: Sock, i: nat, r: Request) {
    k in m.conns && |m.conns[k].asked| == i + 1 && |m.conns[k].answers| == i && m.conns[k].asked[i] == r
  }

  /** The worker of k is past the key with this request. */
  predicate Admitted(s: State, k: Sock, r: Request) {
    && k in s.conns && s.conns[k].worker < |s.workers|
    && var pc := s.workers[s.conns[k].worker]; PastKey(pc) && pc.sock == k && pc.req == r
  }

  /** What a step adds to the replies on a connection: nothing, or the one that is called for. */
  ghost predicate Replied(world: World, s: State, t: State, k: Sock)
    requires k in s.conns && k in t.conns
  {
    || t.conns[k].answers == s.conns[k].answers
    || (exists i: nat, r, reply ::
          && Handling(s, k, i, r) && t.conns[k].answers == s.conns[k].answers + [reply]
          && CalledFor(world, s, k, r, reply)
          && (Admits(r, reply) ==> Admitted(s, k, r)))
  }

  /** The reply to a SETUP that was not turned away for its transport or its key. */
  predicate Admits(r: Request, reply: Response) {
    r.verb == "SETUP" && (reply.status == 200 || reply.status == 400 || reply.status == 404)
  }

  lemma StepReplies(world: World, s: State, e: Event, k: Sock)
    requires Inv(s) && AllCarried(world, s) && Enabled(s, e) && k in s.conns
    ensures k in Next(world, s, e).conns && Replied(world, s, Next(world, s, e), k)
  {
    hide Carried, CalledFor, Next;
    if e.Go? {
      GoReplies(world, s, e.w, k);
    } else {
      ElseReplies(world, s, e, k);
    }
  }

  lemma ElseReplies(world: World, s: State, e: Event, k: Sock)
    requires Inv(s) && Enabled(s, e) && k in s.conns && !e.Go?
    ensures var t := Next(world, s, e); k in t.conns && t.conns[k].answers == s.conns[k].answers
  {
    hide Advance, Touch;
    if e.Reset? { TouchLeaves(s, s.workers[e.w]); }
  }

  lemma GoReplies(world: World, s: State, w: nat, k: Sock)
    requires Inv(s) && AllCarried(world, s) && Enabled(s, Go(w)) && k in s.conns
    ensures k in Next(world, s, Go(w)).conns && Replied(world, s, Next(world, s, Go(w)), k)
  {
    hide Act, Advance, CalledFor, Admits, Admitted, Handling, Carried, Inv;
    var pc := s.workers[w];
    if Act(world, s, pc).Send? {
      SendEffect(world, s, w);
      SentIsCalledFor(world, s, w);
      OwedIsHandled(world, s, w);
    } else {
      MoveRepliesNothing(world, s, w, k);
    }
  }

  /** A worker about to reply handles the last request of its connection, and is past the key where it has to be. */
  lemma OwedIsHandled(world: World, s: State, w: nat)
    requires Inv(s) && AllCarried(world, s) && Enabled(s, Go(w)) && Act(world, s, s.workers[w]).Send?
    ensures var pc := s.workers[w];
      && pc.sock in s.conns && Handling(s, pc.sock, |s.conns[pc.sock].answers|, pc.req)
      && (Admits(pc.req, Act(world, s, pc).reply) ==> Admitted(s, pc.sock, pc.req))
  {
    hide Act, Admits;
    assert WorkerOk(s, w) && Carried(world, s, s.workers[w]);
    SendsFrom(world, s, s.workers[w]);
    AdmittedPlace(world, s, s.workers[w]);
  }

  lemma AdmittedPlace(world: World, s: State, pc: Pc)
    requires VerbOk(pc) && Moves(pc) && Act(world, s, pc).Send?
    ensures Admits(pc.req, Act(world, s, pc).reply) ==> PastKey(pc)
  {
    hide FileOf, PlayReply, Accepted;
  }

  lemma MoveRepliesNothing(world: World, s: State, w: nat, k: Sock)
    requires Enabled(s, Go(w)) && Act(world, s, s.workers[w]).Move? && k in s.conns
    ensures var t := Next(world, s, Go(w)); k in t.conns && t.conns[k].answers == s.conns[k].answers
  {
    hide Act, HeadersAfter;
  }

  // ----- every run -----

  lemma InitialCarried(world: World, n: nat)
    ensures Inv(Initial(n)) && AllCarried(world, Initial(n))
  {
    hide Provenance.Grounds;
    InitialInv(n);
  }

  /** The run up to its last event. */
  lemma LastEvent(world: World, s: State, es: seq<Event>)
    requires es != [] && Run(world, s, es).Some?
    ensures var front, e := es[..|es|-1], es[|es|-1]; var m := Run(world, s, front);
      m.Some? && Enabled(m.value, e) && Run(world, s, es) == Some(Next(world, m.value, e))
  {
    hide Next, Enabled;
    var front, e := es[..|es|-1], es[|es|-1];
    assert front + [e] == es;
    RunFront(world, s, front, [e]);
    RunSplit(world, s, front, [e]);
    SingleRun(world, Run(world, s, front).value, e);
  }

  lemma SingleRun(world: World, s: State, e: Event)
    ensures Run(world, s, [e]) == if Enabled(s, e) then Some(Next(world, s, e)) else None
  {
    hide Next, Enabled;
    assert [e][1..] == [];
  }

  /** At some moment of the run, while request i was being handled on k, its reply is what was called for. */
  lemma {:induction false} EveryReplyIsCalledFor(world: World, n: nat, es: seq<Event>, k: Sock, i: nat)
    returns (j: nat)
    requires var t := Run(world, Initial(n), es);
      t.Some? && k in t.value.conns && i < |t.value.conns[k].answers|
    ensures var c := Run(world, Initial(n), es).value.conns[k];
      && i < |c.asked| && j < |es| && Run(world, Initial(n), es[..j]).Some?
      && var m := Run(world, Initial(n), es[..j]).value;
      && Handling(m, k, i, c.asked[i]) && CalledFor(world, m, k, c.asked[i], c.answers[i])
      && (Admits(c.asked[i], c.answers[i]) ==> Admitted(m, k, c.asked[i]))
    decreases |es|
  {
    hide Next, Enabled, CalledFor, AllCarried, Inv, Initial, Admitted, Admits;
    assert es != [] by { NoneAtFirst(world, n, k); }
    var front, e := es[..|es|-1], es[|es|-1];
    LastEvent(world, Initial(n), es);
    var s, t := Run(world, Initial(n), front).value, Run(world, Initial(n), es).value;
    InitialCarried(world, n);
    CarriedRun(world, Initial(n), front);
    LaterStep(world, s, e);
    NewConn(world, s, e, k);
    assert ConnLater(s.conns[k], t.conns[k]);
    if i < |s.conns[k].answers| {
      j := EveryReplyIsCalledFor(world, n, front, k, i);
      assert front[..j] == es[..j];
    } else {
      StepReplies(world, s, e, k);
      j := |es| - 1;
    }
  }

  lemma NoneAtFirst(world: World, n: nat, k: Sock)
    ensures Run(world, Initial(n), []) == Some(Initial(n)) && k !in Initial(n).conns
  {
  }

  /** A connection with replies was there before the step. */
  lemma NewConn(world: World, s: State, e: Event, k: Sock)
    requires Inv(s) && Enabled(s, e) && k in Next(world, s, e).conns
    ensures k in s.conns || Next(world, s, e).conns[k].answers == []
  {
    hide Advance, Touch, Inv;
    OnlyAcceptAdds(world, s, e);
  }

  // ----- who gets past the key -----

  /** The state lets this SETUP past: no key is asked for, or it has one. */
  ghost predicate LetsPast(m: State, r: Request) { !m.useAuth || HasKeyFor(m.auths, r) }

  lemma ActPastKey(world: World, s: State, pc: Pc)
    requires Moves(pc) && PastKey(Act(world, s, pc).next)
    ensures Act(world, s, pc).Move?
    ensures var next := Act(world, s, pc).next;
      && next.sock == pc.sock && next.req == pc.req
      && (PastKey(pc) || ((pc.ReadFlag? || pc.CompareKey?) && LetsPast(s, pc.req)))
  {
    hide FileOf, PlayReply, Accepted;
    if pc.CompareKey? { AcceptedExactly(s.auths, pc.req); }
  }

  /** How a worker came to be past the key: it was before, or it was let past. */
  lemma PastKeyStep(world: World, s: State, e: Event, w: nat)
    requires Inv(s) && AllCarried(world, s) && Enabled(s, e) && w < |s.workers| && PastKey(Next(world, s, e).workers[w])
    ensures var pc, t := s.workers[w], Next(world, s, e);
      && HasSock(pc) && t.workers[w].sock == pc.sock && !pc.Waiting? && t.workers[w].req == pc.req
      && pc.sock in s.conns && pc.sock in t.conns
      && |t.conns[pc.sock].answers| == |s.conns[pc.sock].answers|
      && Handling(s, pc.sock, |s.conns[pc.sock].answers|, pc.req)
      && (PastKey(pc) || LetsPast(s, pc.req))
  {
    hide Next, LetsPast, Act;
    assert WorkerOk(s, w) && Carried(world, s, s.workers[w]);
    if !IsStepOf(e, w) {
      OthersStay(world, s, e, w);
      OthersLeaveAlone(world, s, e, s.workers[w].sock);
    } else if e.Go? {
      assert e == Go(w);
      StopsOnMove(world, s, w);
      NextIsAdvance(world, s, w);
      ActPastKey(world, s, s.workers[w]);
      MoveRepliesNothing(world, s, w, s.workers[w].sock);
    } else {
      ElseStays(world, s, e);
      assert KeepsPlace(e, w, s.workers[w], Next(world, s, e).workers[w]);
      ElseReplies(world, s, e, s.workers[w].sock);
    }
  }

  lemma {:induction false} PastKeyMoment(world: World, n: nat, es: seq<Event>, w: nat) returns (j: nat)
    requires var t := Run(world, Initial(n), es); t.Some? && w < |t.value.workers| && PastKey(t.value.workers[w])
    ensures var t := Run(world, Initial(n), es).value; var pc := t.workers[w];
      && pc.sock in t.conns && j < |es| && Run(world, Initial(n), es[..j]).Some?
      && var m := Run(world, Initial(n), es[..j]).value;
      Handling(m, pc.sock, |t.conns[pc.sock].answers|, pc.req) && LetsPast(m, pc.req)
    decreases |es|
  {
    hide Next, Enabled, LetsPast, AllCarried, Inv, Handling;
    assert es != [] by { IdleAtFirst(world, n, w); }
    var front, e := es[..|es|-1], es[|es|-1];
    LastEvent(world, Initial(n), es);
    var s, t := Run(world, Initial(n), front).value, Run(world, Initial(n), es).value;
    InitialCarried(world, n);
    CarriedRun(world, Initial(n), front);
    PastKeyStep(world, s, e, w);
    if PastKey(s.workers[w]) {
      j := PastKeyMoment(world, n, front, w);
      assert front[..j] == es[..j];
    } else {
      j := |es| - 1;
    }
  }

  lemma IdleAtFirst(world: World, n: nat, w: nat)
    ensures Run(world, Initial(n), []) == Some(Initial(n))
    ensures w < |Initial(n).workers| ==> !PastKey(Initial(n).workers[w])
  {
  }

  /** A SETUP that was answered with 200, 400 or 404 was let past at some moment while it was handled: authentication
  was off then, or it carried a key that had been added. */
  lemma AnsweredSetupWasLetPast(world: World, n: nat, es: seq<Event>, k: Sock, i: nat) returns (j: nat)
    requires var t := Run(world, Initial(n), es);
      && t.Some? && k in t.value.conns && i < |t.value.conns[k].answers| && i < |t.value.conns[k].asked|
      && Admits(t.value.conns[k].asked[i], t.value.conns[k].answers[i])
    ensures var r := Run(world, Initial(n), es).value.conns[k].asked[i];
      && j < |es| && Run(world, Initial(n), es[..j]).Some?
      && var m := Run(world, Initial(n), es[..j]).value;
      Handling(m, k, i, r) && (!m.useAuth || HasKeyFor(m.auths, r))
  {
    hide Run, HasKeyFor, CalledFor, Initial, Admits;
    var before := EveryReplyIsCalledFor(world, n, es, k, i);
    var m := Run(world, Initial(n), es[..before]).value;
    j := PastKeyMoment(world, n, es[..before], m.conns[k].worker);
    assert es[..before][..j] == es[..j];
  }

  // ----- what a play leaves -----

  /** A play leaves every session as it was, but that a whole one rewrites five of the headers kept from SETUP. */
  lemma PlayLeavesSessions(world: World, s: State, w: nat)
    requires Inv(s) && w < |s.workers| && s.workers[w].Play?
    ensures var pc, t := s.workers[w], Next(world, s, Go(w)); var range := Find(pc.req.headers, "Range");
      && pc.id in s.sessions && t.sessions.Keys == s.sessions.Keys
      && (forall id | id in s.sessions && id != pc.id :: t.sessions[id] == s.sessions[id])
      && var e, d := s.sessions[pc.id], t.sessions[pc.id];
      && d == e.(headers := d.headers)
      && if range.Some? && range.value != "" then d.headers == e.headers else KeepsWhole(e.headers, d.headers, |e.file|)
  {
    hide Act, Raises, WholeHeaders, KeepsWhole, IsDict;
    assert WorkerOk(s, w) && IdOk(s, s.workers[w].id);
    var e := s.sessions[s.workers[w].id];
    KeptForWhole(e.headers, |e.file|);
    OwnSessionIsOpen(s, w);
  }

  predicate IsRewritten(key: string) {
    key == "Range" || key == "Content-Length" || key == "Content-Range" || key == "Accept-Ranges" || key == "Connection"
  }

  /** The headers after a whole play of a file of this size: these texts tell its size, all others are as they were. */
  ghost predicate KeepsWhole(h: HeaderMap, after: HeaderMap, size: nat) {
    && IsDict(after) && (forall key | !IsRewritten(key) :: Find(after, key) == Find(h, key))
    && Find(after, "Accept-Ranges") == Some("bytes") && Find(after, "Connection") == Some("keep-alive")
    && exists n, last ::
      && Decimal.Parse(n) == Some(size) && Decimal.Parse(last) == Some(size - 1)
      && Find(after, "Content-Length") == Some(n) && Find(after, "Range") == Some("bytes=0-" + n)
      && Find(after, "Content-Range") == Some("bytes 0-" + last + "/" + n)
  }

  lemma KeptForWhole(h: HeaderMap, size: nat)
    requires IsDict(h)
    ensures KeepsWhole(h, WholeHeaders(h, size), size)
  {
    hide WholeHeaders, IsDict, Find;
    WholeHeadersDict(h, size);
    Decimal.ParsePrint(size);
    Decimal.ParsePrint(size - 1);
    forall key ensures !IsRewritten(key) ==> Find(WholeHeaders(h, size), key) == Find(h, key) {
      WholeHeadersFind(h, size, key);
    }
    WholeHeadersFind(h, size, "Range");
    WholeHeadersFind(h, size, "Content-Length");
    WholeHeadersFind(h, size, "Content-Range");
    WholeHeadersFind(h, size, "Accept-Ranges");
    WholeHeadersFind(h, size, "Connection");
  }

  // ----- OPTIONS -----

  /** In every run, an OPTIONS that is answered is answered with 200 and no header. */
  lemma OptionsIsAnswered(world: World, n: nat, es: seq<Event>, k: Sock, i: nat)
    requires var t := Run(world, Initial(n), es);
      && t.Some? && k in t.value.conns && i < |t.value.conns[k].answers| && i < |t.value.conns[k].asked|
      && t.value.conns[k].asked[i].verb == "OPTIONS"
    ensures Run(world, Initial(n), es).value.conns[k].answers[i] == Plain(200, "OK", [])
  {
    hide Run, Initial;
    var j := EveryReplyIsCalledFor(world, n, es, k, i);
  }
}
