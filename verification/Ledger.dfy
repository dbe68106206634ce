/** The session table as a ledger: a reply of 200 to a SETUP adds one session, a reply of 200 to a
TEARDOWN takes one away, and nothing else changes their number. */
module Ledger {
  import opened Wrappers
  import opened Headers
  import opened Messages
  import opened Ranges
  import opened Sessions
  import opened Server
  import opened Guarantees
  import Provenance

  /** The request a worker carries is of the kind its place is for. */
  predicate VerbOk(pc: Pc) {
    && (pc.HasTransport? || PastTransport(pc) ==> pc.req.verb == "SETUP")
    && (pc.HasSession? || pc.IsMember? || pc.IsOwner? ==> pc.req.verb == "PLAY" || pc.req.verb == "TEARDOWN")
    && (pc.Play? ==> pc.req.verb == "PLAY")
    && (pc.ReplyTeardown? || pc.Close? || pc.Pop? ==> pc.req.verb == "TEARDOWN")
  }

  ghost predicate VerbsOk(s: State) { forall w: nat | w < |s.workers| :: VerbOk(s.workers[w]) }

  lemma ActVerb(world: World, s: State, pc: Pc)
    requires VerbOk(pc)
    ensures VerbOk(Act(world, s, pc).next)
  {
    hide FileOf, PlayReply, Accepted, Find;
    if pc.Open? { OpenActs(world, s, pc); } else { OtherVerb(world, s, pc); }
  }

  lemma OtherVerb(world: World, s: State, pc: Pc)
    requires VerbOk(pc) && !pc.Open?
    ensures VerbOk(Act(world, s, pc).next)
  {
    hide FileOf, PlayReply, Accepted, Find, Keys;
  }

  // ----- what a step does to the account -----

  /** The reply that a step sends. */
  function SentBy(world: World, s: State, e: Event): Option<Response>
    requires Enabled(s, e)
  {
    if e.Go? && Act(world, s, s.workers[e.w]).Send? then Some(Act(world, s, s.workers[e.w]).reply) else None
  }

  /** The step answers a request of this kind with 200. */
  predicate Answers200(world: World, s: State, e: Event, verb: string)
    requires Enabled(s, e)
  {
    var r := SentBy(world, s, e);
    r.Some? && r.value.status == 200 && s.workers[e.w].req.verb == verb
  }

  /** The connection is reset before a session that is in the table could be announced. */
  predicate Loses(s: State, e: Event)
    requires Enabled(s, e)
  {
    e.Reset? && s.workers[e.w].ReplySetup?
  }

  function One(b: bool): int { if b then 1 else 0 }

  /** Sessions added less sessions taken away, as the replies of a run tell it. */
  function Balance(world: World, s: State, es: seq<Event>): int
    requires Run(world, s, es).Some?
    decreases |es|
  {
    if es == [] then 0
    else
      One(Answers200(world, s, es[0], "SETUP")) + One(Loses(s, es[0])) - One(Answers200(world, s, es[0], "TEARDOWN"))
      + Balance(world, Next(world, s, es[0]), es[1..])
  }

  /** In the table, but not announced yet or already taken leave of. */
  predicate Unsettled(pc: Pc) { pc.ReplySetup? || pc.Close? || pc.Pop? }

  function UnsettledIn(pcs: seq<Pc>): nat {
    if pcs == [] then 0 else One(Unsettled(pcs[0])) + UnsettledIn(pcs[1..])
  }

  lemma {:induction false} UnsettledUpdate(pcs: seq<Pc>, w: nat, pc: Pc)
    requires w < |pcs|
    ensures UnsettledIn(pcs[w := pc]) == UnsettledIn(pcs) - One(Unsettled(pcs[w])) + One(Unsettled(pc))
  {
    if w == 0 {
      assert pcs[w := pc][1..] == pcs[1..];
    } else {
      assert pcs[w := pc][1..] == pcs[1..][w - 1 := pc];
      UnsettledUpdate(pcs[1..], w - 1, pc);
    }
  }

  /** Which steps answer 200, by the place they are taken from. */
  lemma Which200(world: World, s: State, w: nat)
    requires w < |s.workers| && Moves(s.workers[w]) && VerbOk(s.workers[w])
    requires s.workers[w].ReplySetup? ==> Has(s.workers[w].req.headers, "Transport")
    ensures Answers200(world, s, Go(w), "SETUP") <==> s.workers[w].ReplySetup?
    ensures Answers200(world, s, Go(w), "TEARDOWN") <==> s.workers[w].ReplyTeardown?
  {
    hide FileOf, Accepted, ParseRange, WholeHeaders;
    var pc := s.workers[w];
    if pc.Play? && Act(world, s, pc).Send? { PlayIs206(world, s, pc); }
  }

  lemma PlayIs206(world: World, s: State, pc: Pc)
    requires pc.Play? && Act(world, s, pc).Send?
    ensures Act(world, s, pc).reply.status == 206
  {
  }

  /** The number of sessions after a worker's own step. */
  lemma TouchSize(s: State, pc: Pc)
    requires pc.Insert? ==> pc.id !in s.sessions
    requires pc.Pop? ==> pc.id in s.sessions
    ensures |Touch(s, pc).sessions| == |s.sessions| + One(pc.Insert?) - One(pc.Pop?)
  {
    hide Touch;
    TouchKeys(s, pc);
    KeysCount(s.sessions);
    KeysCount(Touch(s, pc).sessions);
  }

  lemma TouchKeys(s: State, pc: Pc)
    ensures Touch(s, pc).sessions.Keys
         == if pc.Insert? then s.sessions.Keys + {pc.id}
            else if pc.Pop? then s.sessions.Keys - {pc.id} else s.sessions.Keys
  {
    hide HeadersAfter;
    var keys := Touch(s, pc).sessions.Keys;
    match pc
    case Insert(_, _, _, id, _) => assert keys == s.sessions.Keys + {id};
    case Play(_, _, _) => assert keys == s.sessions.Keys;
    case Pop(_, _, id) => assert keys == s.sessions.Keys - {id};
    case _ =>
  }

  lemma KeysCount<K, V>(m: map<K, V>)
    ensures |m| == |m.Keys|
  {
  }

  /** Where a worker goes, as far as the account is concerned. */
  lemma NextUnsettled(world: World, s: State, pc: Pc)
    requires Moves(pc) && ((pc.Close? || pc.Pop?) ==> pc.id in s.sessions)
    requires pc.ReplySetup? ==> Has(pc.req.headers, "Transport")
    ensures Unsettled(Act(world, s, pc).next) <==> pc.Insert? || pc.ReplyTeardown? || pc.Close?
  {
    hide FileOf, PlayReply, Accepted;
  }

  lemma GoBalances(world: World, s: State, w: nat)
    requires Inv(s) && VerbsOk(s) && Enabled(s, Go(w))
    ensures var t := Next(world, s, Go(w));
      |t.sessions| - UnsettledIn(t.workers)
      == |s.sessions| - UnsettledIn(s.workers)
         + One(Answers200(world, s, Go(w), "SETUP")) - One(Answers200(world, s, Go(w), "TEARDOWN"))
  {
    assert WorkerOk(s, w);
    var pc := s.workers[w];
    if pc.Insert? { assert IdOk(s, pc.id); }
    StopsOnMove(world, s, w);
    Provenance.SameAuths(world, s, w);
    var next := Act(world, s, pc).next;
    assert Next(world, s, Go(w)).workers == s.workers[w := next];
    UnsettledUpdate(s.workers, w, next);
    NextUnsettled(world, s, pc);
    Which200(world, s, w);
    TouchSize(s, pc);
  }

  lemma OthersBalance(world: World, s: State, e: Event)
    requires Enabled(s, e) && !e.Go?
    ensures var t := Next(world, s, e);
      |t.sessions| - UnsettledIn(t.workers) == |s.sessions| - UnsettledIn(s.workers) + One(Loses(s, e))
  {
    hide Advance, Touch, VerbOk;
    var t := Next(world, s, e);
    Provenance.SessionsElse(world, s, e);
    if e.Reset? { TouchSize(s, s.workers[e.w]); }
    if !e.EnableAuth? && !e.AddAuth? {
      OneWorkerMoves(world, s, e);
      UnsettledUpdate(s.workers, e.w, t.workers[e.w]);
    }
  }

  lemma OneWorkerMoves(world: World, s: State, e: Event)
    requires Enabled(s, e) && !e.Go? && !e.EnableAuth? && !e.AddAuth?
    ensures var t := Next(world, s, e);
      && e.w < |s.workers| == |t.workers| && t.workers == s.workers[e.w := t.workers[e.w]]
      && !Unsettled(t.workers[e.w])
      && (Unsettled(s.workers[e.w]) <==> Loses(s, e))
  {
    hide Advance;
    hide Touch;
    if e.Reset? { TouchLeaves(s, s.workers[e.w]); }
  }

  lemma VerbsStay(world: World, s: State, e: Event)
    requires VerbsOk(s) && Enabled(s, e)
    ensures VerbsOk(Next(world, s, e))
  {
    hide Act, Advance;
    if e.Go? {
      ActVerb(world, s, s.workers[e.w]);
      Provenance.SameAuths(world, s, e.w);
      var t := Advance(world, s, e.w);
      forall w: nat | w < |t.workers| ensures VerbOk(t.workers[w]) {
        assert w != e.w ==> t.workers[w] == s.workers[w];
      }
    } else {
      VerbsElse(world, s, e);
    }
  }

  lemma VerbsElse(world: World, s: State, e: Event)
    requires VerbsOk(s) && Enabled(s, e) && !e.Go?
    ensures VerbsOk(Next(world, s, e))
  {
    hide Next;
    hide VerbOk;
    forall w: nat | w < |s.workers| ensures VerbOk(Next(world, s, e).workers[w]) {
      VerbElse(world, s, e, w);
    }
  }

  lemma VerbElse(world: World, s: State, e: Event, w: nat)
    requires Enabled(s, e) && !e.Go? && w < |s.workers| && VerbOk(s.workers[w])
    ensures VerbOk(Next(world, s, e).workers[w])
  {
    hide Next;
    ElseStays(world, s, e);
    assert KeepsPlace(e, w, s.workers[w], Next(world, s, e).workers[w]);
  }

  lemma {:induction false} RunBalances(world: World, s: State, es: seq<Event>)
    requires Inv(s) && VerbsOk(s) && Run(world, s, es).Some?
    ensures var t := Run(world, s, es).value;
      |t.sessions| - UnsettledIn(t.workers) == |s.sessions| - UnsettledIn(s.workers) + Balance(world, s, es)
    decreases |es|
  {
    if es != [] {
      var e := es[0];
      InvNext(world, s, e);
      VerbsStay(world, s, e);
      if e.Go? { GoBalances(world, s, e.w); } else { OthersBalance(world, s, e); }
      RunBalances(world, Next(world, s, e), es[1..]);
    }
  }

  lemma {:induction false} NoneUnsettled(pcs: seq<Pc>)
    requires forall w | 0 <= w < |pcs| :: !Unsettled(pcs[w])
    ensures UnsettledIn(pcs) == 0
  {
    if pcs != [] { NoneUnsettled(pcs[1..]); }
  }

  /** After any run from the start, the table holds one session for each SETUP answered with 200 (or whose
  answer was lost to a reset), less one for each TEARDOWN answered with 200, but for the workers that
  are between the table and the reply. */
  lemma TableFollowsTheReplies(world: World, n: nat, es: seq<Event>)
    requires Run(world, Initial(n), es).Some?
    ensures var t := Run(world, Initial(n), es).value;
      |t.sessions| == Balance(world, Initial(n), es) + UnsettledIn(t.workers)
  {
    InitialInv(n);
    NoneUnsettled(Initial(n).workers);
    RunBalances(world, Initial(n), es);
  }
}
