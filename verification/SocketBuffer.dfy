/** The socket stream buffer: fixed get and put areas over a socket that may send or receive
part of what it is asked to, may have to wait, may fail, and may run past its deadline.

What the socket and the clock do is a script, one entry for each round of a retry loop.  A
script that ends leaves the call waiting.
*/
module SocketBuffer {
  import opened Wrappers

  const BUFFER_SIZE: nat := 512
  const PUTBACK_MAX: nat := 8

  datatype Error = NoError | TimedOut | EndOfFile | Failed

  datatype Outcome = Done | Stopped(error: Error) | Waiting

  /** One round: the deadline has passed, or the call succeeds, would block (and waiting for
  the socket then succeeds or not), or fails.  Moved(n) stands for n + 1 bytes at most. */
  datatype Round = Expired | Moved(n: nat) | WouldBlock(ready: bool) | Refused | PeerClosed

  // ----- what the sending loop does, as a function of the script -----

  /** How much of the pending bytes reaches the wire, how the loop ends, and the unused script. */
  datatype Sending = Sending(sent: nat, outcome: Outcome, rest: seq<Round>)

  function SendAll(pending: nat, script: seq<Round>): (r: Sending)
    ensures r.sent <= pending && (r.outcome == Done <==> r.sent == pending)
    decreases |script|
  {
    if pending == 0 then Sending(0, Done, script)
    else if script == [] then Sending(0, Waiting, [])
    else
      match script[0]
      case Expired => Sending(0, Stopped(TimedOut), script[1..])
      case Moved(n) =>
        var k := Min(n + 1, pending);
        var more := SendAll(pending - k, script[1..]);
        more.(sent := k + more.sent)
      case WouldBlock(ready) =>
        if ready then SendAll(pending, script[1..]) else Sending(0, Stopped(Failed), script[1..])
      case Refused => Sending(0, Stopped(Failed), script[1..])
      case PeerClosed => Sending(0, Stopped(Failed), script[1..])
  }

  /** What a refill gets: the bytes, how the loop ends, and the unused script. */
  datatype Receiving = Receiving(count: nat, outcome: Outcome, rest: seq<Round>)

  function ReceiveSome(available: nat, room: nat, script: seq<Round>): (r: Receiving)
    requires room > 0
    ensures r.count <= available && r.count <= room && (r.outcome == Done <==> r.count > 0)
    decreases |script|
  {
    if script == [] then Receiving(0, Waiting, [])
    else
      match script[0]
      case Expired => Receiving(0, Stopped(TimedOut), script[1..])
      case Moved(n) =>
        // with nothing left to come, the peer's close is what is received
        if available == 0 then Receiving(0, Stopped(EndOfFile), script[1..])
        else Receiving(Min(n + 1, Min(available, room)), Done, script[1..])
      case WouldBlock(ready) =>
        if ready then ReceiveSome(available, room, script[1..]) else Receiving(0, Stopped(Failed), script[1..])
      case Refused => Receiving(0, Stopped(Failed), script[1..])
      case PeerClosed => Receiving(0, Stopped(EndOfFile), script[1..])
  }

  /** The error code after a call: a round that succeeds clears it, and a call without rounds leaves it. */
  function ErrorAfter(was: Error, outcome: Outcome, script: seq<Round>, rest: seq<Round>): Error {
    if outcome.Stopped? then outcome.error else if |rest| < |script| then NoError else was
  }

  /** One round of the sending loop. */
  lemma SendRound(pending: nat, script: seq<Round>)
    ensures pending == 0 ==> SendAll(pending, script) == Sending(0, Done, script)
    ensures pending > 0 && script == [] ==> SendAll(pending, script) == Sending(0, Waiting, [])
    ensures pending > 0 && script != [] ==>
      match script[0]
      case Expired => SendAll(pending, script) == Sending(0, Stopped(TimedOut), script[1..])
      case Moved(n) =>
        var k := Min(n + 1, pending);
        var more := SendAll(pending - k, script[1..]);
        SendAll(pending, script) == more.(sent := k + more.sent)
      case WouldBlock(true) => SendAll(pending, script) == SendAll(pending, script[1..])
      case _ => SendAll(pending, script) == Sending(0, Stopped(Failed), script[1..])
  {
  }

  /** One round of the receiving loop. */
  lemma ReceiveRound(available: nat, room: nat, script: seq<Round>)
    requires room > 0
    ensures script == [] ==> ReceiveSome(available, room, script) == Receiving(0, Waiting, [])
    ensures script != [] ==>
      match script[0]
      case Expired => ReceiveSome(available, room, script) == Receiving(0, Stopped(TimedOut), script[1..])
      case Moved(n) =>
        ReceiveSome(available, room, script)
        == if available == 0 then Receiving(0, Stopped(EndOfFile), script[1..])
           else Receiving(Min(n + 1, Min(available, room)), Done, script[1..])
      case WouldBlock(true) =>
        ReceiveSome(available, room, script) == ReceiveSome(available, room, script[1..])
      case PeerClosed => ReceiveSome(available, room, script) == Receiving(0, Stopped(EndOfFile), script[1..])
      case _ => ReceiveSome(available, room, script) == Receiving(0, Stopped(Failed), script[1..])
  {
  }

  lemma PrefixGrows(data: seq<char>, i: nat, j: nat)
    requires i <= j <= |data|
    ensures data[..j] == data[..i] + data[i..j]
  {
  }

  class SocketStreambuf {
    const getBuffer: array<char>
    var putBuffer: array<char>     // of length 512, or empty when unbuffered
    var gptr: nat
    var egptr: nat
    var pptr: nat
    var error: Error

    var script: seq<Round>         // what the socket and the clock will do
    var arriving: seq<char>        // what the peer has sent and was not received yet
    var wire: seq<char>            // what was sent to the peer

    ghost predicate Valid()
      reads this, putBuffer
    {
      && getBuffer.Length == BUFFER_SIZE && getBuffer != putBuffer
      && PUTBACK_MAX <= gptr <= egptr <= BUFFER_SIZE
      && (putBuffer.Length == BUFFER_SIZE || putBuffer.Length == 0)
      && pptr <= putBuffer.Length
    }

    ghost predicate Buffered()
      reads this
    {
      putBuffer.Length != 0
    }

    function Pending(): seq<char>
      requires pptr <= putBuffer.Length
      reads this, putBuffer
    {
      putBuffer[..pptr]
    }

    function Unread(): seq<char>
      requires gptr <= egptr <= getBuffer.Length
      reads this, getBuffer
    {
      getBuffer[gptr..egptr]
    }

    constructor (script: seq<Round>, arriving: seq<char>)
      ensures Valid() && Buffered() && Pending() == [] && Unread() == []
      ensures wire == [] && this.arriving == arriving && this.script == script
    {
      getBuffer := new char[BUFFER_SIZE];
      putBuffer := new char[BUFFER_SIZE];
      error := NoError;
      this.script, this.arriving, wire := script, arriving, [];
      gptr, egptr, pptr := PUTBACK_MAX, PUTBACK_MAX, 0;
    }

    /** The retry loop of overflow: sends all of data, or stops part way. */
    method SendLoop(data: seq<char>) returns (outcome: Outcome)
      modifies this`wire, this`script, this`error
      ensures var s := SendAll(|data|, old(script));
        && outcome == s.outcome && wire == old(wire) + data[..s.sent] && script == s.rest
        && error == ErrorAfter(old(error), outcome, old(script), script)
    {
      hide SendAll;
      ghost var script0 := script;
      var sent := 0;
      while sent < |data|
        invariant 0 <= sent <= |data| && wire == old(wire) + data[..sent]
        invariant var all, left := SendAll(|data|, script0), SendAll(|data| - sent, script);
          all.sent == sent + left.sent && all.outcome == left.outcome && all.rest == left.rest
        invariant |script| <= |script0| && error == ErrorAfter(old(error), Waiting, script0, script)
        decreases |script|
      {
        SendRound(|data| - sent, script);
        if script == [] {
          return Waiting;
        }
        var round := script[0];
        script := script[1..];
        match round {
          case Expired =>
            error := TimedOut;
            return Stopped(TimedOut);
          case Moved(n) =>
            var k := Min(n + 1, |data| - sent);
            PrefixGrows(data, sent, sent + k);
            wire := wire + data[sent..sent+k];
            sent := sent + k;
            error := NoError;
          case WouldBlock(ready) =>
            if !ready {
              error := Failed;
              return Stopped(Failed);
            }
            error := NoError;
          case Refused =>
            error := Failed;
            return Stopped(Failed);
          case PeerClosed =>
            error := Failed;
            return Stopped(Failed);
        }
      }
      SendRound(0, script);
      outcome := Done;
    }

    /** overflow(c): sends what is pending, then keeps c; unbuffered, sends c itself.  No c flushes. */
    method Overflow(c: Option<char>) returns (outcome: Outcome)
      requires Valid()
      modifies this`wire, this`script, this`error, this`pptr, putBuffer
      ensures Valid() && putBuffer == old(putBuffer)
      ensures outcome == Done ==> wire + Pending() == old(wire + Pending()) + if c.None? then [] else [c.value]
      ensures outcome != Done ==> Pending() == old(Pending())
      ensures !Buffered() ==> Pending() == []
      ensures var out := if Buffered() then old(Pending()) else if c.None? then [] else [c.value];
        var s := SendAll(|out|, old(script));
        && outcome == s.outcome && wire == old(wire) + out[..s.sent] && script == s.rest
        && error == ErrorAfter(old(error), outcome, old(script), script)
      ensures outcome.Stopped? ==> error == outcome.error
      ensures !outcome.Stopped? ==> error == if |script| < |old(script)| then NoError else old(error)
    {
      var out;
      if putBuffer.Length == 0 {
        if c.None? {
          return Done;
        }
        out := [c.value];
      } else {
        out := putBuffer[..pptr];
      }
      outcome := SendLoop(out);
      if outcome != Done {
        return;
      }
      assert out[..|out|] == out;
      if putBuffer.Length != 0 {
        pptr := 0;
        if c.Some? {
          putBuffer[0] := c.value;
          pptr := 1;
        }
      }
    }

    /** sputc: into the put area if there is room. */
    method Put(c: char) returns (outcome: Outcome)
      requires Valid()
      modifies this`wire, this`script, this`error, this`pptr, putBuffer
      ensures Valid() && putBuffer == old(putBuffer) && (putBuffer.Length == 0 || putBuffer.Length == 512)
      ensures outcome == Done ==> wire + Pending() == old(wire + Pending()) + [c]
      ensures outcome != Done ==> Pending() == old(Pending())
      ensures old(pptr) < putBuffer.Length ==>
        outcome == Done && wire == old(wire) && script == old(script) && error == old(error)
      ensures old(pptr) >= putBuffer.Length ==>
        var out := if Buffered() then old(Pending()) else [c];
        var s := SendAll(|out|, old(script));
        && outcome == s.outcome && wire == old(wire) + out[..s.sent] && script == s.rest
        && error == ErrorAfter(old(error), outcome, old(script), script)
    {
      if pptr < putBuffer.Length {
        putBuffer[pptr] := c;
        pptr := pptr + 1;
        assert Pending() == old(Pending()) + [c];
        return Done;
      }
      outcome := Overflow(Some(c));
    }

    method Sync() returns (outcome: Outcome)
      requires Valid()
      modifies this`wire, this`script, this`error, this`pptr, putBuffer
      ensures Valid() && putBuffer == old(putBuffer)
      ensures outcome == Done ==> Pending() == [] && wire == old(wire + Pending())
      ensures outcome != Done ==> Pending() == old(Pending())
      ensures var s := SendAll(|old(Pending())|, old(script));
        && outcome == s.outcome && wire == old(wire) + old(Pending())[..s.sent] && script == s.rest
        && error == ErrorAfter(old(error), outcome, old(script), script)
    {
      outcome := Overflow(None);
    }

    /** setbuf: only (null, 0), and only with nothing pending, which turns buffering off. */
    method SetBuf(isNull: bool, n: int) returns (ok: bool)
      requires Valid()
      modifies this
      ensures Valid() && Pending() == old(Pending()) && Unread() == old(Unread())
      ensures wire == old(wire) && arriving == old(arriving) && script == old(script) && error == old(error)
      ensures ok <==> old(Pending()) == [] && isNull && n == 0
      ensures ok ==> !Buffered()
      ensures !ok ==> putBuffer == old(putBuffer)
      ensures putBuffer == old(putBuffer) || fresh(putBuffer)
    {
      if pptr == 0 && isNull && n == 0 {
        putBuffer := new char[0];
        var outcome := Sync();
        return true;
      }
      ok := false;
    }

    /** Both areas are emptied, whatever they hold. */
    method InitBuffers()
      requires Valid()
      modifies this`gptr, this`egptr, this`pptr
      ensures Valid() && Pending() == [] && Unread() == []
    {
      gptr, egptr, pptr := PUTBACK_MAX, PUTBACK_MAX, 0;
    }

    /** close: flushes, closes the socket, and if that works empties the areas.  The error and the result are those
    of closing the socket, even after a failed flush. */
    method Close(closing: Error) returns (ok: bool)
      requires Valid()
      modifies this, putBuffer
      ensures Valid() && error == closing && (ok <==> closing == NoError)
      ensures var out := old(Pending()); var s := SendAll(|out|, old(script));
        && wire == old(wire) + out[..s.sent] && script == s.rest
        && Pending() == if ok || s.outcome == Done then [] else out
      ensures Unread() == (if ok then [] else old(Unread())) && arriving == old(arriving)
    {
      var flushed := Sync();
      error := closing;
      ok := closing == NoError;
      if ok {
        InitBuffers();
      }
    }

    /** underflow: refills the get area once it is used up.  No character is the end-of-file result. */
    method Underflow() returns (c: Option<char>)
      requires Valid()
      modifies this`gptr, this`egptr, this`script, this`error, this`arriving, getBuffer
      ensures Valid() && getBuffer[..8] == old(getBuffer[..8])
      ensures Unread() + arriving == old(Unread() + arriving)
      ensures old(Unread()) != [] ==>
        c == None && Unread() == old(Unread()) && script == old(script) && error == old(error)
      ensures old(Unread()) == [] ==>
        var r := ReceiveSome(|old(arriving)|, BUFFER_SIZE - PUTBACK_MAX, old(script));
        && script == r.rest && |Unread()| == r.count
        && error == ErrorAfter(old(error), r.outcome, old(script), script)
        && c == if r.outcome == Done then Some(Unread()[0]) else None
      ensures c.Some? ==> error == NoError
    {
      if gptr != egptr {
        return None;
      }
      hide ReceiveSome;
      ghost var script0 := script;
      ghost var room := BUFFER_SIZE - PUTBACK_MAX;
      while true
        invariant Valid() && Unread() == [] && arriving == old(arriving)
        invariant getBuffer[..] == old(getBuffer[..])
        invariant ReceiveSome(|arriving|, room, script) == ReceiveSome(|arriving|, room, script0)
        invariant |script| <= |script0| && error == ErrorAfter(old(error), Waiting, script0, script)
        decreases |script|
      {
        ReceiveRound(|arriving|, room, script);
        if script == [] {
          return None;
        }
        var round := script[0];
        script := script[1..];
        match round {
          case Expired =>
            error := TimedOut;
            return None;
          case Moved(n) =>
            if arriving == [] {
              error := EndOfFile;
              return None;
            }
            var k := Min(n + 1, Min(|arriving|, getBuffer.Length - PUTBACK_MAX));
            Deposit(k);
            error := NoError;
            return Some(getBuffer[gptr]);
          case WouldBlock(ready) =>
            if !ready {
              error := Failed;
              return None;
            }
            error := NoError;
          case Refused =>
            error := Failed;
            return None;
          case PeerClosed =>
            error := EndOfFile;
            return None;
        }
      }
    }

    /** recv: k bytes go behind the putback area, and the get area becomes those bytes. */
    method Deposit(k: nat)
      requires Valid() && Unread() == [] && 1 <= k <= |arriving| && k <= BUFFER_SIZE - PUTBACK_MAX
      modifies this`gptr, this`egptr, this`arriving, getBuffer
      ensures Valid() && getBuffer[..8] == old(getBuffer[..8])
      ensures Unread() == old(arriving)[..k] && arriving == old(arriving)[k..]
    {
      forall i | 0 <= i < k {
        getBuffer[PUTBACK_MAX+i] := arriving[i];
      }
      arriving := arriving[k..];
      gptr, egptr := PUTBACK_MAX, PUTBACK_MAX + k;
    }

    /** sbumpc: the next character, refilling if need be. */
    method Get() returns (c: Option<char>)
      requires Valid()
      modifies this`gptr, this`egptr, this`script, this`error, this`arriving, getBuffer
      ensures Valid()
      ensures (if c.None? then [] else [c.value]) + (Unread() + arriving) == old(Unread() + arriving)
      ensures old(Unread()) != [] ==>
        && c == Some(old(Unread())[0]) && Unread() == old(Unread())[1..]
        && arriving == old(arriving) && script == old(script)
      ensures old(Unread()) == [] ==>
        && var d := Decisive(old(script));
        && script == (if d == [] then [] else d[1..])
        && if d != [] && d[0].Moved? && old(arriving) != [] then
             var k := Min(d[0].n + 1, Min(|old(arriving)|, 504));
             c == Some(old(arriving)[0]) && Unread() == old(arriving)[1..k] && arriving == old(arriving)[k..]
           else
             c == None && Unread() == [] && arriving == old(arriving)
    {
      hide ReceiveSome, Decisive;
      if gptr == egptr {
        c := Uflow();
      } else {
        c := Some(getBuffer[gptr]);
        assert Unread() == [c.value] + getBuffer[gptr+1..egptr];
        gptr := gptr + 1;
      }
    }

    /** uflow: refills, and takes the first character if that brought one. */
    method Uflow() returns (c: Option<char>)
      requires Valid() && Unread() == []
      modifies this`gptr, this`egptr, this`script, this`error, this`arriving, getBuffer
      ensures Valid()
      ensures (if c.None? then [] else [c.value]) + (Unread() + arriving) == old(arriving)
      ensures
        var d := Decisive(old(script));
        && script == (if d == [] then [] else d[1..])
        && if d != [] && d[0].Moved? && old(arriving) != [] then
             var k := Min(d[0].n + 1, Min(|old(arriving)|, BUFFER_SIZE - PUTBACK_MAX));
             c == Some(old(arriving)[0]) && Unread() == old(arriving)[1..k] && arriving == old(arriving)[k..]
           else
             c == None && Unread() == [] && arriving == old(arriving)
    {
      hide ReceiveSome, Decisive;
      ghost var before, script0 := arriving, script;
      c := Underflow();
      Refilled(before, script0, Unread(), arriving, c);
      if c.Some? {
        gptr := gptr + 1;
      }
    }

    /** Any run of puts and flushes that all succeed: everything written is on the wire, then pending. */
    method RunWrites(ops: seq<Option<char>>) returns (done: nat)
      requires Valid()
      modifies this`wire, this`script, this`error, this`pptr, putBuffer
      ensures Valid() && done <= |ops|
      ensures done == |ops| ==> wire + Pending() == old(wire + Pending()) + Characters(ops)
      ensures MovedRounds(old(script)) >= |old(Pending())| + |Characters(ops)| ==> done == |ops|
    {
      done := 0;
      ghost var start := wire + Pending();
      assert ops[..0] == [];
      while done < |ops|
        invariant Valid() && putBuffer == old(putBuffer) && done <= |ops|
        invariant wire + Pending() == start + Characters(ops[..done])
        invariant MovedRounds(old(script)) >= |old(Pending())| + |Characters(ops)| ==>
          MovedRounds(script) >= |Characters(ops)| - |Characters(ops[..done])| + |Pending()|
      {
        assert ops[..done+1][..done] == ops[..done];
        CharactersGrow(ops, done + 1);
        EnoughRounds(|Pending()|, script);
        EnoughRounds(1, script);
        var outcome;
        if ops[done].None? {
          outcome := Sync();
        } else {
          outcome := Put(ops[done].value);
        }
        if outcome != Done {
          return;
        }
        done := done + 1;
      }
      assert ops[..done] == ops;
    }

    /** Any run of reads: what came in is what was read, then what is unread, then what is still to come. */
    method RunReads(n: nat) returns (got: seq<char>)
      requires Valid()
      modifies this`gptr, this`egptr, this`script, this`error, this`arriving, getBuffer
      ensures Valid() && got + (Unread() + arriving) == old(Unread() + arriving)
      ensures MovedRounds(old(script)) >= n ==>
        got == old(Unread() + arriving)[..Min(n, |old(Unread() + arriving)|)]
    {
      got := [];
      var i := 0;
      while i < n
        invariant Valid() && i <= n && got + (Unread() + arriving) == old(Unread() + arriving)
        invariant MovedRounds(old(script)) >= n ==>
          MovedRounds(script) >= n - i && |got| == Min(i, |old(Unread() + arriving)|)
      {
        DecisiveRounds(script);
        ghost var before := Unread() + arriving;
        var c := Get();
        GotMore(got, c, before, Unread() + arriving);
        if c.Some? {
          got := got + [c.value];
        }
        i := i + 1;
      }
    }
  }

  lemma GotMore(got: seq<char>, c: Option<char>, before: seq<char>, after: seq<char>)
    requires (if c.None? then [] else [c.value]) + after == before
    ensures (if c.None? then got else got + [c.value]) + after == got + before
  {
  }

  function Characters(ops: seq<Option<char>>): seq<char> {
    if ops == [] then []
    else Characters(ops[..|ops|-1]) + if ops[|ops|-1].None? then [] else [ops[|ops|-1].value]
  }

  lemma {:induction false} CharactersGrow(ops: seq<Option<char>>, n: nat)
    requires n <= |ops|
    ensures |Characters(ops[..n])| <= |Characters(ops)|
    decreases |ops|
  {
    if n == |ops| {
      assert ops[..n] == ops;
    } else {
      assert ops[..|ops|-1][..n] == ops[..n];
      CharactersGrow(ops[..|ops|-1], n);
    }
  }

  // ----- what the socket lets through -----

  /** The script from the first round on that is not a wait that ends well. */
  function Decisive(script: seq<Round>): seq<Round> {
    if script != [] && script[0] == WouldBlock(true) then Decisive(script[1..]) else script
  }

  /** How many rounds move bytes before the first that ends a call badly. */
  function MovedRounds(script: seq<Round>): nat {
    if script == [] then 0
    else
      match script[0]
      case Moved(_) => 1 + MovedRounds(script[1..])
      case WouldBlock(true) => MovedRounds(script[1..])
      case _ => 0
  }

  /** A refill gets bytes exactly if the first round that decides moves some and there are some; otherwise that round
  says how it ends. */
  lemma {:induction false} ReceivesExactly(available: nat, room: nat, script: seq<Round>)
    requires room > 0
    ensures var r, d := ReceiveSome(available, room, script), Decisive(script);
      && r.count == (if d != [] && d[0].Moved? then Min(d[0].n + 1, Min(available, room)) else 0)
      && r.rest == (if d == [] then [] else d[1..])
      && r.outcome == if d == [] then Waiting
                      else if d[0].Moved? then (if available > 0 then Done else Stopped(EndOfFile))
                      else if d[0].Expired? then Stopped(TimedOut)
                      else if d[0].PeerClosed? then Stopped(EndOfFile)
                      else Stopped(Failed)
    decreases |script|
  {
    if script != [] && script[0] == WouldBlock(true) { ReceivesExactly(available, room, script[1..]); }
  }

  lemma {:induction false} DecisiveRounds(script: seq<Round>)
    ensures var d := Decisive(script);
      MovedRounds(script) == if d != [] && d[0].Moved? then 1 + MovedRounds(d[1..]) else 0
    decreases |script|
  {
    if script != [] && script[0] == WouldBlock(true) { DecisiveRounds(script[1..]); }
  }

  /** What is unread and what is still to come after a refill of a used-up get area. */
  /** What a refill leaves, once its first character is taken. */
  lemma Refilled(before: seq<char>, script: seq<Round>, unread: seq<char>, left: seq<char>, c: Option<char>)
    requires unread + left == before
    requires var r := ReceiveSome(|before|, BUFFER_SIZE - PUTBACK_MAX, script);
      |unread| == r.count && c == if r.outcome == Done then Some(unread[0]) else None
    ensures var d := Decisive(script);
      && ReceiveSome(|before|, BUFFER_SIZE - PUTBACK_MAX, script).rest == (if d == [] then [] else d[1..])
      && if d != [] && d[0].Moved? && before != [] then
           var k := Min(d[0].n + 1, Min(|before|, BUFFER_SIZE - PUTBACK_MAX));
           c == Some(before[0]) && k == |unread| > 0 && unread[1..] == before[1..k] && left == before[k..]
           && [before[0]] + (unread[1..] + left) == before
         else
           c == None && unread == [] && left == before
  {
    hide ReceiveSome, Decisive;
    ReceivesExactly(|before|, BUFFER_SIZE - PUTBACK_MAX, script);
    assert unread == before[..|unread|] && left == before[|unread|..];
  }

  /** Each byte takes at most one round that moves bytes. */
  lemma {:induction false} EnoughRounds(pending: nat, script: seq<Round>)
    ensures var s := SendAll(pending, script);
      MovedRounds(script) >= pending ==>
        s.outcome == Done && MovedRounds(s.rest) >= MovedRounds(script) - pending
    decreases |script|
  {
    if pending > 0 && script != [] {
      match script[0]
      case Moved(n) => EnoughRounds(pending - Min(n + 1, pending), script[1..]);
      case WouldBlock(ready) => EnoughRounds(pending, script[1..]);
      case _ =>
    }
  }

  /** The script from the first round on that ends a call badly. */
  function Ending(script: seq<Round>): seq<Round> {
    if script != [] && (script[0].Moved? || script[0] == WouldBlock(true)) then Ending(script[1..]) else script
  }

  /** A flush that does not get everything out ends as that round says, and leaves the script behind it. */
  lemma {:induction false} StopsAsItEnds(pending: nat, script: seq<Round>)
    requires pending > Taken(script)
    ensures var s, d := SendAll(pending, script), Ending(script);
      && s.rest == (if d == [] then [] else d[1..])
      && s.outcome == if d == [] then Waiting
                      else if d[0].Expired? then Stopped(TimedOut)
                      else Stopped(Failed)
    decreases |script|
  {
    if script != [] {
      match script[0]
      case Moved(n) => StopsAsItEnds(pending - Min(n + 1, pending), script[1..]);
      case WouldBlock(ready) => if ready { StopsAsItEnds(pending, script[1..]); }
      case _ =>
    }
  }

  /** The bytes the socket takes before the first round that ends a call. */
  function Taken(script: seq<Round>): nat {
    if script == [] then 0
    else
      match script[0]
      case Moved(n) => n + 1 + Taken(script[1..])
      case WouldBlock(true) => Taken(script[1..])
      case _ => 0
  }

  /** A call puts on the wire what the socket takes, up to what is pending, and succeeds exactly if that is all. */
  lemma {:induction false} SendsWhatIsTaken(pending: nat, script: seq<Round>)
    ensures SendAll(pending, script).sent == Min(pending, Taken(script))
    ensures SendAll(pending, script).outcome == Done <==> pending <= Taken(script)
    decreases |script|
  {
    if pending > 0 && script != [] {
      match script[0]
      case Moved(n) => SendsWhatIsTaken(pending - Min(n + 1, pending), script[1..]);
      case WouldBlock(ready) => SendsWhatIsTaken(pending, script[1..]);
      case _ =>
    }
  }

  /** After a failed flush the put area is sent again from its start: the wire is right exactly if nothing had
  been sent. */
  lemma RetryRepeats(wire: seq<char>, pending: seq<char>, script: seq<Round>)
    requires var first := SendAll(|pending|, script);
      first.outcome != Done && SendAll(|pending|, first.rest).outcome == Done
    ensures var first := SendAll(|pending|, script); var second := SendAll(|pending|, first.rest);
      wire + pending[..first.sent] + pending[..second.sent] == wire + pending <==> Taken(script) == 0
  {
    SendsWhatIsTaken(|pending|, script);
    var first := SendAll(|pending|, script);
    assert pending[..|pending|] == pending;
    if first.sent > 0 {
      assert |wire + pending[..first.sent] + pending| != |wire + pending|;
    } else {
      assert pending[..0] == [] && wire + [] == wire;
    }
  }
}
