/**
 What happens to the offers of the server and to the messages of the clients: nothing is dropped except at
 a full mailbox, and nothing is lost on the way while the connection is up.
 */
module Mailboxes {
  import opened HubCore
  import opened Messenger

  // ---- offers ----------------------------------------------------------------------------

  /** An offer to connection `b` is accepted when fewer than 64 envelopes are buffered, and changes no other mailbox. */
  lemma OfferIsAccepted(s: System, l: Label, b: ConnId, env: Envelope)
    requires CanStep(s, Server(l)) && !Panics(s.core, l) && Emits(s.core, l) == Emit(b, env)
    ensures var t := After(s, Server(l));
            && |t.pipes| == |s.pipes| && b < |s.pipes|
            && (|s.pipes[b].box| < 64 ==>
                  t.pipes[b].box == s.pipes[b].box + [env] && t.pipes[b].accepted == s.pipes[b].accepted + [env])
            && (|s.pipes[b].box| >= 64 ==>
                  t.pipes[b].box == s.pipes[b].box && t.pipes[b].accepted == s.pipes[b].accepted)
            && (forall d :: 0 <= d < |s.pipes| && d != b ==> t.pipes[d] == s.pipes[d])
  {
  }

  /** A step that offers nothing leaves every mailbox alone; a new connection's is empty. */
  lemma NoOfferNoChange(s: System, l: Label)
    requires CanStep(s, Server(l)) && (Panics(s.core, l) || Emits(s.core, l).Nothing?)
    ensures var t := After(s, Server(l));
            && |s.pipes| <= |t.pipes|
            && (forall d :: 0 <= d < |s.pipes| ==>
                  t.pipes[d].box == s.pipes[d].box && t.pipes[d].accepted == s.pipes[d].accepted)
            && (forall d :: |s.pipes| <= d < |t.pipes| ==> t.pipes[d].box == [] && t.pipes[d].accepted == [])
  {
  }

  /** The envelopes that a step offers to `b` while its mailbox has room. */
  ghost function Fitting(s: System, st: Step, b: ConnId): seq<Envelope>
    requires CanStep(s, st)
  {
    if st.Server? && !Panics(s.core, st.l) && Emits(s.core, st.l).Emit? && Emits(s.core, st.l).target == b
       && b < |s.pipes| && |s.pipes[b].box| < 64
    then [Emits(s.core, st.l).env] else []
  }

  ghost function AllFitting(s: System, steps: seq<Step>, b: ConnId): seq<Envelope>
    decreases |steps|
  {
    if steps == [] || !CanStep(s, steps[0]) then []
    else Fitting(s, steps[0], b) + AllFitting(After(s, steps[0]), steps[1..], b)
  }

  ghost function AcceptedBy(s: System, b: ConnId): seq<Envelope> {
    if b < |s.pipes| then s.pipes[b].accepted else []
  }

  lemma StepAccepts(s: System, st: Step, b: ConnId)
    requires CanStep(s, st)
    ensures AcceptedBy(After(s, st), b) == AcceptedBy(s, b) + Fitting(s, st, b)
  {
    if st.Server? {
      if !Panics(s.core, st.l) && Emits(s.core, st.l).Emit? {
        OfferIsAccepted(s, st.l, Emits(s.core, st.l).target, Emits(s.core, st.l).env);
      } else {
        NoOfferNoChange(s, st.l);
      }
    }
  }

  lemma {:induction false} RunAccepts(s: System, steps: seq<Step>, t: System, b: ConnId)
    requires SystemRun(s, steps, t)
    ensures AcceptedBy(t, b) == AcceptedBy(s, b) + AllFitting(s, steps, b)
    decreases |steps|
  {
    if steps != [] {
      StepAccepts(s, steps[0], b);
      RunAccepts(After(s, steps[0]), steps[1..], t, b);
    }
  }

  /**
   In every run: what a mailbox has accepted is what the goroutines of the server offered to it, in order,
   less the offers that met 64 buffered envelopes.
   */
  lemma AcceptedIsWhatFitted(steps: seq<Step>, t: System, b: ConnId)
    requires SystemRun(START, steps, t) && b < |t.pipes|
    ensures t.pipes[b].accepted == AllFitting(START, steps, b)
  {
    RunAccepts(START, steps, t, b);
    NothingBefore(AllFitting(START, steps, b), b);
  }

  lemma NothingBefore(all: seq<Envelope>, b: ConnId)
    ensures AcceptedBy(START, b) + all == all
  {
  }

  // ---- to the server ------------------------------------------------------------------------

  /** The request that a step reads from connection `a`. */
  function ReadBy(st: Step, a: ConnId): seq<Request> {
    if st.Server? && st.l.ReadFrame? && st.l.c == a then [st.l.frame.req] else []
  }

  function AllReadBy(steps: seq<Step>, a: ConnId): seq<Request> {
    if steps == [] then [] else ReadBy(steps[0], a) + AllReadBy(steps[1..], a)
  }

  function Requests(ts: seq<Tagged>): seq<Request> {
    seq(|ts|, i requires 0 <= i < |ts| => ts[i].req)
  }

  /** While the connection is up, `read` and what is under way make up all that was sent. */
  ghost predicate NothingLost(s: System, a: ConnId, read: seq<Request>) {
    if a < |s.pipes| then !s.pipes[a].done ==> s.pipes[a].sent == read + Requests(Upstream(s.pipes[a]))
    else read == []
  }

  lemma PipeStepLosesNothing(p: Pipe, l: PipeLabel)
    requires PipeEnabled(p, l) && !PipeNext(p, l).done
    ensures !p.done
    ensures var q := PipeNext(p, l);
            if l.UiSend? then q.sent == p.sent + [l.req] && Requests(Upstream(q)) == Requests(Upstream(p)) + [l.req]
            else q.sent == p.sent && Upstream(q) == Upstream(p)
  {
    SendStepMoves(p, l);
  }

  lemma ReadTakesFirst(s: System, l: Label)
    requires CanStep(s, Server(l)) && l.ReadFrame? && l.c < |s.pipes| && !Panics(s.core, l)
    ensures var p, q := s.pipes[l.c], After(s, Server(l)).pipes[l.c];
            q.sent == p.sent && q.done == p.done && Requests(Upstream(p)) == [l.frame.req] + Requests(Upstream(q))
  {
    var p, q := s.pipes[l.c], After(s, Server(l)).pipes[l.c];
    assert Upstream(p) == [l.frame] + Upstream(q);
  }

  lemma StepLosesNothing(s: System, st: Step, a: ConnId, read: seq<Request>, now: seq<Request>)
    requires CanStep(s, st) && NothingLost(s, a, read) && now == read + ReadBy(st, a)
    ensures NothingLost(After(s, st), a, now)
  {
    var t := After(s, st);
    if st.OnPipe? {
      assert now == read;
      if st.c == a && !t.pipes[a].done {
        PipeStepLosesNothing(s.pipes[a], st.p);
      }
    } else if st.l.ReadFrame? && st.l.c == a {
      ReadTakesFirst(s, st.l);
    } else {
      assert now == read;
      if a < |s.pipes| { assert Upstream(t.pipes[a]) == Upstream(s.pipes[a]); }
    }
  }

  lemma {:induction false} RunLosesNothing(s: System, steps: seq<Step>, t: System, a: ConnId, read: seq<Request>)
    requires SystemRun(s, steps, t) && NothingLost(s, a, read)
    ensures NothingLost(t, a, read + AllReadBy(steps, a))
    decreases |steps|
  {
    if steps == [] {
      assert read + AllReadBy(steps, a) == read;
    } else {
      var now := read + ReadBy(steps[0], a);
      StepLosesNothing(s, steps[0], a, read, now);
      RunLosesNothing(After(s, steps[0]), steps[1..], t, a, now);
      Regroup(read, ReadBy(steps[0], a), AllReadBy(steps[1..], a));
    }
  }

  lemma Regroup(a: seq<Request>, b: seq<Request>, c: seq<Request>)
    ensures (a + b) + c == a + (b + c)
  {
  }

  /**
   In every run: while a client's connection is up, what it passed to `Send` is exactly what its handler has read,
   in order, followed by what is still on the way.
   */
  lemma SentIsReadOrUnderWay(steps: seq<Step>, t: System, a: ConnId)
    requires SystemRun(START, steps, t) && a < |t.pipes| && !t.pipes[a].done
    ensures t.pipes[a].sent == AllReadBy(steps, a) + Requests(Upstream(t.pipes[a]))
  {
    RunLosesNothing(START, steps, t, a, []);
    assert [] + AllReadBy(steps, a) == AllReadBy(steps, a);
  }

  // ---- nothing gets stuck ----------------------------------------------------------------------

  ghost predicate PipeRun(p: Pipe, ls: seq<PipeLabel>, q: Pipe)
    decreases |ls|
  {
    if ls == [] then p == q else PipeEnabled(p, ls[0]) && PipeRun(PipeNext(p, ls[0]), ls[1..], q)
  }

  lemma PipeThen(p: Pipe, l: PipeLabel, ls: seq<PipeLabel>, q: Pipe) returns (all: seq<PipeLabel>)
    requires PipeEnabled(p, l) && PipeRun(PipeNext(p, l), ls, q)
    ensures PipeRun(p, all, q)
  {
    all := [l] + ls;
    assert all[0] == l && all[1..] == ls;
  }

  function MailAhead(p: Pipe): nat {
    5 * |p.box| + 4 * |p.writing| + 3 * |p.down| + 2 * |p.arriving| + |p.incoming|
  }

  /** While the writer runs, the goroutines of one connection can bring all that was accepted to the UI. */
  lemma {:induction false} AllCanArrive(p: Pipe) returns (ls: seq<PipeLabel>, q: Pipe)
    requires Conserved(p) && p.writer.Running?
    ensures PipeRun(p, ls, q) && q.seen == p.accepted
    decreases MailAhead(p)
  {
    if MailAhead(p) == 0 {
      assert p.accepted == p.seen;
      ls, q := [], p;
    } else {
      var l :=
        if p.incoming != [] then UiReceive
        else if p.arriving != [] then ClientPush
        else if p.down != [] then ClientRead
        else if p.writing != [] then WriterWrite
        else WriterTake;
      MailStepConserves(p, l);
      ls, q := AllCanArrive(PipeNext(p, l));
      ls := PipeThen(p, l, ls, q);
    }
  }

  /** Its writer can bring all that was sent onto the wire, and the UI can send again. */
  lemma {:induction false} AllCanLeave(p: Pipe) returns (ls: seq<PipeLabel>, q: Pipe)
    ensures PipeRun(p, ls, q) && q.up == Upstream(p)
    ensures forall req :: PipeEnabled(q, UiSend(req))
    decreases 2 * |p.outgoing| + |p.sending|
  {
    if p.sending == [] && p.outgoing == [] {
      ls, q := [], p;
    } else {
      var l := if p.sending != [] then ClientWrite else ClientTake;
      SendStepMoves(p, l);
      ls, q := AllCanLeave(PipeNext(p, l));
      ls := PipeThen(p, l, ls, q);
    }
  }

  /** A client's `Send` waits exactly while 64 messages are queued and the connection is up. */
  lemma SendWaitsExactlyWhen(p: Pipe, req: Request)
    requires Conserved(p)
    ensures !PipeEnabled(p, UiSend(req)) && !PipeEnabled(p, UiSendAfterDone(req)) <==> |p.outgoing| == 64 && !p.done
  {
  }

  /** Wherever a write can succeed it can fail, and the UI can close the connection at any time. */
  lemma AnyWriteCanFail(p: Pipe)
    ensures PipeEnabled(p, WriterFail) <==> PipeEnabled(p, WriterWrite)
    ensures PipeEnabled(p, ClientFail) <==> PipeEnabled(p, ClientWrite)
    ensures PipeEnabled(p, ClientClose)
  {
  }

  /** Once the UI has closed the connection, `Send` never waits again. */
  lemma {:induction false} ClosedForGood(p: Pipe, ls: seq<PipeLabel>, q: Pipe)
    requires PipeRun(PipeNext(p, ClientClose), ls, q)
    ensures forall req :: PipeEnabled(q, UiSendAfterDone(req))
  {
    DoneStays(PipeNext(p, ClientClose), ls, q);
  }

  lemma {:induction false} DoneStays(p: Pipe, ls: seq<PipeLabel>, q: Pipe)
    requires PipeRun(p, ls, q) && p.done
    ensures q.done
    decreases |ls|
  {
    if ls != [] {
      DoneStays(PipeNext(p, ls[0]), ls[1..], q);
    }
  }

  /** The writer has been started exactly when the handler has begun to serve. */
  ghost predicate WritersStarted(s: System) {
    && |s.pipes| == |s.core.conns|
    && forall c :: 0 <= c < |s.pipes| ==> (s.pipes[c].writer.NotStarted? <==> Early(s.core.conns[c].phase))
  }

  lemma StepKeepsWriters(s: System, st: Step)
    requires WritersStarted(s) && CanStep(s, st)
    ensures WritersStarted(After(s, st))
  {
    if st.Server? && !Panics(s.core, st.l) {
      var l, t := st.l, After(s, st);
      forall c | 0 <= c < |s.pipes|
        ensures t.pipes[c].writer.NotStarted? <==> Early(t.core.conns[c].phase)
      {
        PhaseAndWriter(s, l, c);
      }
    }
  }

  lemma PhaseAndWriter(s: System, l: Label, c: ConnId)
    requires CanStep(s, Server(l)) && !Panics(s.core, l) && c < |s.pipes|
    ensures var t := After(s, Server(l));
            && c < |t.pipes| && c < |t.core.conns|
            && (Early(t.core.conns[c].phase) <==> Early(s.core.conns[c].phase) && l != StartServing(c))
            && (t.pipes[c].writer.NotStarted? <==> s.pipes[c].writer.NotStarted? && l != StartServing(c))
  {
  }

  /** In every run the writer of a connection has been started iff its handler has begun to serve. */
  lemma {:induction false} EveryRunKeepsWriters(s: System, steps: seq<Step>, t: System)
    requires WritersStarted(s) && SystemRun(s, steps, t)
    ensures WritersStarted(t)
    decreases |steps|
  {
    if steps != [] {
      StepKeepsWriters(s, steps[0]);
      EveryRunKeepsWriters(After(s, steps[0]), steps[1..], t);
    }
  }

  lemma WriterStartsWithServing(steps: seq<Step>, t: System, c: ConnId)
    requires SystemRun(START, steps, t) && c < |t.pipes|
    ensures |t.pipes| == |t.core.conns|
    ensures t.pipes[c].writer.NotStarted? <==> t.core.conns[c].phase == Registering || t.core.conns[c].phase == Greeting
  {
    EveryRunKeepsWriters(START, steps, t);
  }
}
