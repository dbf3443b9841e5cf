/**
 The whole pipeline between two clients: the queues of `internal/client/conn.go`, the wire, the
 handlers and the hub of `HubCore`, the mailboxes and their writers.
 A wire carries whole frames in order and may stop after any of them; `FrameCodec` is why.
 */
module Messenger {
  import opened HubCore
  import opened HubSafety

  const MAILBOX_CAP := 64

  datatype Writer = NotStarted | Running | Stopped

  /**
   What belongs to one connection.  Server to client: the mailbox `box`; the envelope that the
   writer goroutine is `writing`; the wire `down`; the frame that the client's reader holds;
   `incoming`; and what the UI has `seen`.  Client to server: `outgoing`; the message that the
   client's writer is `sending`; the wire `up`.
   `accepted`, `taken` and `sent` record what ever entered and left the mailbox and was passed to `Send`.
   */
  datatype Pipe = Pipe(
    box: seq<Envelope>, accepted: seq<Envelope>, taken: seq<Envelope>,
    writer: Writer, writing: seq<Envelope>,
    down: seq<Envelope>, arriving: seq<Envelope>, incoming: seq<Envelope>, seen: seq<Envelope>,
    sent: seq<Request>, outgoing: seq<Tagged>, sending: seq<Tagged>, up: seq<Tagged>,
    done: bool)

  const EMPTY := Pipe([], [], [], NotStarted, [], [], [], [], [], [], [], [], [], false)

  /** The non-blocking offer of every `select` with a default: dropped when the buffer is full. */
  function Offered(p: Pipe, env: Envelope): Pipe {
    if |p.box| < MAILBOX_CAP then p.(box := p.box + [env], accepted := p.accepted + [env]) else p
  }

  datatype PipeLabel =
    | WriterTake
    | WriterWrite
    | WriterFail
    | UiSend(req: Request)
    | UiSendAfterDone(req: Request)
    | ClientTake
    | ClientWrite
    | ClientFail
    | ClientRead
    | ClientPush
    | UiReceive
    | ClientClose

  predicate PipeEnabled(p: Pipe, l: PipeLabel) {
    match l
    case WriterTake => p.writer.Running? && p.writing == [] && p.box != []
    case WriterWrite => p.writer.Running? && p.writing != []
    case WriterFail => p.writer.Running? && p.writing != []
    case UiSend(_) => |p.outgoing| < MAILBOX_CAP
    case UiSendAfterDone(_) => p.done
    case ClientTake => p.sending == [] && p.outgoing != []
    case ClientWrite => p.sending != []
    case ClientFail => p.sending != []
    case ClientRead => p.arriving == [] && p.down != []
    case ClientPush => p.arriving != [] && |p.incoming| < MAILBOX_CAP
    case UiReceive => p.incoming != []
    case ClientClose => true
  }

  function PipeNext(p: Pipe, l: PipeLabel): Pipe
    requires PipeEnabled(p, l)
  {
    match l
    case WriterTake => p.(writing := [p.box[0]], taken := p.taken + [p.box[0]], box := p.box[1..])
    case WriterWrite => p.(down := p.down + p.writing, writing := [])
    case WriterFail => p.(writing := [], writer := Stopped)
    case UiSend(req) => p.(outgoing := p.outgoing + [Tagged(|p.sent|, req)], sent := p.sent + [req])
    case UiSendAfterDone(req) => p.(sent := p.sent + [req])
    case ClientTake => p.(sending := [p.outgoing[0]], outgoing := p.outgoing[1..])
    case ClientWrite => p.(up := p.up + p.sending, sending := [])
    case ClientFail => p.(sending := [], done := true)
    case ClientRead => p.(arriving := [p.down[0]], down := p.down[1..])
    case ClientPush => p.(incoming := p.incoming + p.arriving, arriving := [])
    case UiReceive => p.(seen := p.seen + [p.incoming[0]], incoming := p.incoming[1..])
    case ClientClose => p.(done := true)
  }

  datatype System = System(core: Core, pipes: seq<Pipe>)

  const START := System(INIT, [])

  datatype Step = Server(l: Label) | OnPipe(c: ConnId, p: PipeLabel)

  predicate CanStep(s: System, st: Step) {
    && |s.pipes| == |s.core.conns|
    && match st
       case Server(l) =>
         && Enabled(s.core, l)
         && (l.ReadFrame? ==> s.pipes[l.c].up != [] && s.pipes[l.c].up[0] == l.frame)
         && (Emits(s.core, l).Emit? ==> Emits(s.core, l).target < |s.pipes|)
       case OnPipe(c, p) => !s.core.panicked && c < |s.pipes| && PipeEnabled(s.pipes[c], p)
  }

  function PipesAfter(s: System, l: Label): seq<Pipe>
    requires CanStep(s, Server(l))
  {
    if Panics(s.core, l) then s.pipes
    else if l.Accept? then s.pipes + [EMPTY]
    else if l.StartServing? then s.pipes[l.c := s.pipes[l.c].(writer := Running)]
    else if l.ReadFrame? then s.pipes[l.c := s.pipes[l.c].(up := s.pipes[l.c].up[1..])]
    else
      var e := Emits(s.core, l);
      if e.Emit? then s.pipes[e.target := Offered(s.pipes[e.target], e.env)] else s.pipes
  }

  function After(s: System, st: Step): System
    requires CanStep(s, st)
  {
    match st
    case Server(l) => System(Next(s.core, l), PipesAfter(s, l))
    case OnPipe(c, p) => s.(pipes := s.pipes[c := PipeNext(s.pipes[c], p)])
  }

  ghost predicate SystemRun(s: System, steps: seq<Step>, t: System)
    decreases |steps|
  {
    if steps == [] then s == t else CanStep(s, steps[0]) && SystemRun(After(s, steps[0]), steps[1..], t)
  }

  // ---- conservation -------------------------------------------------------------------

  /** Everything that the writer put on the wire. */
  function Wrote(p: Pipe): seq<Envelope> {
    p.seen + p.incoming + p.arriving + p.down
  }

  /** Everything on its way to the server. */
  function Upstream(p: Pipe): seq<Tagged> {
    p.up + p.sending + p.outgoing
  }

  ghost predicate TagsOk(p: Pipe) {
    var u := Upstream(p);
    && (forall i :: 0 <= i < |u| ==> u[i].index < |p.sent| && p.sent[u[i].index] == u[i].req)
    && (forall i, j :: 0 <= i < j < |u| ==> u[i].index < u[j].index)
  }

  ghost predicate Conserved(p: Pipe) {
    && p.accepted == p.taken + p.box && |p.box| <= MAILBOX_CAP
    && Wrote(p) + p.writing <= p.taken
    && (!p.writer.Stopped? ==> p.taken == Wrote(p) + p.writing)
    && |p.writing| <= 1 && |p.arriving| <= 1 && |p.sending| <= 1
    && |p.incoming| <= MAILBOX_CAP && |p.outgoing| <= MAILBOX_CAP
  }

  /** An offer is dropped exactly when the buffer is full, and is otherwise the next envelope accepted. */
  lemma OfferConserves(p: Pipe, env: Envelope)
    requires Conserved(p) && TagsOk(p)
    ensures Conserved(Offered(p, env)) && TagsOk(Offered(p, env))
    ensures Offered(p, env).accepted == p.accepted + [env] <==> |p.box| < MAILBOX_CAP
    ensures Offered(p, env).accepted == p.accepted <==> |p.box| == MAILBOX_CAP
  {
    assert p.accepted + [env] == p.taken + (p.box + [env]);
    assert |p.accepted + [env]| != |p.accepted|;
    assert Upstream(Offered(p, env)) == Upstream(p);
  }

  lemma MailStepConserves(p: Pipe, l: PipeLabel)
    requires Conserved(p) && PipeEnabled(p, l)
    ensures Conserved(PipeNext(p, l))
    ensures PipeNext(p, l).accepted == p.accepted
  {
    var q := PipeNext(p, l);
    MailStepMoves(p, l);
    if l.WriterTake? {
      assert p.taken + p.box == q.taken + q.box;
      assert !p.writer.Stopped?;
    } else if l.WriterFail? {
      assert Wrote(p) <= Wrote(p) + p.writing;
    }
  }

  /** What one step moves on the way to the client. */
  lemma MailStepMoves(p: Pipe, l: PipeLabel)
    requires PipeEnabled(p, l)
    ensures var q := PipeNext(p, l);
            Wrote(q) + q.writing == if l.WriterTake? then Wrote(p) + [p.box[0]]
                                    else if l.WriterFail? then Wrote(p)
                                    else Wrote(p) + p.writing
  {
    if l.ClientRead? || l.ClientPush? || l.UiReceive? {
      ClientStepMoves(p, l);
    }
  }

  /** The client's end hands on what it was given. */
  lemma ClientStepMoves(p: Pipe, l: PipeLabel)
    requires PipeEnabled(p, l) && (l.ClientRead? || l.ClientPush? || l.UiReceive?)
    ensures Wrote(PipeNext(p, l)) == Wrote(p)
  {
    var q := PipeNext(p, l);
    if l.ClientRead? {
      assert p.arriving + p.down == q.arriving + q.down;
    } else if l.ClientPush? {
      assert q.incoming + q.arriving == p.incoming + p.arriving;
    } else {
      assert q.seen + q.incoming == p.seen + p.incoming;
    }
  }

  lemma SendStepKeepsTags(p: Pipe, l: PipeLabel)
    requires TagsOk(p) && PipeEnabled(p, l)
    ensures TagsOk(PipeNext(p, l))
    ensures p.sent <= PipeNext(p, l).sent
  {
    var q, u, n, k := PipeNext(p, l), Upstream(p), |p.up|, |p.sending|;
    SendStepMoves(p, l);
    if l.ClientFail? {
      TagsThinOut(p, q, n, n + k);
    } else if l.UiSend? {
      assert forall i :: 0 <= i < |u| ==> Upstream(q)[i] == u[i];
    }
  }

  /** What one step moves on the way to the server: only a new message and a failed write change the line. */
  lemma SendStepMoves(p: Pipe, l: PipeLabel)
    requires PipeEnabled(p, l)
    ensures var u, v, n := Upstream(p), Upstream(PipeNext(p, l)), |p.up|;
            if l.UiSend? then v == u + [Tagged(|p.sent|, l.req)]
            else if l.ClientFail? then v == u[..n] + u[n + |p.sending|..]
            else v == u
  {
    var q := PipeNext(p, l);
    if l.ClientTake? {
      assert p.outgoing == [p.outgoing[0]] + p.outgoing[1..];
    } else if l.ClientFail? {
      assert Upstream(q) == p.up + p.outgoing;
    }
  }

  /** Leaving some of the line out keeps it in order. */
  lemma TagsThinOut(p: Pipe, q: Pipe, i: nat, j: nat)
    requires TagsOk(p) && q.sent == p.sent && i <= j <= |Upstream(p)|
    requires Upstream(q) == Upstream(p)[..i] + Upstream(p)[j..]
    ensures TagsOk(q)
  {
    var u, v := Upstream(p), Upstream(q);
    assert forall k :: 0 <= k < |v| ==> v[k] == u[if k < i then k else k + j - i];
  }

  ghost predicate PipesOk(s: System) {
    && |s.pipes| == |s.core.conns|
    && (forall c :: 0 <= c < |s.pipes| ==> Conserved(s.pipes[c]) && TagsOk(s.pipes[c]))
    && (forall c :: 0 <= c < |s.pipes| && Early(s.core.conns[c].phase) ==> s.pipes[c].writer.NotStarted?)
  }

  predicate Early(p: Phase) {
    p == Registering || p == Greeting
  }

  /** What one server step does to the pipe of connection `c`. */
  lemma ServerStepOnPipe(s: System, l: Label, c: ConnId)
    requires CanStep(s, Server(l)) && c < |s.pipes|
    requires l == StartServing(c) ==> s.pipes[c].writer.NotStarted?
    ensures |PipesAfter(s, l)| >= |s.pipes|
    ensures Served(s.pipes[c], PipesAfter(s, l)[c])
  {
    var e := Emits(s.core, l);
    assert e.Emit? ==> PipesAfter(s, l)[c] == s.pipes[c] || PipesAfter(s, l)[c] == Offered(s.pipes[c], e.env);
  }

  /** The server leaves a pipe alone, takes a frame off its wire, starts its writer, or makes it an offer. */
  ghost predicate Served(p: Pipe, q: Pipe) {
    || q == p
    || (p.up != [] && q == p.(up := p.up[1..]))
    || (p.writer.NotStarted? && q == p.(writer := Running))
    || (exists env :: q == Offered(p, env))
  }

  lemma ServedKeepsPipe(p: Pipe, q: Pipe)
    requires Served(p, q) && Conserved(p) && TagsOk(p)
    ensures Conserved(q) && TagsOk(q) && q.sent == p.sent
  {
    if p.up != [] && q == p.(up := p.up[1..]) {
      assert Upstream(q) == Upstream(p)[..0] + Upstream(p)[1..];
      TagsThinOut(p, q, 0, 1);
    } else if q == p.(writer := Running) {
      assert Upstream(q) == Upstream(p) && Wrote(q) == Wrote(p);
    } else if q != p {
      var env :| q == Offered(p, env);
      OfferConserves(p, env);
    }
  }

  lemma ServerStepKeepsStart(s: System, l: Label)
    requires PipesOk(s) && CanStep(s, Server(l))
    ensures var t := After(s, Server(l));
            && |t.pipes| == |t.core.conns|
            && forall c :: 0 <= c < |t.pipes| && Early(t.core.conns[c].phase) ==> t.pipes[c].writer.NotStarted?
  {
    var t := After(s, Server(l));
    if !Panics(s.core, l) {
      PhasesOnlyAdvance(s.core, l);
      forall c | 0 <= c < |s.pipes| && Early(t.core.conns[c].phase) ensures t.pipes[c].writer.NotStarted? {
        assert Early(s.core.conns[c].phase);
      }
    }
  }

  /** A handler that has begun to serve never greets again. */
  lemma PhasesOnlyAdvance(s: Core, l: Label)
    requires Enabled(s, l) && !Panics(s, l)
    ensures |Next(s, l).conns| == |s.conns| + if l.Accept? then 1 else 0
    ensures forall c :: 0 <= c < |s.conns| && Early(Next(s, l).conns[c].phase) ==>
              Early(s.conns[c].phase) && !(l == StartServing(c))
  {
    if l.Act? {
      assert forall c :: 0 <= c < |s.conns| ==> Next(s, l).conns[c].phase == s.conns[c].phase;
    }
  }

  lemma StepKeepsPipes(s: System, st: Step)
    requires PipesOk(s) && CanStep(s, st)
    ensures PipesOk(After(s, st))
  {
    if st.OnPipe? {
      MailStepConserves(s.pipes[st.c], st.p);
      SendStepKeepsTags(s.pipes[st.c], st.p);
    } else {
      var t := After(s, st);
      ServerStepKeepsStart(s, st.l);
      forall c | 0 <= c < |t.pipes| ensures Conserved(t.pipes[c]) && TagsOk(t.pipes[c]) {
        if c < |s.pipes| {
          assert st.l == StartServing(c) ==> Early(s.core.conns[c].phase);
          ServerStepOnPipe(s, st.l, c);
          ServedKeepsPipe(s.pipes[c], t.pipes[c]);
        }
      }
    }
  }

  lemma {:induction false} EveryRunKeepsPipes(s: System, steps: seq<Step>, t: System)
    requires PipesOk(s) && SystemRun(s, steps, t)
    ensures PipesOk(t)
    decreases |steps|
  {
    if steps != [] {
      StepKeepsPipes(s, steps[0]);
      EveryRunKeepsPipes(After(s, steps[0]), steps[1..], t);
    }
  }

  /**
   In every run, for every connection: what its mailbox accepted is what the writer took followed by
   what is still buffered; what the client has seen, and then what is on the way, is a prefix of it;
   and nothing taken is missing while the writer runs.
   */
  lemma MailboxConservation(steps: seq<Step>, t: System, c: ConnId)
    requires SystemRun(START, steps, t) && c < |t.pipes|
    ensures var p := t.pipes[c];
            && p.accepted == p.taken + p.box && |p.box| <= MAILBOX_CAP
            && p.seen <= Wrote(p) <= p.taken <= p.accepted
            && (!p.writer.Stopped? ==> p.taken == Wrote(p) + p.writing)
  {
    EveryRunKeepsPipes(START, steps, t);
    ConservedChain(t.pipes[c]);
  }

  lemma ConservedChain(p: Pipe)
    requires Conserved(p)
    ensures p.seen <= Wrote(p) <= p.taken <= p.accepted
  {
    assert Wrote(p) == p.seen + (p.incoming + p.arriving + p.down);
    assert Wrote(p) <= Wrote(p) + p.writing;
  }

  /** The server's part of a run of the system is a run of the hub and its handlers. */
  lemma {:induction false} CoreInvInEveryRun(s: System, steps: seq<Step>, t: System)
    requires Inv(s.core) && SystemRun(s, steps, t)
    ensures Inv(t.core)
    decreases |steps|
  {
    if steps != [] {
      if steps[0].Server? {
        StepKeepsInv(s.core, steps[0].l);
      }
      CoreInvInEveryRun(After(s, steps[0]), steps[1..], t);
    }
  }

  /** The side conditions of `CanStep` on array bounds stop no step that the server could take. */
  lemma EveryServerStepCanBeTaken(steps: seq<Step>, t: System, l: Label)
    requires SystemRun(START, steps, t) && Enabled(t.core, l)
    requires l.ReadFrame? ==> l.c < |t.pipes| && t.pipes[l.c].up != [] && t.pipes[l.c].up[0] == l.frame
    ensures CanStep(t, Server(l))
  {
    EveryRunKeepsPipes(START, steps, t);
    CoreInvInEveryRun(START, steps, t);
    if l.Act? {
      assert HandlerOk(t.core.conns[l.c], t.core.book.clients);
    }
  }
}
