/** Direct messages arrive in the order in which they were sent, once, unchanged, and from whom they say. */
module DeliveryOrder {
  import opened ConversationKeys
  import opened HubHistory
  import opened HubCore
  import opened HubSafety
  import opened Messenger

  // ---- where the messages of connection `a` are -------------------------------------

  function Directs(es: seq<Envelope>, a: ConnId): seq<nat> {
    if es == [] then []
    else (if es[0].Direct? && es[0].origin.conn == a then [es[0].origin.index] else []) + Directs(es[1..], a)
  }

  function Routes(rs: seq<Routed>, a: ConnId): seq<nat> {
    if rs == [] then []
    else (if rs[0].origin.conn == a then [rs[0].origin.index] else []) + Routes(rs[1..], a)
  }

  function ToRoute(todo: seq<Action>, a: ConnId): seq<nat> {
    if todo == [] then []
    else (if todo[0].Route? && todo[0].origin.conn == a then [todo[0].origin.index] else []) + ToRoute(todo[1..], a)
  }

  function Indices(ts: seq<Tagged>): seq<nat> {
    if ts == [] then [] else [ts[0].index] + Indices(ts[1..])
  }

  function AtHub(hub: HubPc, a: ConnId): seq<nat> {
    if (hub.Routing? || hub.Looking? || hub.Delivering?) && hub.origin.conn == a then [hub.origin.index] else []
  }

  /**
   All messages of connection `a` that the mailbox of `b` has accepted or may yet accept, by stage:
   that mailbox, the hub, the hub's queue, the handler of `a`, the way up from the client of `a`.
   */
  datatype Stages = Stages(mail: seq<nat>, hub: seq<nat>, queue: seq<nat>, todo: seq<nat>, up: seq<nat>)

  function StagesOf(s: System, a: ConnId, b: ConnId): Stages
    requires a < |s.pipes| && |s.pipes| == |s.core.conns|
  {
    Stages(
      Directs(if b < |s.pipes| then s.pipes[b].accepted else [], a),
      AtHub(s.core.hub, a), Routes(s.core.routeQ, a), ToRoute(s.core.conns[a].todo, a),
      Indices(Upstream(s.pipes[a])))
  }

  function Line(g: Stages): seq<nat> {
    g.mail + g.hub + g.queue + g.todo + g.up
  }

  ghost predicate Rising(s: seq<nat>) {
    forall i, j :: 0 <= i < j < |s| ==> s[i] < s[j]
  }

  ghost predicate Below(s: seq<nat>, n: nat) {
    forall i :: 0 <= i < |s| ==> s[i] < n
  }

  /** In line, the oldest first, and all of them sent. */
  ghost predicate InLine(g: Stages, n: nat) {
    Rising(Line(g)) && Below(Line(g), n)
  }

  // ---- lists --------------------------------------------------------------------------

  lemma {:induction false} DirectsConcat(x: seq<Envelope>, y: seq<Envelope>, a: ConnId)
    ensures Directs(x + y, a) == Directs(x, a) + Directs(y, a)
  {
    if x == [] {
      assert x + y == y;
    } else {
      assert (x + y)[0] == x[0] && (x + y)[1..] == x[1..] + y;
      DirectsConcat(x[1..], y, a);
    }
  }

  lemma {:induction false} RoutesConcat(x: seq<Routed>, y: seq<Routed>, a: ConnId)
    ensures Routes(x + y, a) == Routes(x, a) + Routes(y, a)
  {
    if x == [] {
      assert x + y == y;
    } else {
      assert (x + y)[0] == x[0] && (x + y)[1..] == x[1..] + y;
      RoutesConcat(x[1..], y, a);
    }
  }

  lemma {:induction false} ToRouteConcat(x: seq<Action>, y: seq<Action>, a: ConnId)
    ensures ToRoute(x + y, a) == ToRoute(x, a) + ToRoute(y, a)
  {
    if x == [] {
      assert x + y == y;
    } else {
      assert (x + y)[0] == x[0] && (x + y)[1..] == x[1..] + y;
      ToRouteConcat(x[1..], y, a);
    }
  }

  lemma {:induction false} IndicesConcat(x: seq<Tagged>, y: seq<Tagged>)
    ensures Indices(x + y) == Indices(x) + Indices(y)
  {
    if x == [] {
      assert x + y == y;
    } else {
      assert (x + y)[0] == x[0] && (x + y)[1..] == x[1..] + y;
      IndicesConcat(x[1..], y);
    }
  }

  lemma {:induction false} NoRoutes(todo: seq<Action>, a: ConnId)
    requires forall i :: 0 <= i < |todo| ==> !todo[i].Route?
    ensures ToRoute(todo, a) == []
  {
    if todo != [] {
      NoRoutes(todo[1..], a);
    }
  }

  /** What the script of request `i` will route: that request's message, or nothing. */
  lemma ScriptRoutes(user: Name, o: Origin, req: Request, out: Outcome)
    ensures ToRoute(Script(user, o, req, out), o.conn) == []
            || ToRoute(Script(user, o, req, out), o.conn) == [o.index]
  {
    var todo := Script(user, o, req, out);
    if req.SendMsg? && out.Served? {
      var rest := todo[1..];
      assert rest == [todo[1]] && rest[1..] == [];
      assert ToRoute(rest, o.conn) == [o.index] + ToRoute(rest[1..], o.conn);
      assert ToRoute(todo, o.conn) == ToRoute(rest, o.conn);
    } else {
      NoRoutes(todo, o.conn);
    }
  }

  // ---- moves between stages keep the line ------------------------------------------------

  /** Whatever is left out of a line, the rest is in line. */
  lemma LeftOut(x: seq<nat>, y: seq<nat>, z: seq<nat>, n: nat)
    requires Rising(x + y + z) && Below(x + y + z, n)
    ensures Rising(x + z) && Below(x + z, n)
  {
    var s, t := x + y + z, x + z;
    assert forall i :: 0 <= i < |t| ==> t[i] == s[if i < |x| then i else i + |y|];
  }

  lemma NewlySent(g: Stages, n: nat)
    requires InLine(g, n)
    ensures InLine(g.(up := g.up + [n]), n + 1)
  {
    assert Line(g.(up := g.up + [n])) == Line(g) + [n];
  }

  lemma LostOnTheWayUp(g: Stages, x: seq<nat>, y: seq<nat>, z: seq<nat>, n: nat)
    requires InLine(g, n) && g.up == x + y + z
    ensures InLine(g.(up := x + z), n)
  {
    var front := g.mail + g.hub + g.queue + g.todo + x;
    assert Line(g) == front + y + z;
    assert Line(g.(up := x + z)) == front + z;
    LeftOut(front, y, z, n);
  }

  lemma ReadFromTheWire(g: Stages, i: nat, rest: seq<nat>, r: seq<nat>, n: nat)
    requires InLine(g, n) && g.up == [i] + rest && g.todo == []
    requires r == [] || r == [i]
    ensures InLine(g.(up := rest, todo := r), n)
  {
    var front := g.mail + g.hub + g.queue;
    assert Line(g) == front + [i] + rest;
    assert Line(g.(up := rest, todo := r)) == front + r + rest;
    if r == [] {
      LeftOut(front, [i], rest, n);
      assert front + r + rest == front + rest;
    }
  }

  lemma QueuedForTheHub(g: Stages, r: seq<nat>, rest: seq<nat>, n: nat)
    requires InLine(g, n) && g.todo == r + rest
    ensures InLine(g.(queue := g.queue + r, todo := rest), n)
  {
    assert Line(g.(queue := g.queue + r, todo := rest)) == Line(g);
  }

  lemma TakenByTheHub(g: Stages, r: seq<nat>, rest: seq<nat>, h: seq<nat>, n: nat)
    requires InLine(g, n) && g.hub == [] && g.queue == r + rest
    requires h == [] || h == r
    ensures InLine(g.(hub := h, queue := rest), n)
  {
    var back := rest + g.todo + g.up;
    assert Line(g) == g.mail + r + back;
    assert Line(g.(hub := h, queue := rest)) == g.mail + h + back;
    if h == [] {
      LeftOut(g.mail, r, back, n);
      assert g.mail + h + back == g.mail + back;
    }
  }

  lemma OfferedByTheHub(g: Stages, kept: bool, n: nat)
    requires InLine(g, n)
    ensures InLine(g.(hub := [], mail := if kept then g.mail + g.hub else g.mail), n)
  {
    var back := g.queue + g.todo + g.up;
    assert Line(g) == g.mail + g.hub + back;
    var g' := g.(hub := [], mail := if kept then g.mail + g.hub else g.mail);
    assert Line(g') == g'.mail + back;
    if !kept {
      LeftOut(g.mail, g.hub, back, n);
    }
  }

  // ---- what the messages say ---------------------------------------------------------------

  /** The message is the request it came from, word for word, under its sender's authenticated name. */
  ghost predicate Genuine(s: System, m: RecvMsg, o: Origin)
    requires |s.pipes| == |s.core.conns|
  {
    && o.conn < |s.pipes| && o.index < |s.pipes[o.conn].sent|
    && s.pipes[o.conn].sent[o.index] == SendMsg(m.toUser, m.toGroup, m.content, m.replyToId)
    && m.fromUser == s.core.conns[o.conn].user
  }

  ghost predicate ActionGenuine(s: System, c: ConnId, a: Action)
    requires |s.pipes| == |s.core.conns|
  {
    && (a.Route? ==> a.origin.conn == c && Genuine(s, a.msg, a.origin))
    && (a.OwnOffer? && a.env.Direct? ==> a.env.origin.conn == c && Genuine(s, a.env.msg, a.env.origin))
  }

  /** What a mailbox accepts from another connection was addressed to the mailbox's user. */
  ghost predicate EnvelopeGenuine(s: System, b: ConnId, e: Envelope)
    requires |s.pipes| == |s.core.conns| && b < |s.pipes|
  {
    e.Direct? ==> Genuine(s, e.msg, e.origin) && (e.origin.conn != b ==> e.msg.toUser == s.core.conns[b].user)
  }

  ghost predicate AllGenuine(s: System) {
    && |s.pipes| == |s.core.conns|
    && (forall c, i :: 0 <= c < |s.pipes| && 0 <= i < |s.core.conns[c].todo| ==>
          ActionGenuine(s, c, s.core.conns[c].todo[i]))
    && (forall i :: 0 <= i < |s.core.routeQ| ==> Genuine(s, s.core.routeQ[i].msg, s.core.routeQ[i].origin))
    && HubGenuine(s)
    && (forall b, i :: 0 <= b < |s.pipes| && 0 <= i < |s.pipes[b].accepted| ==>
          EnvelopeGenuine(s, b, s.pipes[b].accepted[i]))
  }

  ghost predicate HubGenuine(s: System)
    requires |s.pipes| == |s.core.conns|
  {
    s.core.hub.Routing? || s.core.hub.Looking? || s.core.hub.Delivering? ==>
      Genuine(s, s.core.hub.msg, s.core.hub.origin)
  }

  /** The step of the server is `l`, and leads to `t`. */
  ghost predicate Moves(s: System, l: Label, t: System) {
    CanStep(s, Server(l)) && !Panics(s.core, l) && t.core == Next(s.core, l) && t.pipes == PipesAfter(s, l)
  }

  /** Connections keep their user, and what was sent stays sent. */
  ghost predicate Grown(s: System, t: System) {
    && |s.pipes| == |s.core.conns| && |t.pipes| == |t.core.conns| && |s.pipes| <= |t.pipes|
    && forall c :: 0 <= c < |s.pipes| ==>
          t.core.conns[c].user == s.core.conns[c].user && s.pipes[c].sent <= t.pipes[c].sent
  }

  lemma ServerStepGrows(s: System, l: Label, t: System)
    requires Moves(s, l, t)
    ensures Grown(s, t)
  {
    UsersStay(s.core, l);
    SentStays(s, l, t);
  }

  lemma SentStays(s: System, l: Label, t: System)
    requires Moves(s, l, t)
    ensures |t.pipes| == |t.core.conns| && |s.pipes| <= |t.pipes|
    ensures forall c :: 0 <= c < |s.pipes| ==> t.pipes[c].sent == s.pipes[c].sent
  {
  }

  lemma UsersStay(s: Core, l: Label)
    requires Enabled(s, l)
    ensures |s.conns| <= |Next(s, l).conns|
    ensures forall c :: 0 <= c < |s.conns| ==> Next(s, l).conns[c].user == s.conns[c].user
  {
  }

  lemma GenuineStays(s: System, t: System)
    requires Grown(s, t)
    ensures forall m, o :: Genuine(s, m, o) ==> Genuine(t, m, o)
  {
  }

  /** The script of a request that came up the wire is genuine. */
  lemma ScriptGenuine(s: System, c: ConnId, frame: Tagged, out: Outcome, i: nat)
    requires |s.pipes| == |s.core.conns| && c < |s.pipes|
    requires frame.index < |s.pipes[c].sent| && s.pipes[c].sent[frame.index] == frame.req
    requires i < |Script(s.core.conns[c].user, Origin(c, frame.index), frame.req, out)|
    ensures ActionGenuine(s, c, Script(s.core.conns[c].user, Origin(c, frame.index), frame.req, out)[i])
  {
    if !frame.req.SendMsg? {
      OtherScriptsSendNothing(s.core.conns[c].user, Origin(c, frame.index), frame.req, out);
    }
  }

  /** Actions that neither echo nor route a direct message. */
  ghost predicate Silent(todo: seq<Action>) {
    forall i :: 0 <= i < |todo| ==> !todo[i].Route? && !(todo[i].OwnOffer? && todo[i].env.Direct?)
  }

  lemma OtherScriptsSendNothing(user: Name, o: Origin, req: Request, out: Outcome)
    requires !req.SendMsg?
    ensures Silent(Script(user, o, req, out))
  {
    if out.Served? {
      NoticesAreSilent(out.members);
      NoticesAreSilent(out.members + [user]);
    }
    if req.CreateGroup? {
      NoticesAreSilent(req.members + [user]);
    }
  }

  lemma NoticesAreSilent(members: seq<Name>)
    ensures Silent(NotifyGroupMembers(members)) && Silent(BroadcastSystemMsg(members))
  {
  }

  ghost predicate TodoGenuine(s: System, c: ConnId, todo: seq<Action>)
    requires |s.pipes| == |s.core.conns|
  {
    forall i :: 0 <= i < |todo| ==> ActionGenuine(s, c, todo[i])
  }

  /** What changes in the hands of a handler is what it took from a genuine place. */
  lemma HandlersStayGenuine(s: System, l: Label, t: System, c: ConnId)
    requires PipesOk(s) && Moves(s, l, t) && c < |s.pipes| && TodoGenuine(s, c, s.core.conns[c].todo)
    ensures c < |t.core.conns| && TodoGenuine(s, c, t.core.conns[c].todo)
  {
    var now := t.core.conns[c].todo;
    if l.ReadFrame? && l.c == c {
      assert Upstream(s.pipes[c])[0] == l.frame;
      assert TagsOk(s.pipes[c]);
      forall i | 0 <= i < |now| ensures ActionGenuine(s, c, now[i]) {
        ScriptGenuine(s, c, l.frame, l.out, i);
      }
    } else if l.Act? && l.c == c {
      ActGenuine(s, l, t, c);
    }
  }

  lemma ActGenuine(s: System, l: Label, t: System, c: ConnId)
    requires Moves(s, l, t) && l.Act? && l.c == c && TodoGenuine(s, c, s.core.conns[c].todo)
    ensures TodoGenuine(s, c, t.core.conns[c].todo)
  {
    var was, now := s.core.conns[c].todo, t.core.conns[c].todo;
    var k := |now| - |was|;
    forall i | 0 <= i < |now| ensures ActionGenuine(s, c, now[i]) {
      if now[i].Route? || now[i].OwnOffer? {
        assert now[i] == was[i - k];
      }
    }
  }

  lemma HubStaysGenuine(s: System, l: Label, t: System)
    requires AllGenuine(s) && Moves(s, l, t)
    ensures forall i :: 0 <= i < |t.core.routeQ| ==> Genuine(s, t.core.routeQ[i].msg, t.core.routeQ[i].origin)
    ensures var h := t.core.hub; h.Routing? || h.Looking? || h.Delivering? ==> Genuine(s, h.msg, h.origin)
  {
    if l.Act? {
      assert ActionGenuine(s, l.c, s.core.conns[l.c].todo[0]);
    }
  }

  /** An envelope newly accepted comes from the hub, for this user, or is the handler's own. */
  lemma AcceptedStaysGenuine(s: System, l: Label, t: System, b: ConnId, i: nat)
    requires AllGenuine(s) && Inv(s.core) && Moves(s, l, t)
    requires b < |s.pipes| && b < |t.pipes| && i < |t.pipes[b].accepted|
    ensures EnvelopeGenuine(s, b, t.pipes[b].accepted[i])
  {
    if i < |s.pipes[b].accepted| {
      assert t.pipes[b].accepted[i] == s.pipes[b].accepted[i];
    } else {
      assert Emits(s.core, l) == Emit(b, t.pipes[b].accepted[i]);
      if l.Act? {
        assert HandlerOk(s.core.conns[l.c], s.core.book.clients);
        assert ActionGenuine(s, l.c, s.core.conns[l.c].todo[0]);
      }
    }
  }

  lemma ServerStepKeepsGenuine(s: System, l: Label, t: System)
    requires PipesOk(s) && AllGenuine(s) && Inv(s.core) && Moves(s, l, t)
    ensures AllGenuine(t)
  {
    ServerStepGrows(s, l, t);
    GenuineStays(s, t);
    HubStaysGenuine(s, l, t);
    NewcomerIsEmpty(s, l, t);
    forall c, i | 0 <= c < |t.pipes| && 0 <= i < |t.core.conns[c].todo|
      ensures ActionGenuine(t, c, t.core.conns[c].todo[i])
    {
      if c < |s.pipes| {
        HandlersStayGenuine(s, l, t, c);
        assert ActionGenuine(s, c, t.core.conns[c].todo[i]);
      }
    }
    forall b, i | 0 <= b < |t.pipes| && 0 <= i < |t.pipes[b].accepted|
      ensures EnvelopeGenuine(t, b, t.pipes[b].accepted[i])
    {
      if b < |s.pipes| {
        AcceptedStaysGenuine(s, l, t, b, i);
      }
    }
  }

  lemma NewcomerIsEmpty(s: System, l: Label, t: System)
    requires Moves(s, l, t)
    ensures |t.pipes| == |t.core.conns|
    ensures forall c :: |s.pipes| <= c < |t.pipes| ==>
              l.Accept? && c == |s.pipes| && t.pipes[c] == EMPTY && t.core.conns[c].todo == []
  {
  }

  lemma PipeStepGrows(s: System, c: ConnId, p: PipeLabel, t: System)
    requires CanStep(s, OnPipe(c, p)) && t == After(s, OnPipe(c, p))
    ensures Grown(s, t) && t.core == s.core && |t.pipes| == |s.pipes|
    ensures forall b :: 0 <= b < |s.pipes| ==> t.pipes[b].accepted == s.pipes[b].accepted
  {
  }

  lemma PipeStepKeepsGenuine(s: System, c: ConnId, p: PipeLabel, t: System)
    requires AllGenuine(s) && CanStep(s, OnPipe(c, p)) && t == After(s, OnPipe(c, p))
    ensures AllGenuine(t)
  {
    PipeStepGrows(s, c, p, t);
    GenuineStays(s, t);
    forall c, i | 0 <= c < |t.pipes| && 0 <= i < |t.core.conns[c].todo|
      ensures ActionGenuine(t, c, t.core.conns[c].todo[i])
    {
      assert ActionGenuine(s, c, s.core.conns[c].todo[i]);
    }
    forall b, i | 0 <= b < |t.pipes| && 0 <= i < |t.pipes[b].accepted|
      ensures EnvelopeGenuine(t, b, t.pipes[b].accepted[i])
    {
      assert EnvelopeGenuine(s, b, s.pipes[b].accepted[i]);
    }
  }

  lemma PanicKeepsGenuine(s: System, t: System)
    requires AllGenuine(s) && t == s.(core := s.core.(panicked := true))
    ensures AllGenuine(t)
  {
    GenuineStays(s, t);
    forall c, i | 0 <= c < |t.pipes| && 0 <= i < |t.core.conns[c].todo|
      ensures ActionGenuine(t, c, t.core.conns[c].todo[i])
    {
      assert ActionGenuine(s, c, s.core.conns[c].todo[i]);
    }
    forall b, i | 0 <= b < |t.pipes| && 0 <= i < |t.pipes[b].accepted|
      ensures EnvelopeGenuine(t, b, t.pipes[b].accepted[i])
    {
      assert EnvelopeGenuine(s, b, s.pipes[b].accepted[i]);
    }
  }

  // ---- the order ----------------------------------------------------------------------------

  /** The handler that moves keeps the lock discipline, and its next action is genuine. */
  ghost predicate ActorOk(s: System, l: Label) {
    OfHandler(l) && l.c < |s.core.conns| && |s.pipes| == |s.core.conns| ==>
      var h := s.core.conns[l.c];
      HandlerOk(h, s.core.book.clients) && (h.todo != [] ==> ActionGenuine(s, l.c, h.todo[0]))
  }

  ghost predicate FlowOk(s: System, a: ConnId, b: ConnId) {
    && a < |s.pipes| && |s.pipes| == |s.core.conns|
    && InLine(StagesOf(s, a, b), |s.pipes[a].sent|)
  }

  /** What a step of a client does to the stages: something is sent, something is lost, or nothing moves. */
  lemma PipeMoves(s: System, c: ConnId, p: PipeLabel, t: System, a: ConnId, b: ConnId)
    requires CanStep(s, OnPipe(c, p)) && t == After(s, OnPipe(c, p)) && a < |s.pipes|
    ensures |t.pipes| == |s.pipes| == |t.core.conns| && |s.pipes[a].sent| <= |t.pipes[a].sent|
    ensures var g, g', q := StagesOf(s, a, b), StagesOf(t, a, b), s.pipes[a];
            if c == a && p.UiSend? then g' == g.(up := g.up + [|q.sent|]) && |t.pipes[a].sent| == |q.sent| + 1
            else if c == a && p.ClientFail? then
              g.up == Indices(q.up) + Indices(q.sending) + Indices(q.outgoing)
              && g' == g.(up := Indices(q.up) + Indices(q.outgoing))
            else g' == g
  {
    if c == a {
      UpstreamAfter(s.pipes[a], p);
    }
  }

  lemma PipeStepKeepsFlow(s: System, c: ConnId, p: PipeLabel, t: System, a: ConnId, b: ConnId)
    requires CanStep(s, OnPipe(c, p)) && t == After(s, OnPipe(c, p)) && FlowOk(s, a, b)
    ensures FlowOk(t, a, b)
  {
    PipeMoves(s, c, p, t, a, b);
    var g, q := StagesOf(s, a, b), s.pipes[a];
    if c == a && p.UiSend? {
      NewlySent(g, |q.sent|);
    } else if c == a && p.ClientFail? {
      LostOnTheWayUp(g, Indices(q.up), Indices(q.sending), Indices(q.outgoing), |q.sent|);
    }
  }

  lemma UpstreamAfter(q: Pipe, p: PipeLabel)
    requires PipeEnabled(q, p)
    ensures var up, up' := Indices(Upstream(q)), Indices(Upstream(PipeNext(q, p)));
            && (p.UiSend? ==> up' == up + [|q.sent|])
            && (p.ClientFail? ==> up == Indices(q.up) + Indices(q.sending) + Indices(q.outgoing)
                                  && up' == Indices(q.up) + Indices(q.outgoing))
            && (!p.UiSend? && !p.ClientFail? ==> up' == up)
  {
    SendStepMoves(q, p);
    if p.UiSend? {
      var item := [Tagged(|q.sent|, p.req)];
      IndicesConcat(Upstream(q), item);
      assert item[1..] == [];
    } else if p.ClientFail? {
      IndicesAfterFailure(q, p);
    }
  }

  lemma IndicesAfterFailure(q: Pipe, p: PipeLabel)
    requires PipeEnabled(q, p) && p.ClientFail?
    ensures Indices(Upstream(q)) == Indices(q.up) + Indices(q.sending) + Indices(q.outgoing)
    ensures Indices(Upstream(PipeNext(q, p))) == Indices(q.up) + Indices(q.outgoing)
  {
    IndicesConcat(q.up + q.sending, q.outgoing);
    IndicesConcat(q.up, q.sending);
    assert Upstream(PipeNext(q, p)) == q.up + q.outgoing;
    IndicesConcat(q.up, q.outgoing);
  }

  /** The read loop takes the first message up the wire, and routes it or not. */
  lemma ReadMoves(s: System, l: Label, t: System, a: ConnId, b: ConnId)
    requires Moves(s, l, t) && l.ReadFrame? && a < |s.pipes|
    ensures |t.pipes| == |s.pipes| == |t.core.conns| && t.pipes[a].sent == s.pipes[a].sent
    ensures l.c != a ==> StagesOf(t, a, b) == StagesOf(s, a, b)
    ensures l.c == a ==>
              var g, g' := StagesOf(s, a, b), StagesOf(t, a, b);
              && g.up == [l.frame.index] + g'.up && g.todo == []
              && (g'.todo == [] || g'.todo == [l.frame.index])
              && g' == g.(up := g'.up, todo := g'.todo)
  {
    if l.c == a {
      ScriptRoutes(s.core.conns[a].user, Origin(a, l.frame.index), l.frame.req, l.out);
      var rest := Upstream(t.pipes[a]);
      assert Upstream(s.pipes[a]) == [l.frame] + rest;
      IndicesConcat([l.frame], rest);
      assert [l.frame][1..] == [];
    }
  }

  lemma ReadKeepsFlow(s: System, l: Label, t: System, a: ConnId, b: ConnId)
    requires Moves(s, l, t) && l.ReadFrame? && FlowOk(s, a, b)
    ensures FlowOk(t, a, b)
  {
    ReadMoves(s, l, t, a, b);
    var g, g' := StagesOf(s, a, b), StagesOf(t, a, b);
    if l.c == a {
      ReadFromTheWire(g, l.frame.index, g'.up, g'.todo, |s.pipes[a].sent|);
    }
  }

  /** The hub takes the first of its queue, and drops it if it is addressed to no user. */
  lemma HubTakeMoves(s: System, t: System, a: ConnId, b: ConnId) returns (r: seq<nat>)
    requires Moves(s, HubTakeRoute, t) && a < |s.pipes|
    ensures |t.pipes| == |s.pipes| == |t.core.conns| && t.pipes[a].sent == s.pipes[a].sent
    ensures var g, g' := StagesOf(s, a, b), StagesOf(t, a, b);
            && g.hub == [] && g.queue == r + g'.queue && (g'.hub == [] || g'.hub == r)
            && g' == g.(hub := g'.hub, queue := g'.queue)
  {
    var first := s.core.routeQ[0];
    r := if first.origin.conn == a then [first.origin.index] else [];
    assert t.pipes == s.pipes && t.core.conns == s.core.conns;
    assert Routes(s.core.routeQ, a) == r + Routes(t.core.routeQ, a);
  }

  lemma HubTakesFlow(s: System, t: System, a: ConnId, b: ConnId)
    requires Moves(s, HubTakeRoute, t) && FlowOk(s, a, b)
    ensures FlowOk(t, a, b)
  {
    var r := HubTakeMoves(s, t, a, b);
    var g' := StagesOf(t, a, b);
    TakenByTheHub(StagesOf(s, a, b), r, g'.queue, g'.hub, |s.pipes[a].sent|);
  }

  /** The hub's offer moves its message into the mailbox, or it is lost. */
  lemma DeliveryMoves(s: System, t: System, a: ConnId, b: ConnId) returns (kept: bool)
    requires Moves(s, HubDeliver, t) && a < |s.pipes|
    ensures |t.pipes| == |s.pipes| == |t.core.conns| && t.pipes[a].sent == s.pipes[a].sent
    ensures var g := StagesOf(s, a, b);
            StagesOf(t, a, b) == g.(hub := [], mail := if kept then g.mail + g.hub else g.mail)
  {
    var es := if b < |s.pipes| then s.pipes[b].accepted else [];
    kept := b < |s.pipes| && t.pipes[b].accepted != es;
    if kept {
      var e := Direct(s.core.hub.msg, s.core.hub.origin);
      assert t.pipes[b].accepted == es + [e];
      DirectsConcat(es, [e], a);
      assert [e][1..] == [];
    }
    assert Upstream(t.pipes[a]) == Upstream(s.pipes[a]);
  }

  lemma DeliveryKeepsFlow(s: System, t: System, a: ConnId, b: ConnId)
    requires Moves(s, HubDeliver, t) && FlowOk(s, a, b)
    ensures FlowOk(t, a, b)
  {
    var kept := DeliveryMoves(s, t, a, b);
    OfferedByTheHub(StagesOf(s, a, b), kept, |s.pipes[a].sent|);
  }

  /** A handler's action moves at most one message of its own from the handler to the hub's queue. */
  lemma ActMoves(s: System, l: Label, t: System, a: ConnId, b: ConnId) returns (r: seq<nat>)
    requires ActorOk(s, l) && Moves(s, l, t) && l.Act?
    requires a != b && a < |s.pipes|
    ensures |t.pipes| == |s.pipes| == |t.core.conns| && t.pipes[a].sent == s.pipes[a].sent
    ensures var g, g' := StagesOf(s, a, b), StagesOf(t, a, b);
            g.todo == r + g'.todo && g' == g.(queue := g.queue + r, todo := g'.todo)
  {
    if b < |s.pipes| { ActLeavesMail(s, l, t, a, b); }
    r := ActMovesRoutes(s, l, t, a);
    assert Upstream(t.pipes[a]) == Upstream(s.pipes[a]);
  }

  lemma ActKeepsFlow(s: System, l: Label, t: System, a: ConnId, b: ConnId)
    requires ActorOk(s, l) && Moves(s, l, t) && l.Act?
    requires a != b && FlowOk(s, a, b)
    ensures FlowOk(t, a, b)
  {
    var r := ActMoves(s, l, t, a, b);
    QueuedForTheHub(StagesOf(s, a, b), r, StagesOf(t, a, b).todo, |s.pipes[a].sent|);
  }

  /** A direct message of `a` gets into a mailbox by no handler, except the echo into the mailbox of `a`. */
  lemma ActLeavesMail(s: System, l: Label, t: System, a: ConnId, b: ConnId)
    requires ActorOk(s, l) && Moves(s, l, t) && l.Act?
    requires a != b && b < |s.pipes|
    ensures Directs(t.pipes[b].accepted, a) == Directs(s.pipes[b].accepted, a)
  {
    var p, q := s.pipes[b], t.pipes[b];
    if q.accepted != p.accepted {
      var e := Emits(s.core, l).env;
      assert q.accepted == p.accepted + [e];
      DirectsConcat(p.accepted, [e], a);
      assert [e][1..] == [];
      assert Directs([e], a) == [];
    }
  }

  /** A handler's action moves `r`, at most one message of its own, to the hub's queue. */
  lemma ActMovesRoutes(s: System, l: Label, t: System, a: ConnId) returns (r: seq<nat>)
    requires ActorOk(s, l) && Moves(s, l, t) && l.Act?
    requires a < |s.pipes|
    ensures Routes(t.core.routeQ, a) == Routes(s.core.routeQ, a) + r
    ensures ToRoute(s.core.conns[a].todo, a) == r + ToRoute(t.core.conns[a].todo, a)
  {
    var c := l.c;
    var head, rest := s.core.conns[c].todo[0], s.core.conns[c].todo[1..];
    r := [];
    if head.Route? {
      var item := [Routed(head.msg, head.origin)];
      r := if c == a then [head.origin.index] else [];
      RoutesConcat(s.core.routeQ, item, a);
      assert item[1..] == [];
      assert Routes(item, a) == r;
    } else if c == a {
      RestKeepsRoutes(s.core, l, a);
    }
  }

  /** Looking up and ranging put offers in front of the rest, and offers route nothing. */
  lemma RestKeepsRoutes(s: Core, l: Label, a: ConnId)
    requires Enabled(s, l) && l.Act? && !Panics(s, l) && !s.conns[l.c].todo[0].Route?
    ensures ToRoute(Next(s, l).conns[l.c].todo, a) == ToRoute(s.conns[l.c].todo, a)
  {
    var head, rest := s.conns[l.c].todo[0], s.conns[l.c].todo[1..];
    var front :=
      if head.Range? then Offers(l.order, s.book.clients, head.env)
      else if head.Lookup? && head.user in s.book.clients then [Offer(s.book.clients[head.user], head.env)]
      else [];
    NoRoutes(front, a);
    ToRouteConcat(front, rest, a);
    assert Next(s, l).conns[l.c].todo == front + rest;
  }

  /** All other server steps move no direct message. */
  lemma QuietStepMoves(s: System, l: Label, t: System, a: ConnId, b: ConnId)
    requires ActorOk(s, l) && Moves(s, l, t) && a < |s.pipes|
    requires !l.Act? && !l.ReadFrame? && !l.HubTakeRoute? && !l.HubDeliver?
    ensures |t.pipes| == |t.core.conns| && a < |t.pipes| && t.pipes[a].sent == s.pipes[a].sent
    ensures StagesOf(t, a, b) == StagesOf(s, a, b)
  {
    QuietStepTodo(s, l, t, a);
    QuietStepHub(s.core, l, a);
    QuietStepPipes(s, l, t, a, b);
  }

  lemma QuietStepPipes(s: System, l: Label, t: System, a: ConnId, b: ConnId)
    requires Moves(s, l, t) && a < |s.pipes|
    requires !l.Act? && !l.ReadFrame? && !l.HubTakeRoute? && !l.HubDeliver?
    ensures |t.pipes| >= |s.pipes| && |t.pipes| == |t.core.conns|
    ensures Upstream(t.pipes[a]) == Upstream(s.pipes[a]) && t.pipes[a].sent == s.pipes[a].sent
    ensures b < |t.pipes| ==> t.pipes[b].accepted == if b < |s.pipes| then s.pipes[b].accepted else []
  {
  }

  lemma QuietStepTodo(s: System, l: Label, t: System, a: ConnId)
    requires ActorOk(s, l) && Moves(s, l, t) && a < |s.core.conns|
    requires !l.Act? && !l.ReadFrame? && !l.HubTakeRoute? && !l.HubDeliver?
    ensures a < |t.core.conns| && ToRoute(t.core.conns[a].todo, a) == ToRoute(s.core.conns[a].todo, a)
  {
    NoRoutes(BROADCAST_USER_LIST, a);
    NoRoutes(BROADCAST_USER_LIST + [OwnOffer(UserListResp)], a);
  }

  lemma QuietStepHub(s: Core, l: Label, a: ConnId)
    requires Enabled(s, l) && !Panics(s, l)
    requires !l.Act? && !l.ReadFrame? && !l.HubTakeRoute? && !l.HubDeliver?
    ensures AtHub(Next(s, l).hub, a) == AtHub(s.hub, a) && Next(s, l).routeQ == s.routeQ
  {
  }

  lemma ServerStepKeepsFlow(s: System, l: Label, t: System, a: ConnId, b: ConnId)
    requires ActorOk(s, l) && Moves(s, l, t)
    requires a != b && FlowOk(s, a, b)
    ensures FlowOk(t, a, b)
  {
    if l.Act? {
      ActKeepsFlow(s, l, t, a, b);
    } else if l.ReadFrame? {
      ReadKeepsFlow(s, l, t, a, b);
    } else if l.HubTakeRoute? {
      HubTakesFlow(s, t, a, b);
    } else if l.HubDeliver? {
      DeliveryKeepsFlow(s, t, a, b);
    } else {
      QuietStepMoves(s, l, t, a, b);
    }
  }

  // ---- every run -------------------------------------------------------------------------------

  ghost predicate OrderInv(s: System) {
    && PipesOk(s) && AllGenuine(s) && Inv(s.core)
    && forall a: nat, b: nat :: a < |s.pipes| && a != b ==> FlowOk(s, a, b)
  }

  /** A new connection has sent nothing, and nothing on its way claims to come from it. */
  lemma NothingFromNewcomer(s: System, l: Label, t: System, a: ConnId, b: ConnId)
    requires AllGenuine(s) && Moves(s, l, t) && |s.pipes| <= a < |t.pipes| && b != a
    ensures FlowOk(t, a, b)
  {
    NewcomerIsEmpty(s, l, t);
    if b < |s.pipes| { NoDirects(s.pipes[b].accepted, a); }
    NoneRouted(s.core.routeQ, a);
  }

  lemma {:induction false} NoDirects(es: seq<Envelope>, a: ConnId)
    requires forall i :: 0 <= i < |es| && es[i].Direct? ==> es[i].origin.conn != a
    ensures Directs(es, a) == []
  {
    if es != [] {
      NoDirects(es[1..], a);
    }
  }

  lemma {:induction false} NoneRouted(rs: seq<Routed>, a: ConnId)
    requires forall i :: 0 <= i < |rs| ==> rs[i].origin.conn != a
    ensures Routes(rs, a) == []
  {
    if rs != [] {
      NoneRouted(rs[1..], a);
    }
  }

  lemma ServerStepKeepsOrder(s: System, l: Label, t: System)
    requires OrderInv(s) && Moves(s, l, t)
    ensures AllGenuine(t)
    ensures forall a: nat, b: nat :: a < |t.pipes| && a != b ==> FlowOk(t, a, b)
  {
    ServerStepKeepsGenuine(s, l, t);
    ActorIsOk(s, l);
    forall a: nat, b: nat | a < |t.pipes| && a != b ensures FlowOk(t, a, b) {
      if a < |s.pipes| {
        ServerStepKeepsFlow(s, l, t, a, b);
      } else {
        NothingFromNewcomer(s, l, t, a, b);
      }
    }
  }

  lemma ActorIsOk(s: System, l: Label)
    requires AllGenuine(s) && Inv(s.core) && CanStep(s, Server(l))
    ensures ActorOk(s, l)
  {
  }

  lemma PipeStepKeepsOrder(s: System, c: ConnId, p: PipeLabel, t: System)
    requires OrderInv(s) && CanStep(s, OnPipe(c, p)) && t == After(s, OnPipe(c, p))
    ensures AllGenuine(t)
    ensures forall a: nat, b: nat :: a < |t.pipes| && a != b ==> FlowOk(t, a, b)
  {
    PipeStepKeepsGenuine(s, c, p, t);
    PipeStepGrows(s, c, p, t);
    forall a: nat, b: nat | a < |t.pipes| && a != b ensures FlowOk(t, a, b) {
      PipeStepKeepsFlow(s, c, p, t, a, b);
    }
  }

  lemma PanicKeepsOrder(s: System, t: System)
    requires OrderInv(s) && t == s.(core := s.core.(panicked := true))
    ensures AllGenuine(t)
    ensures forall a: nat, b: nat :: a < |t.pipes| && a != b ==> FlowOk(t, a, b)
  {
    PanicKeepsGenuine(s, t);
    forall a: nat, b: nat | a < |t.pipes| && a != b ensures FlowOk(t, a, b) {
      assert FlowOk(s, a, b);
      assert StagesOf(t, a, b) == StagesOf(s, a, b);
    }
  }

  lemma StepKeepsOrder(s: System, st: Step, t: System)
    requires OrderInv(s) && CanStep(s, st) && t == After(s, st)
    ensures OrderInv(t)
  {
    StepKeepsPipes(s, st);
    if st.OnPipe? {
      PipeStepKeepsOrder(s, st.c, st.p, t);
    } else {
      StepKeepsInv(s.core, st.l);
      if Panics(s.core, st.l) {
        PanicKeepsOrder(s, t);
      } else {
        ServerStepKeepsOrder(s, st.l, t);
      }
    }
  }

  lemma {:induction false} EveryRunKeepsOrder(s: System, steps: seq<Step>, t: System)
    requires OrderInv(s) && SystemRun(s, steps, t)
    ensures OrderInv(t)
    decreases |steps|
  {
    if steps != [] {
      StepKeepsOrder(s, steps[0], After(s, steps[0]));
      EveryRunKeepsOrder(After(s, steps[0]), steps[1..], t);
    }
  }

  /**
   In every run and interleaving, for any two connections: the direct messages that the UI of `b` has
   been given from connection `a` carry rising positions in what `a` passed to `Send` (so they are a
   subsequence of it, in order and without repeats), and each is the request at its position, unchanged,
   addressed to the user of `b` and signed with the authenticated name of `a`.
   */
  lemma DirectMessagesArriveInOrder(steps: seq<Step>, t: System, a: ConnId, b: ConnId)
    requires SystemRun(START, steps, t)
    requires a < |t.pipes| && b < |t.pipes| && a != b
    ensures |t.pipes| == |t.core.conns|
    ensures Rising(Directs(t.pipes[b].seen, a))
    ensures forall k :: 0 <= k < |t.pipes[b].seen| ==>
              var e := t.pipes[b].seen[k];
              e.Direct? && e.origin.conn == a ==>
                && e.origin.index < |t.pipes[a].sent|
                && t.pipes[a].sent[e.origin.index]
                   == SendMsg(t.core.conns[b].user, e.msg.toGroup, e.msg.content, e.msg.replyToId)
                && e.msg.fromUser == t.core.conns[a].user
  {
    EveryRunKeepsOrder(START, steps, t);
    MailboxConservation(steps, t, b);
    var seen, accepted := t.pipes[b].seen, t.pipes[b].accepted;
    assert seen <= accepted;
    assert accepted == seen + accepted[|seen|..];
    DirectsConcat(seen, accepted[|seen|..], a);
    assert FlowOk(t, a, b);
    FrontOfLineRises(StagesOf(t, a, b), Directs(seen, a), |t.pipes[a].sent|);
    forall k | 0 <= k < |seen| ensures EnvelopeGenuine(t, b, seen[k]) {
      assert seen[k] == accepted[k];
    }
  }

  lemma FrontOfLineRises(g: Stages, front: seq<nat>, n: nat)
    requires InLine(g, n) && front <= g.mail
    ensures Rising(front)
  {
    assert forall i :: 0 <= i < |front| ==> front[i] == Line(g)[i];
  }
}
