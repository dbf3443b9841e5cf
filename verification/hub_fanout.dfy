/**
 What a handler does with its script: what it offers, to whom, and what it queues for the hub, in order,
 whatever the other goroutines do meanwhile.
 */
module HubFanOut {
  import opened ConversationKeys
  import opened HubHistory
  import opened HubCore
  import opened HubSafety
  import opened HubProgress

  type Online = map<Name, ConnId>

  datatype Output = Offered(target: ConnId, env: Envelope) | Queued(msg: RecvMsg, origin: Origin)

  // ---- along a run -----------------------------------------------------------------------

  /** What a step is of handler `c`: an offer, a message for the hub, or nothing. */
  function OutputOf(c: ConnId, s: Core, l: Label): seq<Output>
    requires Enabled(s, l)
  {
    if !l.Act? || l.c != c then []
    else
      match s.conns[c].todo[0]
      case Offer(t, env) => [Offered(t, env)]
      case OwnOffer(env) => [Offered(c, env)]
      case Route(m, o) => [Queued(m, o)]
      case _ => []
  }

  function Outputs(c: ConnId, s: Core, ls: seq<Label>): seq<Output>
    decreases |ls|
  {
    if ls == [] || !Enabled(s, ls[0]) then [] else OutputOf(c, s, ls[0]) + Outputs(c, Next(s, ls[0]), ls[1..])
  }

  /** The map that a step of handler `c` finds, if it takes the lock. */
  function MapAtLock(c: ConnId, s: Core, l: Label): seq<Online>
    requires Enabled(s, l)
  {
    if l.Act? && l.c == c && s.conns[c].todo[0].RLock? then [s.book.clients] else []
  }

  function MapsAtLocks(c: ConnId, s: Core, ls: seq<Label>): seq<Online>
    decreases |ls|
  {
    if ls == [] || !Enabled(s, ls[0]) then [] else MapAtLock(c, s, ls[0]) + MapsAtLocks(c, Next(s, ls[0]), ls[1..])
  }

  /** The order in which a step of handler `c` ranges over the map, if it does. */
  function OrderAtRange(c: ConnId, s: Core, l: Label): seq<seq<Name>>
    requires Enabled(s, l)
  {
    if l.Act? && l.c == c && s.conns[c].todo[0].Range? then [l.order] else []
  }

  function OrdersAtRanges(c: ConnId, s: Core, ls: seq<Label>): seq<seq<Name>>
    decreases |ls|
  {
    if ls == [] || !Enabled(s, ls[0]) then []
    else OrderAtRange(c, s, ls[0]) + OrdersAtRanges(c, Next(s, ls[0]), ls[1..])
  }

  /** The offers among these outputs are those that meet the mailboxes. */
  lemma OffersMeetMailboxes(c: ConnId, s: Core, order: seq<Name>)
    requires Enabled(s, Act(c, order))
    ensures forall t, env ::
              Emits(s, Act(c, order)) == Emit(t, env) <==> OutputOf(c, s, Act(c, order)) == [Offered(t, env)]
  {
  }

  /** In the run the handler of `c` only works off its script: it reads no frame and does not leave. */
  ghost predicate OnlyActs(ls: seq<Label>, c: ConnId) {
    forall i :: 0 <= i < |ls| && OfHandler(ls[i]) && ls[i].c == c ==> ls[i].Act?
  }

  /** A run without panic along which the handler of `c` works off the rest of its script. */
  ghost predicate WorksOff(s: Core, ls: seq<Label>, t: Core, c: ConnId) {
    && Inv(s) && c < |s.conns|
    && Run(s, ls, t) && !t.panicked && c < |t.conns| && t.conns[c].todo == [] && OnlyActs(ls, c)
  }

  lemma WorksOffNext(s: Core, ls: seq<Label>, t: Core, c: ConnId) returns (u: Core)
    requires WorksOff(s, ls, t, c) && ls != []
    ensures !Panics(s, ls[0]) && u == Next(s, ls[0]) && WorksOff(u, ls[1..], t, c)
    ensures OfHandler(ls[0]) && ls[0].c == c ==> ls[0].Act?
  {
    u := Next(s, ls[0]);
    PanicEnds(s, ls, t);
    StepKeepsInv(s, ls[0]);
    assert OnlyActs(ls[1..], c) by {
      assert forall i :: 0 <= i < |ls[1..]| ==> ls[1..][i] == ls[i + 1];
    }
    if OfHandler(ls[0]) && ls[0].c == c {
      ActKeepsConns(s, ls[0]);
    } else {
      OthersLeaveIt(s, ls[0], c);
    }
  }

  lemma ActKeepsConns(s: Core, l: Label)
    requires Enabled(s, l) && l.Act?
    ensures |Next(s, l).conns| == |s.conns|
  {
  }

  /** No step of another goroutine touches what a handler has left to do. */
  lemma OthersLeaveIt(s: Core, l: Label, c: ConnId)
    requires c < |s.conns| && Enabled(s, l) && !Panics(s, l) && !(OfHandler(l) && l.c == c)
    ensures c < |Next(s, l).conns| && Next(s, l).conns[c] == s.conns[c]
  {
  }

  /** Nor, while it holds the lock, the map. */
  lemma OthersLeaveMap(s: Core, l: Label, c: ConnId)
    requires Inv(s) && c < |s.conns| && s.conns[c].locked && Enabled(s, l) && !Panics(s, l)
    ensures Next(s, l).book == s.book
  {
    assert !l.HubApply?;
  }

  // ---- what a script comes to ------------------------------------------------------------

  /** One offer for each name of the list that is online, those in `skip` left out. */
  function ToNames(names: seq<Name>, skip: set<Name>, online: Online, env: Envelope): seq<Output> {
    if names == [] then []
    else
      (if names[0] in online && names[0] !in skip then [Offered(online[names[0]], env)] else [])
      + ToNames(names[1..], skip, online, env)
  }

  /**
   What a script does in all: `maps` are the maps that its locked sections find, and `orders` the orders in
   which they range over them.
   */
  function Plan(todo: seq<Action>, c: ConnId, maps: seq<Online>, orders: seq<seq<Name>>): seq<Output>
    decreases |todo|
  {
    if todo == [] then []
    else
      match todo[0]
      case RLock => if maps == [] then [] else LockedPlan(todo[1..], c, maps[0], maps[1..], orders)
      case OwnOffer(env) => [Offered(c, env)] + Plan(todo[1..], c, maps, orders)
      case Route(m, o) => [Queued(m, o)] + Plan(todo[1..], c, maps, orders)
      case _ => Plan(todo[1..], c, maps, orders)
  }

  function LockedPlan(todo: seq<Action>, c: ConnId, online: Online, maps: seq<Online>, orders: seq<seq<Name>>)
    : seq<Output>
    decreases |todo|
  {
    if todo == [] then []
    else
      var rest := todo[1..];
      match todo[0]
      case RUnlock => Plan(rest, c, maps, orders)
      case Offer(t, env) => [Offered(t, env)] + LockedPlan(rest, c, online, maps, orders)
      case Lookup(n, env) => ToNames([n], {}, online, env) + LockedPlan(rest, c, online, maps, orders)
      case Range(env) =>
        if orders == [] then []
        else ToNames(orders[0], {}, online, env) + LockedPlan(rest, c, online, maps, orders[1..])
      case _ => LockedPlan(rest, c, online, maps, orders)
  }

  /** What is still to come of a handler that may be in the middle of a locked section. */
  function Due(h: Handler, c: ConnId, online: Online, maps: seq<Online>, orders: seq<seq<Name>>): seq<Output> {
    if h.locked then LockedPlan(h.todo, c, online, maps, orders) else Plan(h.todo, c, maps, orders)
  }

  function Locks(todo: seq<Action>): nat {
    if todo == [] then 0 else (if todo[0].RLock? then 1 else 0) + Locks(todo[1..])
  }

  function Ranges(todo: seq<Action>): nat {
    if todo == [] then 0 else (if todo[0].Range? then 1 else 0) + Ranges(todo[1..])
  }

  /** Ranging puts the offers, in the order of the map, in front of the rest. */
  lemma {:induction false} OffersComeFirst(order: seq<Name>, offers: seq<Action>, rest: seq<Action>, env: Envelope,
                                           c: ConnId, online: Online, maps: seq<Online>, orders: seq<seq<Name>>)
    requires |offers| == |order|
    requires forall i :: 0 <= i < |order| ==> order[i] in online && offers[i] == Offer(online[order[i]], env)
    ensures LockedPlan(offers + rest, c, online, maps, orders)
            == ToNames(order, {}, online, env) + LockedPlan(rest, c, online, maps, orders)
    ensures Locks(offers + rest) == Locks(rest) && Ranges(offers + rest) == Ranges(rest)
  {
    if order == [] {
      assert offers + rest == rest;
    } else {
      OffersComeFirst(order[1..], offers[1..], rest, env, c, online, maps, orders);
      FirstOffer(offers, rest, c, online, maps, orders);
      Regroup([Offered(online[order[0]], env)], ToNames(order[1..], {}, online, env),
              LockedPlan(rest, c, online, maps, orders));
    }
  }

  lemma Regroup(a: seq<Output>, b: seq<Output>, c: seq<Output>)
    ensures (a + b) + c == a + (b + c)
  {
  }

  lemma FirstOffer(offers: seq<Action>, rest: seq<Action>, c: ConnId, online: Online, maps: seq<Online>,
                   orders: seq<seq<Name>>)
    requires offers != [] && offers[0].Offer?
    ensures LockedPlan(offers + rest, c, online, maps, orders)
            == [Offered(offers[0].target, offers[0].env)] + LockedPlan(offers[1..] + rest, c, online, maps, orders)
    ensures Locks(offers + rest) == Locks(offers[1..] + rest) && Ranges(offers + rest) == Ranges(offers[1..] + rest)
  {
    assert (offers + rest)[0] == offers[0] && (offers + rest)[1..] == offers[1..] + rest;
  }

  lemma OneOfferFirst(n: Name, env: Envelope, rest: seq<Action>, c: ConnId, online: Online, maps: seq<Online>,
                      orders: seq<seq<Name>>)
    requires n in online
    ensures LockedPlan([Offer(online[n], env)] + rest, c, online, maps, orders)
            == ToNames([n], {}, online, env) + LockedPlan(rest, c, online, maps, orders)
    ensures Locks([Offer(online[n], env)] + rest) == Locks(rest)
    ensures Ranges([Offer(online[n], env)] + rest) == Ranges(rest)
  {
    OffersComeFirst([n], [Offer(online[n], env)], rest, env, c, online, maps, orders);
  }

  /** An action under the lock: what was to come is what it does and what is then to come. */
  lemma LockedStepDue(s: Core, order: seq<Name>, c: ConnId, maps: seq<Online>, orders: seq<seq<Name>>)
    requires Inv(s) && Enabled(s, Act(c, order)) && !Panics(s, Act(c, order)) && s.conns[c].locked
    ensures var l, t := Act(c, order), Next(s, Act(c, order));
            && MapAtLock(c, s, l) == []
            && Due(s.conns[c], c, s.book.clients, maps, OrderAtRange(c, s, l) + orders)
               == OutputOf(c, s, l) + Due(t.conns[c], c, t.book.clients, maps, orders)
            && Locks(s.conns[c].todo) == Locks(t.conns[c].todo)
            && Ranges(s.conns[c].todo) == |OrderAtRange(c, s, l)| + Ranges(t.conns[c].todo)
  {
    var online := s.book.clients;
    var a, rest := s.conns[c].todo[0], s.conns[c].todo[1..];
    assert HandlerOk(s.conns[c], online);
    assert [] + orders == orders && ([order] + orders)[1..] == orders;
    match a {
      case Range(env) =>
        forall i | 0 <= i < |order| ensures order[i] in online { assert order[i] in (set n | n in order); }
        OffersComeFirst(order, Offers(order, online, env), rest, env, c, online, maps, orders);
      case Lookup(n, env) =>
        if n in online {
          OneOfferFirst(n, env, rest, c, online, maps, orders);
        } else {
          assert ToNames([n], {}, online, env) == [] by { assert [n][1..] == []; }
          assert [] + LockedPlan(rest, c, online, maps, orders) == LockedPlan(rest, c, online, maps, orders);
        }
      case _ =>
    }
  }

  lemma UnlockedStepDue(s: Core, order: seq<Name>, c: ConnId, maps: seq<Online>, orders: seq<seq<Name>>)
    requires Inv(s) && Enabled(s, Act(c, order)) && !Panics(s, Act(c, order)) && !s.conns[c].locked
    ensures var l, t := Act(c, order), Next(s, Act(c, order));
            && OrderAtRange(c, s, l) == []
            && Due(s.conns[c], c, s.book.clients, MapAtLock(c, s, l) + maps, orders)
               == OutputOf(c, s, l) + Due(t.conns[c], c, t.book.clients, maps, orders)
            && Locks(s.conns[c].todo) == |MapAtLock(c, s, l)| + Locks(t.conns[c].todo)
            && Ranges(s.conns[c].todo) == Ranges(t.conns[c].todo)
  {
    assert HandlerOk(s.conns[c], s.book.clients);
    assert [] + maps == maps && ([s.book.clients] + maps)[1..] == maps;
  }

  /** One step of anyone: what was to come of the handler is what it does and what is then to come. */
  lemma StepDue(s: Core, l: Label, c: ConnId, maps: seq<Online>, orders: seq<seq<Name>>)
    requires Inv(s) && c < |s.conns| && Enabled(s, l) && !Panics(s, l)
    requires OfHandler(l) && l.c == c ==> l.Act?
    ensures c < |Next(s, l).conns|
    ensures Due(s.conns[c], c, s.book.clients, MapAtLock(c, s, l) + maps, OrderAtRange(c, s, l) + orders)
            == OutputOf(c, s, l) + Due(Next(s, l).conns[c], c, Next(s, l).book.clients, maps, orders)
    ensures Locks(s.conns[c].todo) == |MapAtLock(c, s, l)| + Locks(Next(s, l).conns[c].todo)
    ensures Ranges(s.conns[c].todo) == |OrderAtRange(c, s, l)| + Ranges(Next(s, l).conns[c].todo)
  {
    assert [] + maps == maps && [] + orders == orders;
    if OfHandler(l) && l.c == c {
      assert l == Act(c, l.order);
      if s.conns[c].locked {
        LockedStepDue(s, l.order, c, maps, orders);
      } else {
        UnlockedStepDue(s, l.order, c, maps, orders);
      }
    } else {
      OthersLeaveIt(s, l, c);
      if s.conns[c].locked { OthersLeaveMap(s, l, c); }
    }
  }

  /**
   However the run interleaves, a handler that works off its script does what the script comes to over the
   maps that its locked sections find: the same offers and messages in the same order, nothing twice,
   nothing left out, nothing else.
   */
  lemma {:induction false} ScriptPays(s: Core, ls: seq<Label>, t: Core, c: ConnId)
    requires WorksOff(s, ls, t, c)
    ensures Outputs(c, s, ls) == Due(s.conns[c], c, s.book.clients, MapsAtLocks(c, s, ls), OrdersAtRanges(c, s, ls))
    ensures |MapsAtLocks(c, s, ls)| == Locks(s.conns[c].todo)
    ensures |OrdersAtRanges(c, s, ls)| == Ranges(s.conns[c].todo)
    decreases |ls|
  {
    if ls == [] {
      assert HandlerOk(s.conns[c], s.book.clients);
    } else {
      var u := WorksOffNext(s, ls, t, c);
      ScriptPays(u, ls[1..], t, c);
      StepDue(s, ls[0], c, MapsAtLocks(c, u, ls[1..]), OrdersAtRanges(c, u, ls[1..]));
    }
  }
}
