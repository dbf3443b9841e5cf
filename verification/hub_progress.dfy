/** The hub never gets stuck: as long as there is work, the hub or a holder of the read lock can move. */
module HubProgress {
  import opened HubHistory
  import opened HubCore
  import opened HubSafety

  /** There is a queued event, or the hub is in the middle of one. */
  predicate Busy(s: Core) {
    s.registerQ != [] || s.unregisterQ != [] || s.routeQ != [] || !s.hub.Idle?
  }

  /** A handler that waits on a hub channel or on the read lock. */
  predicate Blocked(s: Core, c: ConnId) {
    c < |s.conns| &&
    var h := s.conns[c];
    || (h.phase == Registering && |s.registerQ| >= REGISTER_CAP)
    || (h.phase == Leaving && |s.unregisterQ| >= REGISTER_CAP)
    || (h.todo != [] && h.todo[0].RLock? && WriterAhead(s.hub))
    || (h.todo != [] && h.todo[0].Route? && |s.routeQ| >= ROUTE_CAP)
  }

  predicate OfHub(l: Label) {
    l.HubTakeRegister? || l.HubTakeUnregister? || l.HubTakeRoute? || l.HubCallLock? || l.HubLock? || l.HubApply?
    || l.HubUnlock? || l.HubRLock? || l.HubLookup? || l.HubDeliver?
  }

  /** Steps of the hub, and of handlers that hold the read lock: they queue nothing. */
  predicate Draining(s: Core, l: Label) {
    OfHub(l) || (l.Act? && l.c < |s.conns| && s.conns[l.c].locked)
  }

  // ---- no deadlock -----------------------------------------------------------------

  lemma ListingExists(clients: map<Name, ConnId>) returns (order: seq<Name>)
    ensures Listing(order, clients)
  {
    order := [];
    var left := clients.Keys;
    while left != {}
      invariant Distinct(order) && left <= clients.Keys
      invariant (set n | n in order) == clients.Keys - left
      decreases left
    {
      var n :| n in left;
      assert n !in (set k | k in order);
      assert (set k | k in order + [n]) == (set k | k in order) + {n};
      order, left := order + [n], left - {n};
    }
  }

  /** A goroutine that holds the lock waits for nothing: not for a channel, not for the lock again. */
  lemma LockHolderCanStep(s: Core, c: ConnId)
    requires Inv(s) && !s.panicked && c < |s.conns| && s.conns[c].locked
    ensures !Blocked(s, c)
    ensures exists order :: Enabled(s, Act(c, order))
  {
    var h := s.conns[c];
    assert HandlerOk(h, s.book.clients);
    var order := ListingExists(s.book.clients);
    assert Enabled(s, Act(c, order));
  }

  lemma SomeoneCanStep(s: Core)
    requires Inv(s) && !s.panicked && (Busy(s) || exists c :: Blocked(s, c))
    ensures exists l :: Draining(s, l) && Enabled(s, l)
  {
    assert Busy(s);
    if s.hub.Pending? && !NoReader(s) {
      var c :| 0 <= c < |s.conns| && s.conns[c].locked;
      LockHolderCanStep(s, c);
      var order :| Enabled(s, Act(c, order));
      assert Draining(s, Act(c, order));
    } else {
      assert s.registerQ != [] ==> s.registerQ[0] in s.registerQ;
      assert s.unregisterQ != [] ==> s.unregisterQ[0] in s.unregisterQ;
      var l := match s.hub
        case Idle =>
          if s.registerQ != [] then HubTakeRegister
          else if s.unregisterQ != [] then HubTakeUnregister
          else HubTakeRoute
        case Took(_) => HubCallLock
        case Pending(_) => HubLock
        case Holding(_) => HubApply
        case Applied => HubUnlock
        case Routing(_, _) => HubRLock
        case Looking(_, _) => HubLookup
        case Delivering(_, _, _, _) => HubDeliver;
      assert Draining(s, l) && Enabled(s, l);
    }
  }

  /** In every reachable state: where there is work, or anyone is blocked, a hub or lock-holder step is enabled. */
  lemma NoDeadlock(ls: seq<Label>, t: Core)
    requires Run(INIT, ls, t) && !t.panicked
    requires Busy(t) || exists c :: Blocked(t, c)
    ensures exists l :: Draining(t, l) && Enabled(t, l)
  {
    EveryRunKeepsInv(INIT, ls, t);
    SomeoneCanStep(t);
  }

  /** An idle hub can take from any of its channels that holds something; no channel goes before another. */
  lemma IdleHubTakesAny(ls: seq<Label>, t: Core)
    requires Run(INIT, ls, t) && !t.panicked && t.hub.Idle?
    ensures Enabled(t, HubTakeRegister) <==> t.registerQ != []
    ensures Enabled(t, HubTakeUnregister) <==> t.unregisterQ != []
    ensures Enabled(t, HubTakeRoute) <==> t.routeQ != []
  {
    EveryRunKeepsInv(INIT, ls, t);
    QueuedAreKnown(t);
  }

  lemma QueuedAreKnown(s: Core)
    requires QueuesOk(s)
    ensures s.registerQ != [] ==> s.registerQ[0] < |s.conns|
    ensures s.unregisterQ != [] ==> s.unregisterQ[0] < |s.conns|
  {
    assert s.registerQ != [] ==> s.registerQ[0] in s.registerQ;
    assert s.unregisterQ != [] ==> s.unregisterQ[0] in s.unregisterQ;
  }

  // ---- draining --------------------------------------------------------------------

  function Queued(s: Core): nat {
    |s.registerQ| + |s.unregisterQ| + |s.routeQ|
  }

  function Takes(ls: seq<Label>): nat {
    if ls == [] then 0
    else (if ls[0].HubTakeRegister? || ls[0].HubTakeUnregister? || ls[0].HubTakeRoute? then 1 else 0) + Takes(ls[1..])
  }

  /** Steps to the end of the section under the lock; ranging over `k` clients makes `k` offers. */
  function HeldFuel(todo: seq<Action>, k: nat): nat {
    if todo == [] then 0
    else
      match todo[0]
      case RUnlock => 1
      case Offer(_, _) => 1 + HeldFuel(todo[1..], k)
      case Lookup(_, _) => 2 + HeldFuel(todo[1..], k)
      case Range(_) => 1 + k + HeldFuel(todo[1..], k)
      case _ => 0
  }

  function HandlerFuel(h: Handler, k: nat): nat {
    if h.locked then HeldFuel(h.todo, k) else 0
  }

  function ReaderFuel(conns: seq<Handler>, k: nat): nat {
    if conns == [] then 0 else HandlerFuel(conns[0], k) + ReaderFuel(conns[1..], k)
  }

  function HubFuel(hub: HubPc): nat {
    match hub
    case Idle => 0
    case Took(_) => 4
    case Pending(_) => 3
    case Holding(_) => 2
    case Applied => 1
    case Routing(_, _) => 3
    case Looking(_, _) => 2
    case Delivering(_, _, _, _) => 1
  }

  function Fuel(s: Core): nat {
    5 * Queued(s) + HubFuel(s.hub) + ReaderFuel(s.conns, |s.book.clients|)
  }

  lemma {:induction false} ReaderFuelUpdate(conns: seq<Handler>, c: nat, h: Handler, k: nat)
    requires c < |conns|
    ensures ReaderFuel(conns[c := h], k) + HandlerFuel(conns[c], k) == ReaderFuel(conns, k) + HandlerFuel(h, k)
  {
    if c == 0 {
      assert conns[c := h][1..] == conns[1..];
    } else {
      assert conns[c := h][1..] == conns[1..][c - 1 := h];
      ReaderFuelUpdate(conns[1..], c - 1, h, k);
    }
  }

  lemma {:induction false} NoReaderNoFuel(conns: seq<Handler>, k: nat)
    requires forall c :: 0 <= c < |conns| ==> !conns[c].locked
    ensures ReaderFuel(conns, k) == 0
  {
    if conns != [] {
      NoReaderNoFuel(conns[1..], k);
    }
  }

  lemma {:induction false} OffersFuel(offers: seq<Action>, rest: seq<Action>, k: nat)
    requires forall i :: 0 <= i < |offers| ==> offers[i].Offer?
    ensures HeldFuel(offers + rest, k) == |offers| + HeldFuel(rest, k)
  {
    if offers == [] {
      assert offers + rest == rest;
    } else {
      assert (offers + rest)[0] == offers[0] && (offers + rest)[1..] == offers[1..] + rest;
      OffersFuel(offers[1..], rest, k);
    }
  }

  lemma {:induction false} ListingLength(order: seq<Name>)
    requires Distinct(order)
    ensures |order| == |set n | n in order|
  {
    if order != [] {
      var rest := order[1..];
      ListingLength(rest);
      assert (set n | n in order) == (set n | n in rest) + {order[0]};
      assert order[0] !in (set n | n in rest);
    }
  }

  lemma LockHolderStepBurnsFuel(s: Core, c: ConnId, order: seq<Name>)
    requires Inv(s) && Enabled(s, Act(c, order)) && s.conns[c].locked && !Panics(s, Act(c, order))
    ensures Fuel(Next(s, Act(c, order))) < Fuel(s)
    ensures Queued(Next(s, Act(c, order))) == Queued(s)
  {
    var h, k := s.conns[c], |s.book.clients|;
    var a, rest := h.todo[0], h.todo[1..];
    assert HandlerOk(h, s.book.clients);
    var h' := Next(s, Act(c, order)).conns[c];
    ReaderFuelUpdate(s.conns, c, h', k);
    match a {
      case Lookup(n, env) =>
        if n in s.book.clients {
          OffersFuel([Offer(s.book.clients[n], env)], rest, k);
        }
      case Range(env) =>
        ListingLength(order);
        OffersFuel(Offers(order, s.book.clients, env), rest, k);
      case _ =>
    }
  }

  lemma TakeBurnsFuel(s: Core, l: Label)
    requires Enabled(s, l) && (l.HubTakeRegister? || l.HubTakeUnregister? || l.HubTakeRoute?)
    ensures Fuel(Next(s, l)) < Fuel(s)
    ensures Queued(s) == Queued(Next(s, l)) + 1
  {
  }

  lemma ApplyBurnsFuel(s: Core)
    requires Inv(s) && Enabled(s, HubApply) && !Panics(s, HubApply)
    ensures Fuel(Next(s, HubApply)) < Fuel(s)
    ensures Queued(s) == Queued(Next(s, HubApply))
  {
    NoReaderNoFuel(s.conns, |s.book.clients|);
    NoReaderNoFuel(s.conns, |Next(s, HubApply).book.clients|);
  }

  lemma MoveBurnsFuel(s: Core, l: Label)
    requires Enabled(s, l) && OfHub(l) && !l.HubApply?
    requires !l.HubTakeRegister? && !l.HubTakeUnregister? && !l.HubTakeRoute? && !Panics(s, l)
    ensures Fuel(Next(s, l)) < Fuel(s)
    ensures Queued(Next(s, l)) == Queued(s)
  {
  }

  lemma HubStepBurnsFuel(s: Core, l: Label)
    requires Inv(s) && Enabled(s, l) && OfHub(l) && !Panics(s, l)
    ensures Fuel(Next(s, l)) < Fuel(s)
    ensures Queued(s) == Queued(Next(s, l)) + Takes([l])
  {
    assert Takes([l][1..]) == 0;
    if l.HubTakeRegister? || l.HubTakeUnregister? || l.HubTakeRoute? {
      TakeBurnsFuel(s, l);
    } else if l.HubApply? {
      ApplyBurnsFuel(s);
    } else {
      MoveBurnsFuel(s, l);
    }
  }

  lemma {:induction false} DrainingBurnsFuel(s: Core, ls: seq<Label>, t: Core)
    requires Inv(s) && ScheduledRun(s, ls, t, Draining) && !t.panicked
    ensures Inv(t)
    ensures |ls| + Fuel(t) <= Fuel(s)
    ensures Queued(s) == Queued(t) + Takes(ls)
    decreases |ls|
  {
    if ls != [] {
      var l, u := ls[0], Next(s, ls[0]);
      if Panics(s, l) {
        PanicIsFinal(u, ls[1..], t, Draining);
      }
      StepKeepsInv(s, l);
      if OfHub(l) {
        HubStepBurnsFuel(s, l);
        assert [l][1..] == [];
      } else {
        LockHolderStepBurnsFuel(s, l.c, l.order);
      }
      DrainingBurnsFuel(u, ls[1..], t);
    }
  }

  lemma PanicIsFinal(s: Core, ls: seq<Label>, t: Core, allowed: (Core, Label) -> bool)
    requires s.panicked && ScheduledRun(s, ls, t, allowed)
    ensures t.panicked
  {
  }

  /**
   With nothing new queued, whatever the order in which the hub and the lock holders move, they come
   to a stop after boundedly many steps; the queues are then empty, and the hub has consumed exactly
   as many events as were queued.
   */
  lemma QueuesDrain(past: seq<Label>, s: Core, ls: seq<Label>, t: Core)
    requires Run(INIT, past, s)
    requires ScheduledRun(s, ls, t, Draining) && !t.panicked
    ensures |ls| <= Fuel(s)
    ensures (forall l :: Draining(t, l) ==> !Enabled(t, l)) ==> !Busy(t) && Takes(ls) == Queued(s)
  {
    EveryRunKeepsInv(INIT, past, s);
    DrainingBurnsFuel(s, ls, t);
    if Busy(t) {
      SomeoneCanStep(t);
    }
  }

  // ---- handlers ---------------------------------------------------------------------------------

  /** A handler that has not returned can step, or waits for a full hub channel or behind the hub's lock. */
  lemma HandlerCanStep(ls: seq<Label>, t: Core, c: ConnId)
    requires Run(INIT, ls, t) && !t.panicked && c < |t.conns| && t.conns[c].phase != Gone
    ensures Blocked(t, c) || exists l :: OfHandler(l) && l.c == c && Enabled(t, l)
    ensures t.conns[c].phase == Serving && t.conns[c].todo == [] ==>
              Enabled(t, Hangup(c)) && forall frame, out :: Enabled(t, ReadFrame(c, frame, out))
  {
    EveryRunKeepsInv(INIT, ls, t);
    var h := t.conns[c];
    if h.todo != [] {
      var order := ListingExists(t.book.clients);
      assert Blocked(t, c) || Enabled(t, Act(c, order));
    } else {
      assert HandlerOk(h, t.book.clients);
      var l := match h.phase
        case Registering => QueueRegister(c)
        case Greeting => StartServing(c)
        case Serving => Hangup(c)
        case Quitting => Quit(c)
        case Leaving => QueueUnregister(c)
        case Farewell => Finish(c)
        case Gone => Finish(c);
      assert Blocked(t, c) || Enabled(t, l);
    }
  }

  /** Once the hub has called `Lock`, no handler takes the read lock until the hub has let go. */
  ghost predicate HubWaits(s: Core, ls: seq<Label>)
    decreases |ls|
  {
    && (s.hub.Pending? || s.hub.Holding? || s.hub.Applied?)
    && (ls == [] || (Enabled(s, ls[0]) && HubWaits(Next(s, ls[0]), ls[1..])))
  }

  lemma {:induction false} ReadersOnlyLeave(s: Core, ls: seq<Label>, t: Core, c: ConnId)
    requires HubWaits(s, ls) && Run(s, ls, t) && c < |t.conns| && t.conns[c].locked
    ensures c < |s.conns| && s.conns[c].locked
    decreases |ls|
  {
    if ls != [] {
      ReadersOnlyLeave(Next(s, ls[0]), ls[1..], t, c);
    }
  }

  /** The channels never hold more than they were made for. */
  ghost predicate WithinCapacity(s: Core) {
    |s.registerQ| <= 8 && |s.unregisterQ| <= 8 && |s.routeQ| <= 256
  }

  lemma {:induction false} QueuesAreBounded(s: Core, ls: seq<Label>, t: Core)
    requires Run(s, ls, t) && WithinCapacity(s)
    ensures WithinCapacity(t)
    decreases |ls|
  {
    if ls != [] {
      QueuesAreBounded(Next(s, ls[0]), ls[1..], t);
    }
  }

  // ---- the life of a connection -------------------------------------------------------------------

  function Times(ls: seq<Label>, l: Label): nat {
    if ls == [] then 0 else (if ls[0] == l then 1 else 0) + Times(ls[1..], l)
  }

  lemma TimesFirst(ls: seq<Label>, l: Label)
    requires ls != []
    ensures Times(ls, l) == Times([ls[0]], l) + Times(ls[1..], l)
  {
    assert [ls[0]][1..] == [];
  }

  predicate Served(p: Phase) {
    p != Registering && p != Greeting
  }

  /** How far a connection has come, by the steps of `handleConn` that it has taken. */
  ghost predicate LifeIs(s: Core, c: ConnId, registers: nat, starts: nat, unregisters: nat, ends: nat) {
    if c >= |s.conns| then registers == starts == unregisters == ends == 0
    else
      var p := s.conns[c].phase;
      && registers == (if p == Registering then 0 else 1)
      && starts == (if Served(p) then 1 else 0)
      && unregisters == (if Left(p) then 1 else 0)
      && ends == (if p == Gone then 1 else 0)
  }

  lemma StepOfLife(s: Core, l: Label, c: ConnId, r: nat, b: nat, u: nat, e: nat)
    requires Enabled(s, l) && !Panics(s, l) && LifeIs(s, c, r, b, u, e)
    ensures LifeIs(Next(s, l), c, r + Times([l], QueueRegister(c)), b + Times([l], StartServing(c)),
                   u + Times([l], QueueUnregister(c)), e + Times([l], Finish(c)))
  {
    assert [l][1..] == [];
    if c < |s.conns| && l.Act? {
      assert Next(s, l).conns[c].phase == s.conns[c].phase;
    }
  }

  lemma {:induction false} LifeFrom(s: Core, ls: seq<Label>, t: Core, c: ConnId, r: nat, b: nat, u: nat, e: nat)
    requires Run(s, ls, t) && !t.panicked && LifeIs(s, c, r, b, u, e)
    ensures LifeIs(t, c, r + Times(ls, QueueRegister(c)), b + Times(ls, StartServing(c)),
                   u + Times(ls, QueueUnregister(c)), e + Times(ls, Finish(c)))
    decreases |ls|
  {
    if ls != [] {
      var l := ls[0];
      PanicEnds(s, ls, t);
      StepOfLife(s, l, c, r, b, u, e);
      TimesFirst(ls, QueueRegister(c));
      TimesFirst(ls, StartServing(c));
      TimesFirst(ls, QueueUnregister(c));
      TimesFirst(ls, Finish(c));
      LifeFrom(Next(s, l), ls[1..], t, c, r + Times([l], QueueRegister(c)), b + Times([l], StartServing(c)),
               u + Times([l], QueueUnregister(c)), e + Times([l], Finish(c)));
    }
  }

  /**
   In every run each connection registers, begins to serve, unregisters and returns at most once each, in
   this order, and its phase tells which of them it has done.
   */
  lemma LifeIsCounted(ls: seq<Label>, t: Core, c: ConnId)
    requires Run(INIT, ls, t) && !t.panicked
    ensures LifeIs(t, c, Times(ls, QueueRegister(c)), Times(ls, StartServing(c)),
                   Times(ls, QueueUnregister(c)), Times(ls, Finish(c)))
  {
    LifeFrom(INIT, ls, t, c, 0, 0, 0, 0);
  }

  lemma PanicEnds(s: Core, ls: seq<Label>, t: Core)
    requires Run(s, ls, t) && ls != [] && !t.panicked
    ensures !Panics(s, ls[0])
  {
  }
}
