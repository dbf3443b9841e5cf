/**
 The schedule that `NoSendOnClosedMailbox` assumes is needed: a run of two logins under one name
 that ends in a send on a closed mailbox.
 */
module HubDeadEntry {
  import opened HubHistory
  import opened HubCore
  import opened HubSafety
  import opened HubProgress

  const ALICE: Name := [97, 108, 105, 99, 101]

  const GREETING: seq<Action> := [RLock, Range(UserListResp), RUnlock, OwnOffer(UserListResp)]

  const GREETED: seq<Action> := [RUnlock, OwnOffer(UserListResp)]

  const FAREWELL: seq<Action> := [RLock, Range(UserListResp), RUnlock]

  function Alice(phase: Phase, todo: seq<Action>, locked: bool): Handler {
    Handler(ALICE, phase, todo, locked)
  }

  /** Two handlers of one name, with nothing but registers queued. */
  function Both(first: Handler, second: Handler, registerQ: seq<ConnId>): Core {
    INIT.(conns := [first, second], registerQ := registerQ)
  }

  const STARTED: Handler := Alice(Registering, [], false)
  const WAITING: Handler := Alice(Greeting, GREETING, false)

  /** Both connections have queued their registers. */
  const BOTH_QUEUED := Both(WAITING, WAITING, [0, 1])

  /** The second has hung up, and queued its unregister too, before the hub has consumed anything. */
  const ONE_LEFT := Second(Alice(Farewell, FAREWELL, false)).(unregisterQ := [1])

  lemma {:induction false} RunThen(s: Core, ls: seq<Label>, t: Core, l: Label)
    requires Run(s, ls, t) && Enabled(t, l)
    ensures Run(s, ls + [l], Next(t, l))
    decreases |ls|
  {
    if ls == [] {
      assert ls + [l] == [l] && [l][1..] == [];
    } else {
      assert (ls + [l])[0] == ls[0] && (ls + [l])[1..] == ls[1..] + [l];
      RunThen(Next(s, ls[0]), ls[1..], t, l);
    }
  }

  ghost predicate Reachable(t: Core) {
    exists ls :: Run(INIT, ls, t)
  }

  lemma Then(t: Core, l: Label) returns (u: Core)
    requires Reachable(t) && Enabled(t, l)
    ensures u == Next(t, l) && Reachable(u)
  {
    var ls :| Run(INIT, ls, t);
    RunThen(INIT, ls, t, l);
    u := Next(t, l);
  }

  lemma Connect()
    ensures Reachable(Both(STARTED, STARTED, []))
  {
    assert Run(INIT, [], INIT);
    var t := Then(INIT, Accept(ALICE));
    t := Then(t, Accept(ALICE));
    assert t.conns == [STARTED, STARTED];
  }

  lemma Queue()
    requires Reachable(Both(STARTED, STARTED, []))
    ensures Reachable(BOTH_QUEUED)
  {
    assert BROADCAST_USER_LIST + [OwnOffer(UserListResp)] == GREETING;
    var t := Then(Both(STARTED, STARTED, []), QueueRegister(0));
    assert t == Both(WAITING, STARTED, [0]);
    t := Then(t, QueueRegister(1));
    assert t.conns == BOTH_QUEUED.conns && t.registerQ == BOTH_QUEUED.registerQ;
  }

  /** Where both are queued and the second handler has come to `h`. */
  function Second(h: Handler): Core {
    Both(WAITING, h, [0, 1])
  }

  /** The second handler's first user list goes over an empty map. */
  lemma GreetNobody()
    requires Reachable(BOTH_QUEUED)
    ensures Reachable(Second(Alice(Greeting, GREETED, true)))
  {
    var t := Then(BOTH_QUEUED, Act(1, []));
    assert t.conns[1] == Alice(Greeting, GREETING[1..], true);
    assert Listing([], t.book.clients);
    assert GREETING[1..][1..] == GREETED;
    t := Then(t, Act(1, []));
    assert t.conns[1].todo == GREETED;
    assert t.conns == Second(Alice(Greeting, GREETED, true)).conns;
  }

  lemma GreetedNobody()
    requires Reachable(Second(Alice(Greeting, GREETED, true)))
    ensures Reachable(Second(Alice(Greeting, [], false)))
  {
    var t := Then(Second(Alice(Greeting, GREETED, true)), Act(1, []));
    assert t.conns[1] == Alice(Greeting, GREETED[1..], false);
    t := Then(t, Act(1, []));
    assert t.conns[1].todo == [];
    assert t.conns == Second(Alice(Greeting, [], false)).conns;
  }

  /** It serves nothing, and hangs up. */
  lemma HangUp()
    requires Reachable(Second(Alice(Greeting, [], false)))
    ensures Reachable(Second(Alice(Leaving, [], false)))
  {
    var t := Then(Second(Alice(Greeting, [], false)), StartServing(1));
    t := Then(t, Hangup(1));
    assert t.conns == Second(Alice(Leaving, [], false)).conns;
  }

  lemma Leave()
    requires Reachable(Second(Alice(Leaving, [], false)))
    ensures Reachable(ONE_LEFT)
  {
    var t := Then(Second(Alice(Leaving, [], false)), QueueUnregister(1));
    assert BROADCAST_USER_LIST == FAREWELL;
    assert t.conns == ONE_LEFT.conns && t.unregisterQ == ONE_LEFT.unregisterQ;
  }

  /** The hub finishes the event it has taken. */
  lemma Finish(s: Core, e: Event<ConnId>)
    requires Reachable(s) && NoReader(s) && s.hub == Took(e) && !s.panicked
    requires e.Unregistered? ==> e.conn !in s.book.closed
    ensures Reachable(s.(book := Consumed(s.book, e), hist := s.hist + [e], hub := Idle))
  {
    var t := Then(s, HubCallLock);
    t := Then(t, HubLock);
    assert t == s.(hub := Holding(e));
    Apply(t, e);
  }

  lemma Apply(s: Core, e: Event<ConnId>)
    requires Reachable(s) && s.hub == Holding(e) && !s.panicked
    requires e.Unregistered? ==> e.conn !in s.book.closed
    ensures Reachable(s.(book := Consumed(s.book, e), hist := s.hist + [e], hub := Idle))
  {
    var t := Then(s, HubApply);
    t := Then(t, HubUnlock);
  }

  /** What the hub makes of `ONE_LEFT`, event by event. */
  function Mixed(registerQ: seq<ConnId>, unregisterQ: seq<ConnId>, book: Book<ConnId>, hist: seq<Event<ConnId>>): Core {
    ONE_LEFT.(registerQ := registerQ, unregisterQ := unregisterQ, book := book, hist := hist)
  }

  lemma TakeRegister(s: Core)
    requires Reachable(s) && NoReader(s) && Enabled(s, HubTakeRegister)
    ensures var e := Registered(s.conns[s.registerQ[0]].user, s.registerQ[0]);
            Reachable(s.(registerQ := s.registerQ[1..], book := Consumed(s.book, e), hist := s.hist + [e], hub := Idle))
  {
    var t := Then(s, HubTakeRegister);
    Finish(t, t.hub.e);
  }

  lemma TakeUnregister(s: Core)
    requires Reachable(s) && NoReader(s) && Enabled(s, HubTakeUnregister) && s.unregisterQ[0] !in s.book.closed
    ensures var e := Unregistered(s.conns[s.unregisterQ[0]].user, s.unregisterQ[0]);
            Reachable(s.(unregisterQ := s.unregisterQ[1..], book := Consumed(s.book, e),
                         hist := s.hist + [e], hub := Idle))
  {
    var t := Then(s, HubTakeUnregister);
    Finish(t, t.hub.e);
  }

  const E0: Event<ConnId> := Registered(ALICE, 0)
  const E1: Event<ConnId> := Unregistered(ALICE, 1)
  const E2: Event<ConnId> := Registered(ALICE, 1)

  const FIRST_IN := Mixed([1], [1], Book(map[ALICE := 0], {}), [E0])
  const SECOND_OUT := Mixed([1], [], Book(map[], {1}), [E0, E1])
  const SECOND_IN := Mixed([], [], Book(map[ALICE := 1], {1}), [E0, E1, E2])

  /** The hub takes the first register, then the unregister, then the register that is left. */
  lemma FirstIn()
    requires Reachable(ONE_LEFT)
    ensures Reachable(FIRST_IN)
  {
    TakeRegister(ONE_LEFT);
    assert ONE_LEFT.registerQ[1..] == [1] && ONE_LEFT.hist + [E0] == [E0];
  }

  lemma SecondOut()
    requires Reachable(FIRST_IN)
    ensures Reachable(SECOND_OUT)
  {
    TakeUnregister(FIRST_IN);
    assert FIRST_IN.hist + [E1] == SECOND_OUT.hist && FIRST_IN.unregisterQ[1..] == SECOND_OUT.unregisterQ;
    assert Consumed(FIRST_IN.book, E1) == SECOND_OUT.book;
  }

  lemma SecondIn()
    requires Reachable(SECOND_OUT)
    ensures Reachable(SECOND_IN)
  {
    TakeRegister(SECOND_OUT);
    assert SECOND_OUT.hist + [E2] == SECOND_IN.hist && SECOND_OUT.registerQ[1..] == SECOND_IN.registerQ;
    assert Consumed(SECOND_OUT.book, E2) == SECOND_IN.book;
  }

  /** The first connection's first user list then goes to the dead entry. */
  lemma Greet(s: Core) returns (t: Core)
    requires Reachable(s) && s == SECOND_IN
    ensures Reachable(t) && t.panicked
  {
    t := Then(s, Act(0, []));
    assert (set n | n in [ALICE]) == t.book.clients.Keys;
    t := Then(t, Act(0, [ALICE]));
    assert t.conns[0].todo[0] == Offer(1, UserListResp);
    t := Then(t, Act(0, []));
  }

  /** Without the schedule the claim is false: some run sends on a closed mailbox. */
  lemma SendOnClosedMailboxCanHappen()
    ensures exists ls, t :: Run(INIT, ls, t) && t.panicked
  {
    Connect();
    Queue();
    GreetNobody();
    GreetedNobody();
    HangUp();
    Leave();
    FirstIn();
    SecondOut();
    SecondIn();
    var t := Greet(SECOND_IN);
  }

  // ---- exactly when a panic is in reach of the handlers -----------------------------------

  /** Steps that the handlers take among themselves, new connections included; the hub stands still. */
  predicate HandlerSteps(ls: seq<Label>) {
    forall i :: 0 <= i < |ls| ==> ls[i].Accept? || OfHandler(ls[i])
  }

  ghost predicate InReach(s: Core, t: Core) {
    exists ls :: HandlerSteps(ls) && Run(s, ls, t)
  }

  lemma HandlersThen(s: Core, t: Core, l: Label) returns (u: Core)
    requires InReach(s, t) && Enabled(t, l) && (l.Accept? || OfHandler(l))
    ensures u == Next(t, l) && InReach(s, u)
  {
    var ls :| HandlerSteps(ls) && Run(s, ls, t);
    RunThen(s, ls, t, l);
    assert HandlerSteps(ls + [l]);
    u := Next(t, l);
  }

  lemma ListingFrom(clients: map<Name, ConnId>, n: Name) returns (order: seq<Name>)
    requires n in clients
    ensures Listing(order, clients) && order != [] && order[0] == n
  {
    var rest := ListingExists(clients - {n});
    order := [n] + rest;
    forall i | 0 <= i < |rest| ensures rest[i] != n {
      assert rest[i] in (set k | k in rest);
    }
    assert (set k | k in order) == (set k | k in rest) + {n};
  }

  /** A newcomer with room in the register channel gets to the point where it ranges over the map. */
  lemma NewcomerArrives(s: Core) returns (t: Core)
    requires !s.panicked && s.hub.Idle? && |s.registerQ| < REGISTER_CAP
    ensures InReach(s, t) && !t.panicked && t.book == s.book && t.hub == s.hub
    ensures |t.conns| == |s.conns| + 1 && t.conns[|s.conns|].todo == GREETING
  {
    assert Run(s, [], s) && HandlerSteps([]);
    var c := |s.conns|;
    t := HandlersThen(s, s, Accept(ALICE));
    t := HandlersThen(s, t, QueueRegister(c));
  }

  lemma NewcomerRanges(s: Core, t: Core, c: ConnId, n: Name) returns (u: Core)
    requires InReach(s, t) && !t.panicked && t.hub.Idle? && n in t.book.clients
    requires c < |t.conns| && t.conns[c].todo == GREETING
    ensures InReach(s, u) && !u.panicked && u.book == t.book && c < |u.conns|
    ensures u.conns[c].todo != [] && u.conns[c].todo[0] == Offer(t.book.clients[n], UserListResp)
  {
    u := HandlersThen(s, t, Act(c, []));
    assert u.conns[c].todo[0] == Range(UserListResp);
    var order := ListingFrom(u.book.clients, n);
    u := HandlersThen(s, u, Act(c, order));
  }

  lemma DeadEntryIsHit(s: Core)
    requires !s.panicked && s.hub.Idle? && |s.registerQ| < REGISTER_CAP && MapsClosed(s.book)
    ensures exists t :: InReach(s, t) && t.panicked
  {
    var n :| n in s.book.clients && s.book.clients[n] in s.book.closed;
    var t := NewcomerArrives(s);
    t := NewcomerRanges(s, t, |s.conns|, n);
    t := HandlersThen(s, t, Act(|s.conns|, []));
  }

  lemma {:induction false} HandlersHitDeadEntriesOnly(s: Core, ls: seq<Label>, t: Core)
    requires Inv(s) && !s.panicked && HandlerSteps(ls) && Run(s, ls, t) && t.panicked
    ensures MapsClosed(s.book)
    decreases |ls|
  {
    PanicMeetsDeadEntry(s, ls[0]);
    if !Panics(s, ls[0]) {
      StepKeepsInv(s, ls[0]);
      assert ls[0].Accept? || OfHandler(ls[0]);
      assert HandlerSteps(ls[1..]);
      HandlersHitDeadEntriesOnly(Next(s, ls[0]), ls[1..], t);
    }
  }

  /**
   Exactly when, in any reachable state where the hub is idle and the register channel has room, the
   handlers alone can come to a send on a closed mailbox: when the map holds a closed connection.
   */
  lemma PanicInReachExactlyWhen(past: seq<Label>, s: Core)
    requires Run(INIT, past, s) && !s.panicked && s.hub.Idle? && |s.registerQ| < REGISTER_CAP
    ensures (exists t :: InReach(s, t) && t.panicked) <==> MapsClosed(s.book)
  {
    if t :| InReach(s, t) && t.panicked {
      var ls :| HandlerSteps(ls) && Run(s, ls, t);
      EveryRunKeepsInv(INIT, past, s);
      HandlersHitDeadEntriesOnly(s, ls, t);
    }
    if MapsClosed(s.book) {
      DeadEntryIsHit(s);
    }
  }
}
