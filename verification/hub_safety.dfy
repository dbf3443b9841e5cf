/** What every step of the hub and its handlers keeps, and why no one sends on a closed mailbox. */
module HubSafety {
  import opened HubHistory
  import opened HubCore

  // ---- handler scripts ------------------------------------------------------------

  /**
   A script that may run from here: every lock is released, no lock is nested, nothing that can
   block and no own offer happens under the lock, and an offer to another connection happens under
   it.  `now` says that the lock held is held already; the offers in that section go to connections
   that the map still holds.
   */
  ghost predicate Sound(todo: seq<Action>, locked: bool, now: bool, clients: map<Name, ConnId>) {
    if todo == [] then !locked
    else
      match todo[0]
      case RLock => !locked && Sound(todo[1..], true, false, clients)
      case RUnlock => locked && Sound(todo[1..], false, false, clients)
      case Lookup(_, env) => locked && !env.Direct? && Sound(todo[1..], locked, now, clients)
      case Range(env) => locked && !env.Direct? && Sound(todo[1..], locked, now, clients)
      case Offer(t, env) =>
        locked && now && t in clients.Values && !env.Direct?
        && Sound(todo[1..], locked, now, clients)
      case OwnOffer(_) => !locked && Sound(todo[1..], locked, now, clients)
      case Route(_, _) => !locked && Sound(todo[1..], locked, now, clients)
  }

  lemma {:induction false} LockTakenNow(todo: seq<Action>, locked: bool, clients: map<Name, ConnId>)
    requires Sound(todo, locked, false, clients)
    ensures Sound(todo, locked, true, clients)
  {
    if todo != [] && !todo[0].RLock? && !todo[0].RUnlock? {
      LockTakenNow(todo[1..], locked, clients);
    }
  }

  /** A script whose lock is not yet taken does not depend on the map. */
  lemma {:induction false} UnlockedIgnoresMap(todo: seq<Action>, locked: bool,
    a: map<Name, ConnId>, b: map<Name, ConnId>)
    requires Sound(todo, locked, false, a)
    ensures Sound(todo, locked, false, b)
  {
    if todo != [] {
      UnlockedIgnoresMap(todo[1..], if todo[0].RLock? then true else if todo[0].RUnlock? then false else locked, a, b);
    }
  }

  lemma {:induction false} SoundConcat(a: seq<Action>, b: seq<Action>, locked: bool, now: bool,
    clients: map<Name, ConnId>)
    requires Sound(a, locked, now, clients) && Sound(b, false, false, clients)
    ensures Sound(a + b, locked, now, clients)
  {
    if a == [] {
      assert a + b == b;
      if now { LockTakenNow(b, false, clients); }
    } else {
      assert (a + b)[0] == a[0] && (a + b)[1..] == a[1..] + b;
      match a[0] {
        case RLock => SoundConcat(a[1..], b, true, false, clients);
        case RUnlock => SoundConcat(a[1..], b, false, false, clients);
        case _ => SoundConcat(a[1..], b, locked, now, clients);
      }
    }
  }

  lemma {:induction false} SoundBody(body: seq<Action>, rest: seq<Action>, now: bool, clients: map<Name, ConnId>)
    requires forall i :: 0 <= i < |body| ==>
               || (body[i].Lookup? && !body[i].env.Direct?)
               || (body[i].Range? && !body[i].env.Direct?)
               || (now && body[i].Offer? && body[i].target in clients.Values && !body[i].env.Direct?)
    requires Sound(rest, true, now, clients)
    ensures Sound(body + rest, true, now, clients)
  {
    if body == [] {
      assert body + rest == rest;
    } else {
      assert (body + rest)[0] == body[0] && (body + rest)[1..] == body[1..] + rest;
      SoundBody(body[1..], rest, now, clients);
    }
  }

  lemma SoundLocked(body: seq<Action>, clients: map<Name, ConnId>)
    requires forall i :: 0 <= i < |body| ==> (body[i].Lookup? || body[i].Range?) && !body[i].env.Direct?
    ensures Sound(Locked(body), false, false, clients)
  {
    assert Sound([], false, false, clients);
    assert [RUnlock][1..] == [];
    SoundBody(body, [RUnlock], false, clients);
    assert Locked(body)[1..] == body + [RUnlock];
  }

  lemma SoundOwn(env: Envelope, clients: map<Name, ConnId>)
    ensures Sound([OwnOffer(env)], false, false, clients)
  {
    assert [OwnOffer(env)][1..] == [];
  }

  lemma SoundSnapshot(clients: map<Name, ConnId>)
    ensures Sound(SNAPSHOT, false, false, clients)
  {
    assert SNAPSHOT == Locked([]);
    SoundLocked([], clients);
  }

  lemma SoundNotify(members: seq<Name>, clients: map<Name, ConnId>)
    ensures Sound(NotifyGroupMembers(members), false, false, clients)
    ensures Sound(BroadcastSystemMsg(members), false, false, clients)
  {
    SoundSnapshot(clients);
    SoundLocked(Lookups(members, UserListResp), clients);
    SoundLocked(Lookups(members, GroupPost), clients);
    SoundConcat(SNAPSHOT, Locked(Lookups(members, UserListResp)), false, false, clients);
  }

  lemma SoundBroadcast(clients: map<Name, ConnId>)
    ensures Sound(BROADCAST_USER_LIST, false, false, clients)
    ensures Sound(BROADCAST_USER_LIST + [OwnOffer(UserListResp)], false, false, clients)
  {
    SoundLocked([Range(UserListResp)], clients);
    SoundOwn(UserListResp, clients);
    SoundConcat(BROADCAST_USER_LIST, [OwnOffer(UserListResp)], false, false, clients);
  }

  /** Whatever the request and its outcome, the handler's script follows the lock discipline. */
  lemma EveryScriptIsSound(user: Name, o: Origin, req: Request, out: Outcome, clients: map<Name, ConnId>)
    ensures Sound(Script(user, o, req, out), false, false, clients)
  {
    SoundOwn(ErrorMsg, clients);
    match req {
      case SendMsg(_, _, _, _) =>
        if out.Served? {
          var m := Received(user, req, out);
          assert [Route(m, o)][1..] == [];
          assert [OwnOffer(Direct(m, o)), Route(m, o)][1..] == [Route(m, o)];
        }
      case HistoryReq => SoundOwn(HistoryResp, clients);
      case UserListReq =>
        SoundSnapshot(clients);
        SoundOwn(UserListResp, clients);
        SoundConcat(SNAPSHOT, [OwnOffer(UserListResp)], false, false, clients);
      case CreateGroup(_, members) =>
        SoundNotify(members + [user], clients);
        if out.Served? {
          SoundNotify(out.members, clients);
          SoundConcat(BroadcastSystemMsg(out.members), NotifyGroupMembers(out.members), false, false, clients);
        }
      case GroupMsg(_) =>
        if out.Served? {
          SoundOwn(GroupPost, clients);
          var body := Lookups(Others(out.members, user), GroupPost);
          SoundLocked(body, clients);
          SoundConcat([OwnOffer(GroupPost)], Locked(body), false, false, clients);
        }
      case Typing(toUser, _) =>
        SoundLocked([Lookup(toUser, TypingNotice)], clients);
        SoundLocked(Lookups(Others(if out.Served? then out.members else [], user), TypingNotice), clients);
      case AddToGroup(_, _) =>
        if out.Served? {
          SoundNotify(out.members, clients);
          SoundConcat(NotifyGroupMembers(out.members), BroadcastSystemMsg(out.members), false, false, clients);
        }
      case LeaveGroup(_) =>
        if out.Served? {
          var a, b := NotifyGroupMembers(out.members), BroadcastSystemMsg(out.members + [user]);
          SoundNotify(out.members, clients);
          SoundNotify(out.members + [user], clients);
          SoundSnapshot(clients);
          SoundOwn(UserListResp, clients);
          SoundConcat(a, b, false, false, clients);
          SoundConcat(a + b, SNAPSHOT, false, false, clients);
          SoundConcat(a + b + SNAPSHOT, [OwnOffer(UserListResp)], false, false, clients);
        }
      case _ =>
    }
  }

  // ---- the invariant ------------------------------------------------------------------

  predicate Left(p: Phase) {
    p == Farewell || p == Gone
  }

  predicate Handling(hub: HubPc, e: Event<ConnId>) {
    (hub.Took? || hub.Pending? || hub.Holding?) && hub.e == e
  }

  ghost predicate NoOwn(todo: seq<Action>) {
    forall i :: 0 <= i < |todo| ==> !todo[i].OwnOffer? && !todo[i].Route?
  }

  ghost predicate HandlerOk(h: Handler, clients: map<Name, ConnId>) {
    && Sound(h.todo, h.locked, h.locked, clients)
    && (h.phase == Registering || h.phase == Leaving || h.phase == Gone ==> h.todo == [])
    && (h.phase == Farewell ==> NoOwn(h.todo))
  }

  ghost predicate HandlersOk(s: Core) {
    forall c :: 0 <= c < |s.conns| ==> HandlerOk(s.conns[c], s.book.clients)
  }

  /** The map files every connection under its own name. */
  ghost predicate MapOk(s: Core) {
    forall n :: n in s.book.clients ==> s.book.clients[n] < |s.conns| && s.conns[s.book.clients[n]].user == n
  }

  ghost predicate QueuesOk(s: Core) {
    && Distinct(s.registerQ) && Distinct(s.unregisterQ)
    && (forall c :: c in s.registerQ ==> c < |s.conns| && s.conns[c].phase != Registering)
    && (forall c :: c in s.unregisterQ ==> c < |s.conns| && Left(s.conns[c].phase))
  }

  ghost predicate HubOk(s: Core) {
    match s.hub
    case Took(e) => EventOk(s, e)
    case Pending(e) => EventOk(s, e)
    case Holding(e) => EventOk(s, e) && NoReader(s)
    case Applied => NoReader(s)
    case Delivering(m, _, found, t) => found ==> m.toUser in s.book.clients && s.book.clients[m.toUser] == t
    case _ => true
  }

  ghost predicate EventOk(s: Core, e: Event<ConnId>) {
    && e.conn < |s.conns| && s.conns[e.conn].user == e.name
    && match e
       case Registered(_, c) => s.conns[c].phase != Registering && c !in s.registerQ
       case Unregistered(_, c) => Left(s.conns[c].phase) && c !in s.unregisterQ
  }

  /** A closed mailbox belongs to a connection whose unregister the hub has consumed. */
  ghost predicate ClosedOk(s: Core) {
    forall c :: c in s.book.closed ==>
      && c < |s.conns| && Left(s.conns[c].phase) && c !in s.unregisterQ
      && (forall n :: !Handling(s.hub, Unregistered(n, c)))
  }

  ghost predicate Inv(s: Core) {
    HandlersOk(s) && MapOk(s) && QueuesOk(s) && HubOk(s) && ClosedOk(s)
  }

  // ---- every step keeps it -------------------------------------------------------------

  /** Handler steps that touch one handler and no queue. */
  lemma OneHandlerKeepsInv(s: Core, c: ConnId, h: Handler)
    requires Inv(s) && c < |s.conns|
    requires h.user == s.conns[c].user && HandlerOk(h, s.book.clients)
    requires s.conns[c].phase == Registering || h.phase != Registering
    requires Left(s.conns[c].phase) ==> Left(h.phase)
    requires s.hub.Holding? || s.hub.Applied? ==> !h.locked
    ensures Inv(With(s, c, h))
  {
    var t := With(s, c, h);
    assert forall d :: 0 <= d < |s.conns| ==> t.conns[d].user == s.conns[d].user;
  }

  lemma OfferIsSound(t: ConnId, env: Envelope, rest: seq<Action>, clients: map<Name, ConnId>)
    requires t in clients.Values && !env.Direct? && Sound(rest, true, true, clients)
    ensures Sound([Offer(t, env)] + rest, true, true, clients)
  {
    assert ([Offer(t, env)] + rest)[1..] == rest;
  }

  lemma OffersAreSound(order: seq<Name>, clients: map<Name, ConnId>, env: Envelope, rest: seq<Action>)
    requires Listing(order, clients) && !env.Direct? && Sound(rest, true, true, clients)
    ensures Sound(Offers(order, clients, env) + rest, true, true, clients)
  {
    var offers := Offers(order, clients, env);
    forall i | 0 <= i < |offers| ensures offers[i].Offer? && offers[i].target in clients.Values {
      assert order[i] in (set n | n in order);
    }
    SoundBody(offers, rest, true, clients);
  }

  /** What is left of a script after one action is again sound. */
  lemma ActedIsOk(s: Core, c: ConnId, order: seq<Name>)
    requires Enabled(s, Act(c, order)) && HandlerOk(s.conns[c], s.book.clients)
    ensures HandlerOk(Acted(s, c, order).conns[c], s.book.clients)
    ensures Acted(s, c, order).conns[c].locked ==> s.conns[c].locked || s.conns[c].todo[0].RLock?
  {
    var h, clients := s.conns[c], s.book.clients;
    var a, rest := h.todo[0], h.todo[1..];
    assert forall i :: 0 <= i < |rest| ==> rest[i] == h.todo[i + 1];
    match a {
      case RLock => LockTakenNow(rest, true, clients);
      case Lookup(n, env) => if n in clients { OfferIsSound(clients[n], env, rest, clients); }
      case Range(env) => OffersAreSound(order, clients, env, rest);
      case _ =>
    }
  }

  lemma ActKeepsInv(s: Core, c: ConnId, order: seq<Name>)
    requires Inv(s) && Enabled(s, Act(c, order)) && !Panics(s, Act(c, order))
    ensures Inv(Next(s, Act(c, order)))
  {
    assert HandlerOk(s.conns[c], s.book.clients);
    ActedIsOk(s, c, order);
    OneHandlerKeepsInv(s, c, Acted(s, c, order).conns[c]);
  }

  lemma PhaseKeepsInv(s: Core, l: Label)
    requires Inv(s) && Enabled(s, l)
    requires l.StartServing? || l.ReadFrame? || l.Hangup? || l.Quit? || l.Finish?
    ensures Inv(Next(s, l))
  {
    var h := s.conns[l.c];
    match l {
      case StartServing(c) => OneHandlerKeepsInv(s, c, h.(phase := Serving));
      case ReadFrame(c, frame, out) =>
        var o := Origin(c, frame.index);
        EveryScriptIsSound(h.user, o, frame.req, out, s.book.clients);
        OneHandlerKeepsInv(s, c, h.(todo := Script(h.user, o, frame.req, out),
                                    phase := if frame.req.DeleteAccount? then Quitting else Serving));
      case Hangup(c) => OneHandlerKeepsInv(s, c, h.(phase := Leaving));
      case Quit(c) => OneHandlerKeepsInv(s, c, h.(phase := Leaving));
      case Finish(c) => OneHandlerKeepsInv(s, c, h.(phase := Gone));
    }
  }

  lemma QueueRegisterKeepsInv(s: Core, c: ConnId)
    requires Inv(s) && Enabled(s, QueueRegister(c))
    ensures Inv(Next(s, QueueRegister(c)))
  {
    SoundBroadcast(s.book.clients);
    var h := s.conns[c].(phase := Greeting, todo := BROADCAST_USER_LIST + [OwnOffer(UserListResp)]);
    OneHandlerKeepsInv(s, c, h);
    var t, u := With(s, c, h), Next(s, QueueRegister(c));
    assert c !in s.registerQ;
    assert QueuesOk(u) by { assert forall d :: d in u.registerQ <==> d in s.registerQ || d == c; }
    assert HubOk(u);
  }

  lemma QueueUnregisterKeepsInv(s: Core, c: ConnId)
    requires Inv(s) && Enabled(s, QueueUnregister(c))
    ensures Inv(Next(s, QueueUnregister(c)))
  {
    SoundBroadcast(s.book.clients);
    var h := s.conns[c].(phase := Farewell, todo := BROADCAST_USER_LIST);
    OneHandlerKeepsInv(s, c, h);
    var t, u := With(s, c, h), Next(s, QueueUnregister(c));
    assert c !in s.unregisterQ && c !in s.book.closed;
    assert QueuesOk(u) by { assert forall d :: d in u.unregisterQ <==> d in s.unregisterQ || d == c; }
    assert HubOk(u);
  }

  lemma AcceptKeepsInv(s: Core, user: Name)
    requires Inv(s) && Enabled(s, Accept(user))
    ensures Inv(Next(s, Accept(user)))
  {
    var t := Next(s, Accept(user));
    assert forall c :: 0 <= c < |s.conns| ==> t.conns[c] == s.conns[c];
  }

  lemma TakeKeepsInv(s: Core, l: Label)
    requires Inv(s) && Enabled(s, l)
    requires l.HubTakeRegister? || l.HubTakeUnregister? || l.HubTakeRoute?
    ensures Inv(Next(s, l))
  {
    var t := Next(s, l);
    if l.HubTakeRegister? {
      assert forall c :: c in t.registerQ ==> c in s.registerQ;
    } else if l.HubTakeUnregister? {
      assert forall c :: c in t.unregisterQ ==> c in s.unregisterQ;
      assert s.unregisterQ[0] in s.unregisterQ;
    }
  }

  lemma ApplyKeepsInv(s: Core)
    requires Inv(s) && Enabled(s, HubApply) && !Panics(s, HubApply)
    ensures Inv(Next(s, HubApply))
  {
    var t := Next(s, HubApply);
    forall c | 0 <= c < |t.conns| ensures HandlerOk(t.conns[c], t.book.clients) {
      var h := s.conns[c];
      assert HandlerOk(h, s.book.clients) && !h.locked;
      UnlockedIgnoresMap(h.todo, false, s.book.clients, t.book.clients);
    }
  }

  lemma HubMoveKeepsInv(s: Core, l: Label)
    requires Inv(s) && Enabled(s, l) && !Panics(s, l)
    requires l.HubCallLock? || l.HubLock? || l.HubUnlock? || l.HubRLock? || l.HubLookup? || l.HubDeliver?
    ensures Inv(Next(s, l))
  {
  }

  lemma StepKeepsInv(s: Core, l: Label)
    requires Inv(s) && Enabled(s, l)
    ensures Inv(Next(s, l))
  {
    if Panics(s, l) {
      return;
    }
    match l {
      case Accept(user) => AcceptKeepsInv(s, user);
      case QueueRegister(c) => QueueRegisterKeepsInv(s, c);
      case QueueUnregister(c) => QueueUnregisterKeepsInv(s, c);
      case StartServing(_) => PhaseKeepsInv(s, l);
      case ReadFrame(_, _, _) => PhaseKeepsInv(s, l);
      case Hangup(_) => PhaseKeepsInv(s, l);
      case Quit(_) => PhaseKeepsInv(s, l);
      case Finish(_) => PhaseKeepsInv(s, l);
      case Act(c, order) => ActKeepsInv(s, c, order);
      case HubTakeRegister => TakeKeepsInv(s, l);
      case HubTakeUnregister => TakeKeepsInv(s, l);
      case HubTakeRoute => TakeKeepsInv(s, l);
      case HubApply => ApplyKeepsInv(s);
      case _ => HubMoveKeepsInv(s, l);
    }
  }

  lemma {:induction false} EveryRunKeepsInv(s: Core, ls: seq<Label>, t: Core)
    requires Inv(s) && Run(s, ls, t)
    ensures Inv(t)
    decreases |ls|
  {
    if ls != [] {
      StepKeepsInv(s, ls[0]);
      EveryRunKeepsInv(Next(s, ls[0]), ls[1..], t);
    }
  }

  // ---- no send on a closed mailbox ---------------------------------------------------------

  /** The schedule assumed: a connection's register has been consumed before its unregister is queued. */
  predicate Orderly(s: Core, l: Label) {
    l.QueueUnregister? ==> l.c !in s.registerQ
  }

  /** No closed connection is, or is about to come, under a name. */
  ghost predicate NoDeadEntry(s: Core) {
    && (forall n :: n in s.book.clients ==> s.book.clients[n] !in s.book.closed)
    && (forall c :: c in s.registerQ ==> c < |s.conns| && !Left(s.conns[c].phase))
    && (forall n, c :: Handling(s.hub, Registered(n, c)) ==> c !in s.book.closed)
  }

  /** No offer of any goroutine panics: the three arguments, and no mailbox is closed twice. */
  lemma SafeStateDoesNotPanic(s: Core, l: Label)
    requires Inv(s) && NoDeadEntry(s) && Enabled(s, l)
    ensures !Panics(s, l)
  {
    if l.Act? {
      var h := s.conns[l.c];
      assert HandlerOk(h, s.book.clients);
      if h.todo[0].OwnOffer? {
        assert !Left(h.phase);
      }
    } else if l.HubApply? && s.hub.e.Unregistered? {
      assert Handling(s.hub, Unregistered(s.hub.e.name, s.hub.e.conn));
    }
  }

  lemma OrderlyStepKeepsSafety(s: Core, l: Label)
    requires Inv(s) && NoDeadEntry(s) && Enabled(s, l) && Orderly(s, l)
    ensures NoDeadEntry(Next(s, l))
  {
    SafeStateDoesNotPanic(s, l);
    match l {
      case HubApply => OrderlyApply(s);
      case HubTakeRegister => OrderlyTake(s);
      case QueueRegister(c) => OrderlyQueue(s, c);
      case Act(_, _) => OrderlyAct(s, l);
      case _ =>
    }
  }

  lemma OrderlyQueue(s: Core, c: ConnId)
    requires NoDeadEntry(s) && Enabled(s, QueueRegister(c))
    ensures NoDeadEntry(Next(s, QueueRegister(c)))
  {
    assert forall d :: d in Next(s, QueueRegister(c)).registerQ ==> d in s.registerQ || d == c;
  }

  lemma OrderlyAct(s: Core, l: Label)
    requires NoDeadEntry(s) && Enabled(s, l) && l.Act? && !Panics(s, l)
    ensures NoDeadEntry(Next(s, l))
  {
    assert forall c :: 0 <= c < |s.conns| ==> Next(s, l).conns[c].phase == s.conns[c].phase;
  }

  lemma OrderlyApply(s: Core)
    requires Inv(s) && NoDeadEntry(s) && Enabled(s, HubApply) && !Panics(s, HubApply)
    ensures NoDeadEntry(Next(s, HubApply))
  {
    var e := s.hub.e;
    assert Handling(s.hub, e);
    if e.Registered? {
      assert Handling(s.hub, Registered(e.name, e.conn));
    }
  }

  lemma OrderlyTake(s: Core)
    requires Inv(s) && NoDeadEntry(s) && Enabled(s, HubTakeRegister)
    ensures NoDeadEntry(Next(s, HubTakeRegister))
  {
    var c := s.registerQ[0];
    assert c in s.registerQ && c !in s.book.closed;
    assert forall d :: d in s.registerQ[1..] ==> d in s.registerQ;
  }

  lemma {:induction false} OrderlyRunIsSafe(s: Core, ls: seq<Label>, t: Core)
    requires Inv(s) && NoDeadEntry(s) && !s.panicked
    requires ScheduledRun(s, ls, t, Orderly)
    ensures Inv(t) && NoDeadEntry(t) && !t.panicked
    decreases |ls|
  {
    if ls != [] {
      SafeStateDoesNotPanic(s, ls[0]);
      OrderlyStepKeepsSafety(s, ls[0]);
      StepKeepsInv(s, ls[0]);
      OrderlyRunIsSafe(Next(s, ls[0]), ls[1..], t);
    }
  }

  /**
   In every run that keeps the schedule, with any number of logins under one name: no goroutine
   ever sends on a closed mailbox, none is closed twice, and the map never holds a closed connection.
   */
  lemma NoSendOnClosedMailbox(ls: seq<Label>, t: Core)
    requires ScheduledRun(INIT, ls, t, Orderly)
    ensures !t.panicked
    ensures forall l :: Enabled(t, l) ==> !Panics(t, l)
    ensures forall l, b, env :: Enabled(t, l) && Emits(t, l) == Emit(b, env) ==> b !in t.book.closed
    ensures t.hub.Holding? && t.hub.e.Unregistered? && t.hub.e.name in t.book.clients ==> t.hub.e.conn !in t.book.closed
    ensures !MapsClosed(t.book)
  {
    OrderlyRunIsSafe(INIT, ls, t);
    forall l | Enabled(t, l) ensures !Panics(t, l) {
      SafeStateDoesNotPanic(t, l);
    }
    assert t.hub.Holding? ==> Enabled(t, HubApply);
  }

  /** Without any schedule: a mailbox is never closed twice, and a panic needs a dead entry in the map. */
  lemma PanicNeedsDeadEntry(ls: seq<Label>, t: Core, l: Label)
    requires Run(INIT, ls, t) && Enabled(t, l)
    ensures Panics(t, l) <==> exists b, env :: Emits(t, l) == Emit(b, env) && b in t.book.closed
    ensures l.HubApply? && t.hub.e.Unregistered? && t.hub.e.name in t.book.clients ==> t.hub.e.conn !in t.book.closed
    ensures Panics(t, l) ==> MapsClosed(t.book)
  {
    EveryRunKeepsInv(INIT, ls, t);
    PanicMeetsDeadEntry(t, l);
  }

  lemma PanicMeetsDeadEntry(s: Core, l: Label)
    requires Inv(s) && Enabled(s, l)
    ensures Panics(s, l) <==> exists b, env :: Emits(s, l) == Emit(b, env) && b in s.book.closed
    ensures l.HubApply? && s.hub.e.Unregistered? && s.hub.e.name in s.book.clients ==> s.hub.e.conn !in s.book.closed
    ensures Panics(s, l) ==> MapsClosed(s.book)
  {
    assert Emits(s, l).Emit? ==> Emits(s, l) == Emit(Emits(s, l).target, Emits(s, l).env);
    if l.HubApply? && s.hub.e.Unregistered? {
      assert Handling(s.hub, Unregistered(s.hub.e.name, s.hub.e.conn));
    }
    if Panics(s, l) {
      if l.Act? {
        assert HandlerOk(s.conns[l.c], s.book.clients);
      } else {
        assert s.hub.msg.toUser in s.book.clients;
      }
    }
  }

  // ---- history ---------------------------------------------------------------------------------

  /** In every run, orderly or not, the hub's book is the fold of the events it has applied. */
  lemma {:induction false} BookIsReplayFrom(s: Core, ls: seq<Label>, t: Core)
    requires Run(s, ls, t) && s.book == Replay(s.hist)
    ensures t.book == Replay(t.hist)
    decreases |ls|
  {
    if ls != [] {
      if ls[0].HubApply? {
        ReplayNext(s.hist, s.hub.e);
      }
      BookIsReplayFrom(Next(s, ls[0]), ls[1..], t);
    }
  }

  /** So who is online, and which mailboxes are closed, can be read off the history of any run; each closes once. */
  lemma OnlineMapIsTheHistory(ls: seq<Label>, t: Core, n: Name, c: ConnId)
    requires Run(INIT, ls, t)
    ensures n in t.book.clients <==> exists i: nat :: LastWith(t.hist, n, i) && t.hist[i].Registered?
    ensures forall i: nat :: LastWith(t.hist, n, i) && t.hist[i].Registered?
              ==> n in t.book.clients && t.book.clients[n] == t.hist[i].conn
    ensures c in t.book.closed <==> exists i: nat :: Closes(t.hist, c, i)
    ensures forall i: nat, j: nat :: Closes(t.hist, c, i) && Closes(t.hist, c, j) ==> i == j
  {
    BookIsReplayFrom(INIT, ls, t);
    OnlineIffLastEventRegisters(t.hist, n);
    ClosedIffNameHadEntry(t.hist, c);
    EveryRunKeepsHistory(INIT, ls, t);
    HistoryNamesFixed(t);
    ClosedAtMostOnce(t.hist, c);
  }

  /** The event is over for its connection: neither to come, nor queued, nor in the hub's hands. */
  ghost predicate DoneWith(s: Core, e: Event<ConnId>) {
    && e.conn < |s.conns| && s.conns[e.conn].user == e.name && !Handling(s.hub, e)
    && match e
       case Registered(_, c) => s.conns[c].phase != Registering && c !in s.registerQ
       case Unregistered(_, c) => Left(s.conns[c].phase) && c !in s.unregisterQ
  }

  /** Each connection's events bear its name, and no event occurs twice. */
  ghost predicate HistoryOk(s: Core) {
    (forall e :: e in s.hist ==> DoneWith(s, e)) && NoRepeats(s.hist)
  }

  lemma StepKeepsDone(s: Core, l: Label, e: Event<ConnId>)
    requires DoneWith(s, e) && Enabled(s, l)
    ensures DoneWith(Next(s, l), e)
  {
    if OfHandler(l) && !Panics(s, l) {
      HandlerKeepsDone(s, l, e);
    } else if l.HubTakeRegister? {
      assert s.registerQ[0] in s.registerQ;
    } else if l.HubTakeUnregister? {
      assert s.unregisterQ[0] in s.unregisterQ;
    }
  }

  lemma HandlerKeepsDone(s: Core, l: Label, e: Event<ConnId>)
    requires DoneWith(s, e) && Enabled(s, l) && OfHandler(l) && !Panics(s, l)
    ensures DoneWith(Next(s, l), e)
  {
    var t := Next(s, l);
    assert t.hub == s.hub && |t.conns| == |s.conns|;
    assert l.c != e.conn ==> t.conns[e.conn] == s.conns[e.conn];
  }

  lemma StepKeepsHistory(s: Core, l: Label)
    requires Inv(s) && HistoryOk(s) && Enabled(s, l)
    ensures HistoryOk(Next(s, l))
  {
    forall e | e in s.hist ensures DoneWith(Next(s, l), e) {
      StepKeepsDone(s, l, e);
    }
    if l.HubApply? {
      ApplyKeepsHistory(s);
    } else {
      assert Next(s, l).hist == s.hist;
    }
  }

  /** What the hub has in hand is not in the history yet. */
  lemma ApplyKeepsHistory(s: Core)
    requires Inv(s) && HistoryOk(s) && Enabled(s, HubApply)
    ensures HistoryOk(Next(s, HubApply))
  {
    var e, t := s.hub.e, Next(s, HubApply);
    assert Handling(s.hub, e) && EventOk(s, e);
    forall f | f in t.hist ensures DoneWith(t, f) {
      if f in s.hist { StepKeepsDone(s, HubApply, f); }
    }
    assert e !in s.hist;
    assert forall i :: 0 <= i < |s.hist| ==> s.hist[i] in s.hist;
  }

  lemma HistoryNamesFixed(s: Core)
    requires HistoryOk(s)
    ensures NamesFixed(s.hist)
  {
    forall i, j | 0 <= i < |s.hist| && 0 <= j < |s.hist| && s.hist[i].conn == s.hist[j].conn
      ensures s.hist[i].name == s.hist[j].name
    {
      assert s.hist[i] in s.hist && s.hist[j] in s.hist;
    }
  }

  lemma {:induction false} EveryRunKeepsHistory(s: Core, ls: seq<Label>, t: Core)
    requires Inv(s) && HistoryOk(s) && Run(s, ls, t)
    ensures HistoryOk(t)
    decreases |ls|
  {
    if ls != [] {
      StepKeepsInv(s, ls[0]);
      StepKeepsHistory(s, ls[0]);
      EveryRunKeepsHistory(Next(s, ls[0]), ls[1..], t);
    }
  }

  /**
   Exactly when a run, of any schedule, brings a closed connection under a name: when it consumes a
   register after an unregister of the same connection that found the name online.  Where that has not
   happened, no step that can come next panics.
   */
  lemma DeadEntryExactlyWhen(ls: seq<Label>, t: Core)
    requires Run(INIT, ls, t)
    ensures (exists m: nat :: m <= |t.hist| && MapsClosed(Replay(t.hist[..m])))
            <==> exists i: nat, j: nat :: RegistersClosed(t.hist, i, j)
    ensures !(exists i: nat, j: nat :: RegistersClosed(t.hist, i, j))
            ==> forall l :: Enabled(t, l) ==> !Panics(t, l)
  {
    EveryRunKeepsHistory(INIT, ls, t);
    HistoryNamesFixed(t);
    NeverMapsClosedExactlyWhen(t.hist);
    BookIsReplayFrom(INIT, ls, t);
    assert t.hist[..|t.hist|] == t.hist;
    forall l | Enabled(t, l) && Panics(t, l) ensures MapsClosed(Replay(t.hist[..|t.hist|])) {
      PanicNeedsDeadEntry(ls, t, l);
    }
  }
}
