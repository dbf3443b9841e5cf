/**
 The hub goroutine and the connection handlers as one interleaved step system.

 A step is one channel operation, one lock operation, one map access or one mailbox offer; a
 label says which goroutine moves and resolves everything it cannot foresee (database answers,
 map iteration order, network failures).  A run is any sequence of enabled labels.
 The contents of mailboxes and of the wire live in `Messenger`; here a mailbox is open or closed.
 */
module HubCore {
  import opened GoStrings
  import opened ConversationKeys
  import opened HubHistory

  type ConnId = nat

  const REGISTER_CAP := 8
  const ROUTE_CAP := 256

  /** Where a routed message came from: the `index`-th request that the client of `conn` sent.  No step looks at it. */
  datatype Origin = Origin(conn: ConnId, index: nat)

  datatype Request =
    | SendMsg(toUser: Name, toGroup: Name, content: GoString, replyToId: int)
    | HistoryReq
    | UserListReq
    | CreateGroup(name: Name, members: seq<Name>)
    | GroupMsg(group: Name)
    | Typing(toUser: Name, toGroup: Name)
    | AddToGroup(group: Name, user: Name)
    | LeaveGroup(group: Name)
    | DeleteAccount
    | Unknown
    | Malformed(ofTyping: bool)

  datatype Tagged = Tagged(index: nat, req: Request)

  datatype Envelope =
    | Direct(msg: RecvMsg, origin: Origin)
    | GroupPost
    | HistoryResp
    | UserListResp
    | TypingNotice
    | ErrorMsg

  /** What a handler does next; `Lookup` and `Range` turn into `Offer`s while the lock is held. */
  datatype Action =
    | RLock
    | RUnlock
    | Lookup(user: Name, env: Envelope)
    | Range(env: Envelope)
    | Offer(target: ConnId, env: Envelope)
    | OwnOffer(env: Envelope)
    | Route(msg: RecvMsg, origin: Origin)

  /** What the limiter, the database and the clock make of a request. */
  datatype Outcome =
    | Refused
    | Served(id: int, sentAt: GoString, members: seq<Name>, existed: bool)

  // ---- what the handlers do -----------------------------------------------------

  const REFUSE: seq<Action> := [OwnOffer(ErrorMsg)]

  /** `OnlineUsers` */
  const SNAPSHOT: seq<Action> := [RLock, RUnlock]

  function Lookups(members: seq<Name>, env: Envelope): seq<Action> {
    seq(|members|, i requires 0 <= i < |members| => Lookup(members[i], env))
  }

  function Others(members: seq<Name>, user: Name): seq<Name> {
    if members == [] then []
    else (if members[0] == user then [] else [members[0]]) + Others(members[1..], user)
  }

  function Locked(body: seq<Action>): seq<Action> {
    [RLock] + body + [RUnlock]
  }

  function NotifyGroupMembers(members: seq<Name>): seq<Action> {
    SNAPSHOT + Locked(Lookups(members, UserListResp))
  }

  function BroadcastSystemMsg(members: seq<Name>): seq<Action> {
    Locked(Lookups(members, GroupPost))
  }

  const BROADCAST_USER_LIST: seq<Action> := Locked([Range(UserListResp)])

  function Received(user: Name, req: Request, out: Outcome): RecvMsg
    requires req.SendMsg? && out.Served?
  {
    RecvMsg(out.id, user, req.toUser, req.toGroup, req.content, req.replyToId, out.sentAt)
  }

  /** The branches of `readLoop` and of the handlers it calls. */
  function Script(user: Name, origin: Origin, req: Request, out: Outcome): seq<Action> {
    match req
    case SendMsg(_, _, _, _) =>
      if out.Refused? then REFUSE
      else var m := Received(user, req, out); [OwnOffer(Direct(m, origin)), Route(m, origin)]
    case HistoryReq => [OwnOffer(HistoryResp)]
    case UserListReq => SNAPSHOT + [OwnOffer(UserListResp)]
    case CreateGroup(name, members) =>
      if out.Refused? || name == [] then REFUSE
      else if out.existed then BroadcastSystemMsg(out.members) + NotifyGroupMembers(out.members)
      else NotifyGroupMembers(members + [user])
    case GroupMsg(group) =>
      if out.Refused? || group == [] then REFUSE
      else [OwnOffer(GroupPost)] + Locked(Lookups(Others(out.members, user), GroupPost))
    case Typing(toUser, toGroup) =>
      if toUser != [] then Locked([Lookup(toUser, TypingNotice)])
      else if toGroup != [] then Locked(Lookups(Others(if out.Served? then out.members else [], user), TypingNotice))
      else []
    case AddToGroup(group, added) =>
      if out.Refused? || group == [] || added == [] then REFUSE
      else NotifyGroupMembers(out.members) + BroadcastSystemMsg(out.members)
    case LeaveGroup(group) =>
      if out.Refused? || group == [] then REFUSE
      else NotifyGroupMembers(out.members) + BroadcastSystemMsg(out.members + [user])
           + SNAPSHOT + [OwnOffer(UserListResp)]
    case DeleteAccount => if out.Refused? then REFUSE else []
    case Unknown => []
    case Malformed(ofTyping) => if ofTyping then [] else REFUSE
  }

  // ---- state ----------------------------------------------------------------------

  /**
   The life of `handleConn`: waiting to queue the register; the first user list; the read loop;
   its last request; waiting to queue the unregister; the farewell list; returned.
   */
  datatype Phase = Registering | Greeting | Serving | Quitting | Leaving | Farewell | Gone

  datatype Handler = Handler(user: Name, phase: Phase, todo: seq<Action>, locked: bool)

  /**
   Where `Hub.Run` stands.  Between `Took` and `Pending` the hub calls `Lock`; from there on new
   readers wait, and the hub goes on to `Holding` when the old ones have left.
   */
  datatype HubPc =
    | Idle
    | Took(e: Event<ConnId>)
    | Pending(e: Event<ConnId>)
    | Holding(e: Event<ConnId>)
    | Applied
    | Routing(msg: RecvMsg, origin: Origin)
    | Looking(msg: RecvMsg, origin: Origin)
    | Delivering(msg: RecvMsg, origin: Origin, found: bool, target: ConnId)

  datatype Routed = Routed(msg: RecvMsg, origin: Origin)

  datatype Core = Core(
    conns: seq<Handler>,
    registerQ: seq<ConnId>,
    unregisterQ: seq<ConnId>,
    routeQ: seq<Routed>,
    book: Book<ConnId>,
    hub: HubPc,
    hist: seq<Event<ConnId>>,
    panicked: bool)

  const INIT := Core([], [], [], [], Book(map[], {}), Idle, [], false)

  datatype Label =
    | Accept(user: Name)
    | QueueRegister(c: ConnId)
    | StartServing(c: ConnId)
    | ReadFrame(c: ConnId, frame: Tagged, out: Outcome)
    | Hangup(c: ConnId)
    | Quit(c: ConnId)
    | QueueUnregister(c: ConnId)
    | Finish(c: ConnId)
    | Act(c: ConnId, order: seq<Name>)
    | HubTakeRegister
    | HubTakeUnregister
    | HubTakeRoute
    | HubCallLock
    | HubLock
    | HubApply
    | HubUnlock
    | HubRLock
    | HubLookup
    | HubDeliver

  predicate OfHandler(l: Label) {
    l.QueueRegister? || l.StartServing? || l.ReadFrame? || l.Hangup?
    || l.Quit? || l.QueueUnregister? || l.Finish? || l.Act?
  }

  // ---- steps ------------------------------------------------------------------------

  predicate WriterAhead(hub: HubPc) {
    hub.Pending? || hub.Holding? || hub.Applied?
  }

  predicate NoReader(s: Core) {
    forall c :: 0 <= c < |s.conns| ==> !s.conns[c].locked
  }

  predicate Distinct<T(==)>(s: seq<T>) {
    forall i, j :: 0 <= i < j < |s| ==> s[i] != s[j]
  }

  /** One iteration order of the client map. */
  predicate Listing(order: seq<Name>, clients: map<Name, ConnId>) {
    Distinct(order) && (set n | n in order) == clients.Keys
  }

  predicate ActEnabled(s: Core, a: Action, order: seq<Name>) {
    match a
    case RLock => !WriterAhead(s.hub)
    case Range(_) => Listing(order, s.book.clients)
    case Route(_, _) => |s.routeQ| < ROUTE_CAP
    case _ => true
  }

  predicate Has(s: Core, c: ConnId, phase: Phase) {
    c < |s.conns| && s.conns[c].phase == phase
  }

  predicate AtRest(s: Core, c: ConnId, phase: Phase) {
    Has(s, c, phase) && s.conns[c].todo == []
  }

  /** After a panic the process is gone and no step follows. */
  predicate Enabled(s: Core, l: Label) {
    !s.panicked &&
    match l
    case Accept(_) => true
    case QueueRegister(c) => Has(s, c, Registering) && |s.registerQ| < REGISTER_CAP
    case StartServing(c) => AtRest(s, c, Greeting)
    case ReadFrame(c, _, _) => AtRest(s, c, Serving)
    case Hangup(c) => AtRest(s, c, Serving)
    case Quit(c) => AtRest(s, c, Quitting)
    case QueueUnregister(c) => Has(s, c, Leaving) && |s.unregisterQ| < REGISTER_CAP
    case Finish(c) => AtRest(s, c, Farewell)
    case Act(c, order) => c < |s.conns| && s.conns[c].todo != [] && ActEnabled(s, s.conns[c].todo[0], order)
    case HubTakeRegister => s.hub.Idle? && s.registerQ != [] && s.registerQ[0] < |s.conns|
    case HubTakeUnregister => s.hub.Idle? && s.unregisterQ != [] && s.unregisterQ[0] < |s.conns|
    case HubTakeRoute => s.hub.Idle? && s.routeQ != []
    case HubCallLock => s.hub.Took?
    case HubLock => s.hub.Pending? && NoReader(s)
    case HubApply => s.hub.Holding?
    case HubUnlock => s.hub.Applied?
    case HubRLock => s.hub.Routing?
    case HubLookup => s.hub.Looking?
    case HubDeliver => s.hub.Delivering?
  }

  function With(s: Core, c: ConnId, h: Handler): Core
    requires c < |s.conns|
  {
    s.(conns := s.conns[c := h])
  }

  /** The mailbox offer that a step makes, if any. */
  datatype Emission = Nothing | Emit(target: ConnId, env: Envelope)

  function Emits(s: Core, l: Label): Emission
    requires Enabled(s, l)
  {
    match l
    case Act(c, _) =>
      (match s.conns[c].todo[0]
       case Offer(t, env) => Emit(t, env)
       case OwnOffer(env) => Emit(c, env)
       case _ => Nothing)
    case HubDeliver => if s.hub.found then Emit(s.hub.target, Direct(s.hub.msg, s.hub.origin)) else Nothing
    case _ => Nothing
  }

  /** A send on a closed channel, or closing it again, panics, buffer space or not. */
  predicate Panics(s: Core, l: Label)
    requires Enabled(s, l)
  {
    || (Emits(s, l).Emit? && Emits(s, l).target in s.book.closed)
    || (l.HubApply? && s.hub.e.Unregistered? && s.hub.e.name in s.book.clients && s.hub.e.conn in s.book.closed)
  }

  function Acted(s: Core, c: ConnId, order: seq<Name>): Core
    requires Enabled(s, Act(c, order))
  {
    var h := s.conns[c];
    var a, rest := h.todo[0], h.todo[1..];
    match a
    case RLock => With(s, c, h.(todo := rest, locked := true))
    case RUnlock => With(s, c, h.(todo := rest, locked := false))
    case Lookup(n, env) =>
      With(s, c, h.(todo := if n in s.book.clients then [Offer(s.book.clients[n], env)] + rest else rest))
    case Range(env) => With(s, c, h.(todo := Offers(order, s.book.clients, env) + rest))
    case Offer(_, _) => With(s, c, h.(todo := rest))
    case OwnOffer(_) => With(s, c, h.(todo := rest))
    case Route(m, o) => With(s, c, h.(todo := rest)).(routeQ := s.routeQ + [Routed(m, o)])
  }

  function Offers(order: seq<Name>, clients: map<Name, ConnId>, env: Envelope): seq<Action>
    requires Listing(order, clients)
  {
    seq(|order|, i requires 0 <= i < |order| => assert order[i] in (set n | n in order); Offer(clients[order[i]], env))
  }

  function Next(s: Core, l: Label): Core
    requires Enabled(s, l)
  {
    if Panics(s, l) then s.(panicked := true) else
    match l
    case Accept(user) => s.(conns := s.conns + [Handler(user, Registering, [], false)])
    case QueueRegister(c) =>
      With(s, c, s.conns[c].(phase := Greeting, todo := BROADCAST_USER_LIST + [OwnOffer(UserListResp)]))
      .(registerQ := s.registerQ + [c])
    case StartServing(c) => With(s, c, s.conns[c].(phase := Serving))
    case ReadFrame(c, frame, out) =>
      With(s, c, s.conns[c].(
        todo := Script(s.conns[c].user, Origin(c, frame.index), frame.req, out),
        phase := if frame.req.DeleteAccount? then Quitting else Serving))
    case Hangup(c) => With(s, c, s.conns[c].(phase := Leaving))
    case Quit(c) => With(s, c, s.conns[c].(phase := Leaving))
    case QueueUnregister(c) =>
      With(s, c, s.conns[c].(phase := Farewell, todo := BROADCAST_USER_LIST)).(unregisterQ := s.unregisterQ + [c])
    case Finish(c) => With(s, c, s.conns[c].(phase := Gone))
    case Act(c, order) => Acted(s, c, order)
    case HubTakeRegister =>
      var c := s.registerQ[0];
      s.(registerQ := s.registerQ[1..], hub := Took(Registered(s.conns[c].user, c)))
    case HubTakeUnregister =>
      var c := s.unregisterQ[0];
      s.(unregisterQ := s.unregisterQ[1..], hub := Took(Unregistered(s.conns[c].user, c)))
    case HubTakeRoute =>
      var r := s.routeQ[0];
      s.(routeQ := s.routeQ[1..], hub := if r.msg.toUser == [] then Idle else Routing(r.msg, r.origin))
    case HubCallLock => s.(hub := Pending(s.hub.e))
    case HubLock => s.(hub := Holding(s.hub.e))
    case HubApply => s.(book := Consumed(s.book, s.hub.e), hist := s.hist + [s.hub.e], hub := Applied)
    case HubUnlock => s.(hub := Idle)
    case HubRLock => s.(hub := Looking(s.hub.msg, s.hub.origin))
    case HubLookup =>
      var n := s.hub.msg.toUser;
      var found := n in s.book.clients;
      s.(hub := Delivering(s.hub.msg, s.hub.origin, found, if found then s.book.clients[n] else 0))
    case HubDeliver => s.(hub := Idle)
  }

  ghost predicate Run(s: Core, ls: seq<Label>, t: Core)
    decreases |ls|
  {
    if ls == [] then s == t else Enabled(s, ls[0]) && Run(Next(s, ls[0]), ls[1..], t)
  }

  /** A run in which each label, in the state where it is taken, also keeps the schedule `allowed`. */
  ghost predicate ScheduledRun(s: Core, ls: seq<Label>, t: Core, allowed: (Core, Label) -> bool)
    decreases |ls|
  {
    if ls == [] then s == t
    else Enabled(s, ls[0]) && allowed(s, ls[0]) && ScheduledRun(Next(s, ls[0]), ls[1..], t, allowed)
  }
}
