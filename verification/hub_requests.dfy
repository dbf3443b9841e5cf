/**
 Who is offered what by each request, in any run: from the frame that a handler reads to the end of its
 script, however the other goroutines move meanwhile.
 */
module HubRequests {
  import opened ConversationKeys
  import opened HubHistory
  import opened HubCore
  import opened HubSafety
  import opened HubFanOut

  // ---- what a request is to do -----------------------------------------------------------

  function At(maps: seq<Online>, i: nat): Online {
    if i < |maps| then maps[i] else map[]
  }

  /** The request, or what the limiter and the database say of it, is answered with an error. */
  predicate IsRefused(req: Request, out: Outcome) {
    match req
    case SendMsg(_, _, _, _) => out.Refused?
    case CreateGroup(name, _) => out.Refused? || name == []
    case GroupMsg(group) => out.Refused? || group == []
    case AddToGroup(group, user) => out.Refused? || group == [] || user == []
    case LeaveGroup(group) => out.Refused? || group == []
    case DeleteAccount => out.Refused?
    case Malformed(ofTyping) => !ofTyping
    case _ => false
  }

  predicate IsDirect(req: Request, out: Outcome) {
    req.SendMsg? && out.Served?
  }

  function DirectOf(user: Name, req: Request, out: Outcome): RecvMsg
    requires IsDirect(req, out)
  {
    RecvMsg(out.id, user, req.toUser, req.toGroup, req.content, req.replyToId, out.sentAt)
  }

  /**
   What a request is to lead to, in order.  `maps` are the maps of online clients at the moments when the
   handler takes the read lock; some of these moments serve only to list who is online.
   */
  function Expected(c: ConnId, user: Name, o: Origin, req: Request, out: Outcome, maps: seq<Online>): seq<Output> {
    if IsRefused(req, out) then [Offered(c, ErrorMsg)]
    else
      match req
      case SendMsg(_, _, _, _) =>
        var m := DirectOf(user, req, out);
        [Offered(c, Direct(m, o)), Queued(m, o)]
      case HistoryReq => [Offered(c, HistoryResp)]
      case UserListReq => [Offered(c, UserListResp)]
      case CreateGroup(_, members) =>
        if out.existed
        then ToNames(out.members, {}, At(maps, 0), GroupPost) + ToNames(out.members, {}, At(maps, 2), UserListResp)
        else ToNames(members + [user], {}, At(maps, 1), UserListResp)
      case GroupMsg(_) => [Offered(c, GroupPost)] + ToNames(out.members, {user}, At(maps, 0), GroupPost)
      case Typing(toUser, toGroup) =>
        if toUser != [] then ToNames([toUser], {}, At(maps, 0), TypingNotice)
        else if toGroup != [] && out.Served? then ToNames(out.members, {user}, At(maps, 0), TypingNotice)
        else []
      case AddToGroup(_, _) =>
        ToNames(out.members, {}, At(maps, 1), UserListResp) + ToNames(out.members, {}, At(maps, 2), GroupPost)
      case LeaveGroup(_) =>
        ToNames(out.members, {}, At(maps, 1), UserListResp)
        + ToNames(out.members + [user], {}, At(maps, 2), GroupPost)
        + [Offered(c, UserListResp)]
      case _ => []
  }

  /** How often the handler takes the read lock for it. */
  function LocksFor(req: Request, out: Outcome): nat {
    if IsRefused(req, out) then 0
    else
      match req
      case UserListReq => 1
      case CreateGroup(_, _) => if out.existed then 3 else 2
      case GroupMsg(_) => 1
      case Typing(toUser, toGroup) => if toUser != [] || toGroup != [] then 1 else 0
      case AddToGroup(_, _) => 3
      case LeaveGroup(_) => 4
      case _ => 0
  }

  // ---- the scripts do that ----------------------------------------------------------------

  /** What a script comes to, if it ranges over no map: its outputs over these maps, one for each locked section. */
  predicate Pays(todo: seq<Action>, c: ConnId, maps: seq<Online>, outputs: seq<Output>) {
    Plan(todo, c, maps, []) == outputs && Locks(todo) == |maps| && Ranges(todo) == 0
  }

  lemma {:induction false} LookupsPay(names: seq<Name>, env: Envelope, rest: seq<Action>, online: Online, c: ConnId,
                                      maps: seq<Online>)
    ensures var todo := Lookups(names, env) + ([RUnlock] + rest);
            && LockedPlan(todo, c, online, maps, []) == ToNames(names, {}, online, env) + Plan(rest, c, maps, [])
            && Locks(todo) == Locks(rest) && Ranges(todo) == Ranges(rest)
  {
    var todo := Lookups(names, env) + ([RUnlock] + rest);
    if names == [] {
      assert todo == [RUnlock] + rest && todo[1..] == rest;
    } else {
      assert todo[0] == Lookup(names[0], env);
      assert todo[1..] == Lookups(names[1..], env) + ([RUnlock] + rest);
      LookupsPay(names[1..], env, rest, online, c, maps);
      FirstName(names, online, env);
    }
  }

  lemma FirstName(names: seq<Name>, online: Online, env: Envelope)
    requires names != []
    ensures ToNames(names, {}, online, env)
            == ToNames([names[0]], {}, online, env) + ToNames(names[1..], {}, online, env)
  {
    assert [names[0]][1..] == [];
  }

  lemma NothingPays(c: ConnId)
    ensures Pays([], c, [], [])
  {
  }

  lemma OwnPays(env: Envelope, rest: seq<Action>, c: ConnId, maps: seq<Online>, outputs: seq<Output>)
    requires Pays(rest, c, maps, outputs)
    ensures Pays([OwnOffer(env)] + rest, c, maps, [Offered(c, env)] + outputs)
  {
    assert ([OwnOffer(env)] + rest)[1..] == rest;
  }

  lemma RoutePays(msg: RecvMsg, o: Origin, rest: seq<Action>, c: ConnId, maps: seq<Online>, outputs: seq<Output>)
    requires Pays(rest, c, maps, outputs)
    ensures Pays([Route(msg, o)] + rest, c, maps, [Queued(msg, o)] + outputs)
  {
    assert ([Route(msg, o)] + rest)[1..] == rest;
  }

  lemma SectionPays(names: seq<Name>, env: Envelope, rest: seq<Action>, c: ConnId, maps: seq<Online>,
                    outputs: seq<Output>)
    requires maps != [] && Pays(rest, c, maps[1..], outputs)
    ensures Pays(Locked(Lookups(names, env)) + rest, c, maps, ToNames(names, {}, maps[0], env) + outputs)
  {
    var todo := Locked(Lookups(names, env)) + rest;
    assert todo[0] == RLock && todo[1..] == Lookups(names, env) + ([RUnlock] + rest);
    LookupsPay(names, env, rest, maps[0], c, maps[1..]);
  }

  lemma SnapshotPays(rest: seq<Action>, c: ConnId, maps: seq<Online>, outputs: seq<Output>)
    requires maps != [] && Pays(rest, c, maps[1..], outputs)
    ensures Pays(SNAPSHOT + rest, c, maps, outputs)
  {
    SectionPays([], UserListResp, rest, c, maps, outputs);
    assert SNAPSHOT == Locked(Lookups([], UserListResp));
    assert ToNames([], {}, maps[0], UserListResp) + outputs == outputs;
  }

  lemma {:induction false} OthersAreSkipped(names: seq<Name>, user: Name, online: Online, env: Envelope)
    ensures ToNames(Others(names, user), {}, online, env) == ToNames(names, {user}, online, env)
  {
    if names != [] {
      OthersAreSkipped(names[1..], user, online, env);
      var rest := Others(names[1..], user);
      if names[0] != user {
        assert Others(names, user) == [names[0]] + rest && Others(names, user)[1..] == rest;
      } else {
        assert Others(names, user) == rest;
      }
    }
  }

  lemma NotifyPays(names: seq<Name>, rest: seq<Action>, c: ConnId, maps: seq<Online>, outputs: seq<Output>)
    requires |maps| > 1 && Pays(rest, c, maps[2..], outputs)
    ensures Pays(NotifyGroupMembers(names) + rest, c, maps, ToNames(names, {}, maps[1], UserListResp) + outputs)
  {
    assert maps[1..][1..] == maps[2..];
    SectionPays(names, UserListResp, rest, c, maps[1..], outputs);
    var later := Locked(Lookups(names, UserListResp)) + rest;
    SnapshotPays(later, c, maps, ToNames(names, {}, maps[1], UserListResp) + outputs);
    assert NotifyGroupMembers(names) + rest == SNAPSHOT + later;
  }

  lemma SystemMsgPays(names: seq<Name>, rest: seq<Action>, c: ConnId, maps: seq<Online>, outputs: seq<Output>)
    requires maps != [] && Pays(rest, c, maps[1..], outputs)
    ensures Pays(BroadcastSystemMsg(names) + rest, c, maps, ToNames(names, {}, maps[0], GroupPost) + outputs)
  {
    SectionPays(names, GroupPost, rest, c, maps, outputs);
  }

  lemma ErrorPays(c: ConnId)
    ensures Pays(REFUSE, c, [], [Offered(c, ErrorMsg)])
  {
    NothingPays(c);
    OwnPays(ErrorMsg, [], c, [], []);
    assert [OwnOffer(ErrorMsg)] + [] == REFUSE;
  }

  lemma CreateGroupPays(c: ConnId, user: Name, o: Origin, req: Request, out: Outcome, maps: seq<Online>)
    requires req.CreateGroup? && !IsRefused(req, out) && |maps| == LocksFor(req, out)
    ensures Pays(Script(user, o, req, out), c, maps, Expected(c, user, o, req, out, maps))
  {
    NothingPays(c);
    var todo := Script(user, o, req, out);
    if out.existed {
      var later := NotifyGroupMembers(out.members) + [];
      assert maps[1..][2..] == [] && maps[1..][1] == maps[2];
      NotifyPays(out.members, [], c, maps[1..], []);
      SystemMsgPays(out.members, later, c, maps, ToNames(out.members, {}, maps[2], UserListResp) + []);
      assert todo == BroadcastSystemMsg(out.members) + later;
    } else {
      assert maps[2..] == [];
      NotifyPays(req.members + [user], [], c, maps, []);
      assert todo == NotifyGroupMembers(req.members + [user]) + [];
    }
  }

  lemma AddToGroupPays(c: ConnId, user: Name, o: Origin, req: Request, out: Outcome, maps: seq<Online>)
    requires req.AddToGroup? && !IsRefused(req, out) && |maps| == LocksFor(req, out)
    ensures Pays(Script(user, o, req, out), c, maps, Expected(c, user, o, req, out, maps))
  {
    NothingPays(c);
    var later := BroadcastSystemMsg(out.members) + [];
    assert maps[2..][1..] == [] && maps[2..][0] == maps[2];
    SystemMsgPays(out.members, [], c, maps[2..], []);
    NotifyPays(out.members, later, c, maps, ToNames(out.members, {}, maps[2], GroupPost) + []);
    assert Script(user, o, req, out) == NotifyGroupMembers(out.members) + later;
  }

  lemma LeaveGroupPays(c: ConnId, user: Name, o: Origin, req: Request, out: Outcome, maps: seq<Online>)
    requires req.LeaveGroup? && !IsRefused(req, out) && |maps| == LocksFor(req, out)
    ensures Pays(Script(user, o, req, out), c, maps, Expected(c, user, o, req, out, maps))
  {
    NothingPays(c);
    OwnPays(UserListResp, [], c, [], []);
    var own := [OwnOffer(UserListResp)] + [];
    var list := SNAPSHOT + own;
    assert maps[3..][1..] == [];
    SnapshotPays(own, c, maps[3..], [Offered(c, UserListResp)]);
    var farewell := BroadcastSystemMsg(out.members + [user]) + list;
    assert maps[2..][1..] == maps[3..] && maps[2..][0] == maps[2];
    SystemMsgPays(out.members + [user], list, c, maps[2..], [Offered(c, UserListResp)]);
    var posts := ToNames(out.members + [user], {}, maps[2], GroupPost) + [Offered(c, UserListResp)];
    NotifyPays(out.members, farewell, c, maps, posts);
    assert Script(user, o, req, out) == NotifyGroupMembers(out.members) + farewell;
  }

  lemma TypingPays(c: ConnId, user: Name, o: Origin, req: Request, out: Outcome, maps: seq<Online>)
    requires req.Typing? && |maps| == LocksFor(req, out)
    ensures Pays(Script(user, o, req, out), c, maps, Expected(c, user, o, req, out, maps))
  {
    NothingPays(c);
    var names :=
      if req.toUser != [] then [req.toUser] else Others(if out.Served? then out.members else [], user);
    if req.toUser != [] || req.toGroup != [] {
      assert maps[1..] == [];
      SectionPays(names, TypingNotice, [], c, maps, []);
      assert req.toUser != [] ==> Lookups(names, TypingNotice) == [Lookup(req.toUser, TypingNotice)];
      assert Script(user, o, req, out) == Locked(Lookups(names, TypingNotice)) + [];
      if out.Served? { OthersAreSkipped(out.members, user, maps[0], TypingNotice); }
    }
  }

  lemma GroupMsgPays(c: ConnId, user: Name, o: Origin, req: Request, out: Outcome, maps: seq<Online>)
    requires req.GroupMsg? && !IsRefused(req, out) && |maps| == LocksFor(req, out)
    ensures Pays(Script(user, o, req, out), c, maps, Expected(c, user, o, req, out, maps))
  {
    NothingPays(c);
    var others := Others(out.members, user);
    var post := Locked(Lookups(others, GroupPost)) + [];
    assert maps[1..] == [];
    SectionPays(others, GroupPost, [], c, maps, []);
    OwnPays(GroupPost, post, c, maps, ToNames(others, {}, maps[0], GroupPost) + []);
    assert Script(user, o, req, out) == [OwnOffer(GroupPost)] + post;
    OthersAreSkipped(out.members, user, maps[0], GroupPost);
  }

  lemma SingleOffersPay(c: ConnId, user: Name, o: Origin, req: Request, out: Outcome, maps: seq<Online>)
    requires req.SendMsg? || req.HistoryReq? || req.UserListReq?
    requires !IsRefused(req, out) && |maps| == LocksFor(req, out)
    ensures Pays(Script(user, o, req, out), c, maps, Expected(c, user, o, req, out, maps))
  {
    NothingPays(c);
    var todo := Script(user, o, req, out);
    if req.SendMsg? {
      var m := DirectOf(user, req, out);
      RoutePays(m, o, [], c, [], []);
      OwnPays(Direct(m, o), [Route(m, o)] + [], c, [], [Queued(m, o)]);
      assert todo == [OwnOffer(Direct(m, o))] + ([Route(m, o)] + []);
    } else {
      var env := if req.HistoryReq? then HistoryResp else UserListResp;
      var own := [OwnOffer(env)] + [];
      OwnPays(env, [], c, [], []);
      if req.UserListReq? {
        assert maps[1..] == [];
        SnapshotPays(own, c, maps, [Offered(c, env)]);
        assert todo == SNAPSHOT + own;
      } else {
        assert todo == own;
      }
    }
  }

  /** The script of every request comes to what is expected of it. */
  lemma EveryScriptPays(c: ConnId, user: Name, o: Origin, req: Request, out: Outcome, maps: seq<Online>)
    requires |maps| == LocksFor(req, out)
    ensures Pays(Script(user, o, req, out), c, maps, Expected(c, user, o, req, out, maps))
  {
    NothingPays(c);
    if IsRefused(req, out) {
      ErrorPays(c);
    } else {
      match req {
        case CreateGroup(_, _) => CreateGroupPays(c, user, o, req, out, maps);
        case AddToGroup(_, _) => AddToGroupPays(c, user, o, req, out, maps);
        case LeaveGroup(_) => LeaveGroupPays(c, user, o, req, out, maps);
        case Typing(_, _) => TypingPays(c, user, o, req, out, maps);
        case GroupMsg(_) => GroupMsgPays(c, user, o, req, out, maps);
        case SendMsg(_, _, _, _) => SingleOffersPay(c, user, o, req, out, maps);
        case HistoryReq => SingleOffersPay(c, user, o, req, out, maps);
        case UserListReq => SingleOffersPay(c, user, o, req, out, maps);
        case _ =>
      }
    }
  }

  // ---- in every run -------------------------------------------------------------------------

  /**
   A run, without panic, that begins with the step `l` of handler `c` and in which it then works off what
   that step gave it to do, to the end.
   */
  ghost predicate Handles(s: Core, l: Label, ls: seq<Label>, t: Core, c: ConnId) {
    && ls != [] && ls[0] == l && Run(s, ls, t) && !t.panicked
    && c < |t.conns| && t.conns[c].todo == [] && OnlyActs(ls[1..], c)
  }

  predicate GivesScript(l: Label, c: ConnId) {
    (l.ReadFrame? || l.QueueRegister? || l.QueueUnregister?) && l.c == c
  }

  /** A step of a handler that gives it a script does nothing else, and comes when nothing is left to do. */
  lemma NewScriptPays(past: seq<Label>, s: Core, l: Label, ls: seq<Label>, t: Core, c: ConnId)
    requires Run(INIT, past, s) && Handles(s, l, ls, t, c) && GivesScript(l, c)
    ensures c < |s.conns| && c < |Next(s, l).conns| && WorksOff(Next(s, l), ls[1..], t, c)
    ensures !Next(s, l).conns[c].locked
    ensures var todo, maps, orders := Next(s, l).conns[c].todo, MapsAtLocks(c, s, ls), OrdersAtRanges(c, s, ls);
            && Outputs(c, s, ls) == Plan(todo, c, maps, orders)
            && |maps| == Locks(todo) && |orders| == Ranges(todo)
            && maps == MapsAtLocks(c, Next(s, l), ls[1..]) && orders == OrdersAtRanges(c, Next(s, l), ls[1..])
  {
    EveryRunKeepsInv(INIT, past, s);
    assert HandlerOk(s.conns[c], s.book.clients);
    StepKeepsInv(s, l);
    ScriptPays(Next(s, l), ls[1..], t, c);
    NothingFirst(s, l, ls, c);
  }

  lemma NothingFirst(s: Core, l: Label, ls: seq<Label>, c: ConnId)
    requires ls != [] && ls[0] == l && Enabled(s, l) && GivesScript(l, c)
    ensures Outputs(c, s, ls) == Outputs(c, Next(s, l), ls[1..])
    ensures MapsAtLocks(c, s, ls) == MapsAtLocks(c, Next(s, l), ls[1..])
    ensures OrdersAtRanges(c, s, ls) == OrdersAtRanges(c, Next(s, l), ls[1..])
  {
  }

  /** Working off a script changes neither the user nor the phase of a handler. */
  lemma {:induction false} ActsKeepPhase(s: Core, ls: seq<Label>, t: Core, c: ConnId)
    requires WorksOff(s, ls, t, c)
    ensures t.conns[c].phase == s.conns[c].phase && t.conns[c].user == s.conns[c].user
    decreases |ls|
  {
    if ls != [] {
      var u := WorksOffNext(s, ls, t, c);
      ActKeepsPhase(s, ls[0], c);
      ActsKeepPhase(u, ls[1..], t, c);
    }
  }

  lemma ActKeepsPhase(s: Core, l: Label, c: ConnId)
    requires Enabled(s, l) && c < |s.conns| && !Panics(s, l)
    requires OfHandler(l) && l.c == c ==> l.Act?
    ensures c < |Next(s, l).conns|
    ensures Next(s, l).conns[c].phase == s.conns[c].phase && Next(s, l).conns[c].user == s.conns[c].user
  {
    if !l.Act? {
      OthersLeaveIt(s, l, c);
    }
  }

  /**
   Every request, from its frame to the end of its script, in any run: the handler does exactly what is expected,
   in that order, over the maps that it finds when it takes the lock; and it goes on reading, unless
   the account was to be deleted.
   */
  lemma RequestIsServed(past: seq<Label>, s: Core, frame: Tagged, out: Outcome, ls: seq<Label>, t: Core, c: ConnId)
    requires Run(INIT, past, s) && Handles(s, ReadFrame(c, frame, out), ls, t, c)
    ensures c < |s.conns| && |MapsAtLocks(c, s, ls)| == LocksFor(frame.req, out)
    ensures Outputs(c, s, ls)
            == Expected(c, s.conns[c].user, Origin(c, frame.index), frame.req, out, MapsAtLocks(c, s, ls))
    ensures t.conns[c].phase == if frame.req.DeleteAccount? then Quitting else Serving
  {
    var l := ReadFrame(c, frame, out);
    NewScriptPays(past, s, l, ls, t, c);
    var user, o := s.conns[c].user, Origin(c, frame.index);
    EveryScriptPays(c, user, o, frame.req, out, seq(LocksFor(frame.req, out), _ => map[]));
    EveryScriptPays(c, user, o, frame.req, out, MapsAtLocks(c, s, ls));
    ActsKeepPhase(Next(s, l), ls[1..], t, c);
  }

  // ---- counted by connection ------------------------------------------------------------------

  /** Distinct names have distinct connections. */
  ghost predicate OneNameEach(online: Online) {
    forall m, n :: m in online && n in online && m != n ==> online[m] != online[n]
  }

  /** The connection `d` is that of one of the names that is online and not skipped. */
  ghost predicate IsAmong(names: seq<Name>, skip: set<Name>, online: Online, d: ConnId) {
    exists m :: m in names && m !in skip && m in online && online[m] == d
  }

  lemma {:induction false} OnceEach(names: seq<Name>, skip: set<Name>, online: Online, env: Envelope, d: ConnId)
    requires Distinct(names) && OneNameEach(online)
    ensures multiset(ToNames(names, skip, online, env))[Offered(d, env)]
            == if IsAmong(names, skip, online, d) then 1 else 0
    ensures forall p :: p in ToNames(names, skip, online, env) ==> p.Offered? && p.env == env
  {
    if names != [] {
      var m, tail := names[0], names[1..];
      OnceEach(tail, skip, online, env, d);
      assert m !in tail;
      assert forall n :: n in names <==> n == m || n in tail;
    }
  }

  lemma {:induction false} MapsAreInjective(s: Core, ls: seq<Label>, t: Core, c: ConnId)
    requires Inv(s) && Run(s, ls, t)
    ensures forall i :: 0 <= i < |MapsAtLocks(c, s, ls)| ==> OneNameEach(MapsAtLocks(c, s, ls)[i])
    decreases |ls|
  {
    if ls != [] {
      StepKeepsInv(s, ls[0]);
      assert OneNameEach(s.book.clients);
      MapsAreInjective(Next(s, ls[0]), ls[1..], t, c);
    }
  }

  lemma OneMore(first: Output, rest: seq<Output>, p: Output)
    ensures multiset([first] + rest)[p] == (if p == first then 1 else 0) + multiset(rest)[p]
  {
  }

  /**
   A served group message, in any run: it is offered first to the sender's connection, then once to the
   connection of each other member online when the lock is taken, and to nobody else; nothing else is done.
   */
  lemma GroupMessageIsOfferedOnce(past: seq<Label>, s: Core, frame: Tagged, out: Outcome, ls: seq<Label>, t: Core,
                                  c: ConnId, d: ConnId)
    requires Run(INIT, past, s) && Handles(s, ReadFrame(c, frame, out), ls, t, c)
    requires frame.req.GroupMsg? && frame.req.group != [] && out.Served? && Distinct(out.members)
    ensures c < |s.conns| && |MapsAtLocks(c, s, ls)| == 1
    ensures multiset(Outputs(c, s, ls))[Offered(d, GroupPost)]
            == (if d == c then 1 else 0)
               + (if IsAmong(out.members, {s.conns[c].user}, MapsAtLocks(c, s, ls)[0], d) then 1 else 0)
    ensures forall p :: p in Outputs(c, s, ls) ==> p.Offered? && p.env == GroupPost
  {
    RequestIsServed(past, s, frame, out, ls, t, c);
    EveryRunKeepsInv(INIT, past, s);
    MapsAreInjective(s, ls, t, c);
    ExpectedOfPost(c, s.conns[c].user, Origin(c, frame.index), frame.req, out, MapsAtLocks(c, s, ls));
    PostCounts(Outputs(c, s, ls), out.members, s.conns[c].user, MapsAtLocks(c, s, ls)[0], c, d);
  }

  lemma ExpectedOfPost(c: ConnId, user: Name, o: Origin, req: Request, out: Outcome, maps: seq<Online>)
    requires req.GroupMsg? && req.group != [] && out.Served?
    ensures LocksFor(req, out) == 1
    ensures |maps| == 1 ==>
              Expected(c, user, o, req, out, maps)
              == [Offered(c, GroupPost)] + ToNames(out.members, {user}, maps[0], GroupPost)
  {
  }

  lemma PostCounts(all: seq<Output>, members: seq<Name>, user: Name, online: Online, c: ConnId, d: ConnId)
    requires Distinct(members) && OneNameEach(online)
    requires all == [Offered(c, GroupPost)] + ToNames(members, {user}, online, GroupPost)
    ensures multiset(all)[Offered(d, GroupPost)]
            == (if d == c then 1 else 0) + (if IsAmong(members, {user}, online, d) then 1 else 0)
    ensures forall p :: p in all ==> p.Offered? && p.env == GroupPost
  {
    OnceEach(members, {user}, online, GroupPost, d);
    OneMore(Offered(c, GroupPost), ToNames(members, {user}, online, GroupPost), Offered(d, GroupPost));
  }

  /**
   A served direct message, in any run: its handler offers it once to the sender's own connection and to nobody
   else, and then queues it once for the hub, word for word and under the authenticated name.
   */
  lemma DirectMessageIsEchoedAndRoutedOnce(past: seq<Label>, s: Core, frame: Tagged, out: Outcome, ls: seq<Label>,
                                           t: Core, c: ConnId)
    requires Run(INIT, past, s) && Handles(s, ReadFrame(c, frame, out), ls, t, c)
    requires frame.req.SendMsg? && out.Served?
    ensures c < |s.conns|
    ensures var r, o := frame.req, Origin(c, frame.index);
            var m := RecvMsg(out.id, s.conns[c].user, r.toUser, r.toGroup, r.content, r.replyToId, out.sentAt);
            Outputs(c, s, ls) == [Offered(c, Direct(m, o)), Queued(m, o)]
  {
    RequestIsServed(past, s, frame, out, ls, t, c);
  }

  // ---- user lists -----------------------------------------------------------------------------

  /** The handler ranges over the map that it found when it took the lock. */
  lemma {:induction false} LockedRangeListsMap(s: Core, ls: seq<Label>, t: Core, c: ConnId)
    requires WorksOff(s, ls, t, c) && s.conns[c].locked && s.conns[c].todo != [] && s.conns[c].todo[0].Range?
    ensures OrdersAtRanges(c, s, ls) != [] && Listing(OrdersAtRanges(c, s, ls)[0], s.book.clients)
    decreases |ls|
  {
    var u := WorksOffNext(s, ls, t, c);
    if !(OfHandler(ls[0]) && ls[0].c == c) {
      OthersLeaveIt(s, ls[0], c);
      OthersLeaveMap(s, ls[0], c);
      LockedRangeListsMap(u, ls[1..], t, c);
    }
  }

  lemma {:induction false} RangeListsMap(s: Core, ls: seq<Label>, t: Core, c: ConnId)
    requires WorksOff(s, ls, t, c) && !s.conns[c].locked && |s.conns[c].todo| > 1
    requires s.conns[c].todo[0].RLock? && s.conns[c].todo[1].Range?
    ensures MapsAtLocks(c, s, ls) != [] && OrdersAtRanges(c, s, ls) != []
    ensures Listing(OrdersAtRanges(c, s, ls)[0], MapsAtLocks(c, s, ls)[0])
    decreases |ls|
  {
    var u := WorksOffNext(s, ls, t, c);
    if OfHandler(ls[0]) && ls[0].c == c {
      LockedRangeListsMap(u, ls[1..], t, c);
    } else {
      OthersLeaveIt(s, ls[0], c);
      RangeListsMap(u, ls[1..], t, c);
    }
  }

  lemma UserListPlan(todo: seq<Action>, newcomer: bool, c: ConnId, maps: seq<Online>, orders: seq<seq<Name>>)
    requires todo == BROADCAST_USER_LIST + (if newcomer then [OwnOffer(UserListResp)] else [])
    ensures Locks(todo) == 1 && Ranges(todo) == 1
    ensures |maps| == 1 && |orders| == 1 ==>
              Plan(todo, c, maps, orders)
              == ToNames(orders[0], {}, maps[0], UserListResp) + if newcomer then [Offered(c, UserListResp)] else []
  {
    var rest := if newcomer then [OwnOffer(UserListResp)] else [];
    var a, b := todo[1..], todo[2..];
    assert todo[0] == RLock && a[0] == Range(UserListResp) && a[1..] == b && b[0] == RUnlock && b[1..] == rest;
    assert rest != [] ==> rest[1..] == [];
    RestOfUserList(b, rest, c);
    if |maps| == 1 && |orders| == 1 {
      assert maps[1..] == [] && orders[1..] == [];
      assert LockedPlan(a, c, maps[0], [], orders)
             == ToNames(orders[0], {}, maps[0], UserListResp) + LockedPlan(b, c, maps[0], [], []);
    }
  }

  lemma RestOfUserList(b: seq<Action>, rest: seq<Action>, c: ConnId)
    requires b == [RUnlock] + rest && (rest == [] || rest == [OwnOffer(UserListResp)])
    ensures forall online :: LockedPlan(b, c, online, [], []) == if rest == [] then [] else [Offered(c, UserListResp)]
    ensures Locks(b) == 0 && Ranges(b) == 0
  {
    NothingPays(c);
    OwnPays(UserListResp, [], c, [], []);
    assert b[1..] == rest;
    assert rest != [] ==> rest == [OwnOffer(UserListResp)] + [];
  }

  /**
   The user list at the start and at the end of a connection, in any run: it is offered once to every connection
   mapped when the lock is taken, at the start once more to the newcomer's own after that, and to nobody else.
   */
  lemma UserListFanOut(past: seq<Label>, s: Core, l: Label, ls: seq<Label>, t: Core, c: ConnId, d: ConnId)
    requires Run(INIT, past, s) && Handles(s, l, ls, t, c)
    requires l == QueueRegister(c) || l == QueueUnregister(c)
    ensures |MapsAtLocks(c, s, ls)| == 1
    ensures multiset(Outputs(c, s, ls))[Offered(d, UserListResp)]
            == (if d in MapsAtLocks(c, s, ls)[0].Values then 1 else 0) + (if l.QueueRegister? && d == c then 1 else 0)
    ensures forall p :: p in Outputs(c, s, ls) ==> p.Offered? && p.env == UserListResp
    ensures l.QueueRegister? ==> [Offered(c, UserListResp)] == Last(Outputs(c, s, ls))
  {
    var order := UserListOutputs(past, s, l, ls, t, c);
    EveryRunKeepsInv(INIT, past, s);
    MapsAreInjective(s, ls, t, c);
    UserListCounts(Outputs(c, s, ls), l.QueueRegister?, order, MapsAtLocks(c, s, ls)[0], c, d);
  }

  lemma UserListOutputs(past: seq<Label>, s: Core, l: Label, ls: seq<Label>, t: Core, c: ConnId)
    returns (order: seq<Name>)
    requires Run(INIT, past, s) && Handles(s, l, ls, t, c)
    requires l == QueueRegister(c) || l == QueueUnregister(c)
    ensures |MapsAtLocks(c, s, ls)| == 1 && Listing(order, MapsAtLocks(c, s, ls)[0])
    ensures Outputs(c, s, ls)
            == ToNames(order, {}, MapsAtLocks(c, s, ls)[0], UserListResp)
               + if l.QueueRegister? then [Offered(c, UserListResp)] else []
  {
    NewScriptPays(past, s, l, ls, t, c);
    var todo := Next(s, l).conns[c].todo;
    UserListScript(s, l, c);
    UserListPlan(todo, l.QueueRegister?, c, MapsAtLocks(c, s, ls), OrdersAtRanges(c, s, ls));
    RangeListsMap(Next(s, l), ls[1..], t, c);
    order := OrdersAtRanges(c, s, ls)[0];
  }

  lemma UserListScript(s: Core, l: Label, c: ConnId)
    requires Enabled(s, l) && (l == QueueRegister(c) || l == QueueUnregister(c)) && c < |Next(s, l).conns|
    ensures var todo := Next(s, l).conns[c].todo;
            && todo == BROADCAST_USER_LIST + (if l.QueueRegister? then [OwnOffer(UserListResp)] else [])
            && |todo| > 1 && todo[0].RLock? && todo[1].Range?
  {
    assert BROADCAST_USER_LIST + [] == BROADCAST_USER_LIST;
  }

  function Last(s: seq<Output>): seq<Output> {
    if s == [] then [] else [s[|s| - 1]]
  }

  lemma UserListCounts(all: seq<Output>, newcomer: bool, order: seq<Name>, online: Online, c: ConnId, d: ConnId)
    requires Listing(order, online) && OneNameEach(online)
    requires all == ToNames(order, {}, online, UserListResp) + if newcomer then [Offered(c, UserListResp)] else []
    ensures multiset(all)[Offered(d, UserListResp)]
            == (if d in online.Values then 1 else 0) + (if newcomer && d == c then 1 else 0)
    ensures forall p :: p in all ==> p.Offered? && p.env == UserListResp
    ensures newcomer ==> [Offered(c, UserListResp)] == Last(all)
  {
    EveryoneOnce(order, online, d);
    var some, own := ToNames(order, {}, online, UserListResp), if newcomer then [Offered(c, UserListResp)] else [];
    assert multiset(some + own) == multiset(some) + multiset(own);
  }

  lemma EveryoneOnce(order: seq<Name>, online: Online, d: ConnId)
    requires Listing(order, online) && OneNameEach(online)
    ensures multiset(ToNames(order, {}, online, UserListResp))[Offered(d, UserListResp)]
            == if d in online.Values then 1 else 0
    ensures forall p :: p in ToNames(order, {}, online, UserListResp) ==> p.Offered? && p.env == UserListResp
  {
    OnceEach(order, {}, online, UserListResp, d);
    assert forall n :: n in order <==> n in (set k | k in order);
  }
}
