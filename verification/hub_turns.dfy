/** One login at a time under each name makes the online map exact. */
module HubTurns {
  import opened HubHistory
  import opened HubCore
  import opened HubSafety

  /** The hub has consumed the connection's unregister. */
  predicate HasLeft(s: Core, c: ConnId)
    requires c < |s.conns|
  {
    Left(s.conns[c].phase) && c !in s.unregisterQ
  }

  /**
   The schedule assumed: a name's next register is queued only after the unregister of every
   connection before it has been consumed, and each register is consumed before its own unregister
   is queued.
   */
  predicate OneAtATime(s: Core, l: Label) {
    && Orderly(s, l)
    && (l.QueueRegister? ==>
          l.c < |s.conns| && forall d :: 0 <= d < |s.conns| && Predecessor(s, d, l.c) ==> HasLeft(s, d))
  }

  /** Another connection under the same name has queued its register. */
  predicate Predecessor(s: Core, d: ConnId, c: ConnId)
    requires c < |s.conns| && d < |s.conns|
  {
    d != c && s.conns[d].user == s.conns[c].user && s.conns[d].phase != Registering
  }

  ghost predicate Alone(s: Core) {
    forall c, d :: 0 <= c < d < |s.conns| && s.conns[c].user == s.conns[d].user
                   && s.conns[c].phase != Registering && s.conns[d].phase != Registering
                   ==> HasLeft(s, c) || HasLeft(s, d)
  }

  /** The history knows exactly the registers and unregisters that the hub is done with. */
  ghost predicate Recorded(s: Core) {
    && (forall n, c: ConnId :: Registers(s.hist, n, c) <==>
          && c < |s.conns| && s.conns[c].user == n && s.conns[c].phase != Registering
          && c !in s.registerQ && !Handling(s.hub, Registered(n, c)))
    && (forall n, c: ConnId :: Unregisters(s.hist, n, c) <==>
          && c < |s.conns| && s.conns[c].user == n
          && HasLeft(s, c) && !Handling(s.hub, Unregistered(n, c)))
  }

  /** While the hub handles a register, that connection has not left. */
  ghost predicate NotLeftYet(s: Core) {
    forall n, c: ConnId :: Handling(s.hub, Registered(n, c)) ==> c < |s.conns| && !HasLeft(s, c)
  }

  ghost predicate TurnInv(s: Core) {
    Inv(s) && NoDeadEntry(s) && Alone(s) && Recorded(s) && NotLeftYet(s) && TakesTurns(s.hist)
  }

  lemma ApplyTakesTurns(s: Core)
    requires TurnInv(s) && Enabled(s, HubApply)
    ensures FitsTurn(s.hist, s.hub.e)
  {
    var e := s.hub.e;
    assert Handling(s.hub, e);
    assert EventOk(s, e);
    match e {
      case Registered(n, c) =>
        assert Handling(s.hub, Registered(n, c));
        assert !Registers(s.hist, n, c) && !Unregisters(s.hist, n, c);
        forall d | Registers(s.hist, n, d) ensures Unregisters(s.hist, n, d) {
          assert d != c && !HasLeft(s, c);
          assert HasLeft(s, d) by {
            if c < d { assert HasLeft(s, c) || HasLeft(s, d); } else { assert Alone(s); }
          }
        }
      case Unregistered(n, c) =>
        assert c !in s.registerQ;
    }
  }

  lemma ApplyRecords(s: Core)
    requires TurnInv(s) && Enabled(s, HubApply) && !Panics(s, HubApply)
    ensures Recorded(Next(s, HubApply))
  {
    var t, e := Next(s, HubApply), s.hub.e;
    assert Handling(s.hub, e) && EventOk(s, e);
    assert forall n, c: ConnId :: Registers(t.hist, n, c) <==> Registers(s.hist, n, c) || e == Registered(n, c);
    assert forall n, c: ConnId :: Unregisters(t.hist, n, c) <==> Unregisters(s.hist, n, c) || e == Unregistered(n, c);
    assert forall c :: 0 <= c < |s.conns| ==> HasLeft(t, c) == HasLeft(s, c);
  }

  lemma ApplyKeepsTurns(s: Core)
    requires TurnInv(s) && Enabled(s, HubApply)
    ensures TurnInv(Next(s, HubApply))
  {
    SafeStateDoesNotPanic(s, HubApply);
    StepKeepsInv(s, HubApply);
    OrderlyStepKeepsSafety(s, HubApply);
    ApplyTakesTurns(s);
    ApplyRecords(s);
    ApplyKeepsStanding(s, Next(s, HubApply));
  }

  lemma ApplyKeepsStanding(s: Core, t: Core)
    requires Enabled(s, HubApply) && !Panics(s, HubApply) && t == Next(s, HubApply)
    ensures Alone(s) ==> Alone(t)
    ensures NotLeftYet(t)
    ensures TakesTurns(s.hist) && FitsTurn(s.hist, s.hub.e) ==> TakesTurns(t.hist)
  {
    assert forall c :: 0 <= c < |s.conns| ==> HasLeft(t, c) == HasLeft(s, c);
    assert t.hist[..|t.hist| - 1] == s.hist;
  }

  /** Steps that leave the history, the queues and each connection's name and standing alone. */
  ghost predicate SameStanding(s: Core, t: Core) {
    && t.hist == s.hist && t.registerQ == s.registerQ && t.unregisterQ == s.unregisterQ
    && |t.conns| == |s.conns|
    && (forall c :: 0 <= c < |s.conns| ==>
          && t.conns[c].user == s.conns[c].user
          && (t.conns[c].phase == Registering <==> s.conns[c].phase == Registering)
          && (Left(t.conns[c].phase) <==> Left(s.conns[c].phase)))
    && (forall e :: Handling(t.hub, e) <==> Handling(s.hub, e))
  }

  lemma SameStandingKeepsTurns(s: Core, t: Core)
    requires TurnInv(s) && SameStanding(s, t) && Inv(t) && NoDeadEntry(t)
    ensures TurnInv(t)
  {
    assert forall c :: 0 <= c < |s.conns| ==> HasLeft(t, c) == HasLeft(s, c);
  }

  lemma TakeKeepsTurns(s: Core, l: Label)
    requires TurnInv(s) && Enabled(s, l) && OneAtATime(s, l)
    requires l.HubTakeRegister? || l.HubTakeUnregister?
    ensures TurnInv(Next(s, l))
  {
    StepKeepsInv(s, l);
    OrderlyStepKeepsSafety(s, l);
    var t := Next(s, l);
    if l.HubTakeRegister? {
      var c := s.registerQ[0];
      assert c in s.registerQ;
      assert forall d :: d in s.registerQ <==> d == c || d in t.registerQ;
      assert c !in t.registerQ;
      assert forall d :: 0 <= d < |s.conns| ==> HasLeft(t, d) == HasLeft(s, d);
    } else {
      var c := s.unregisterQ[0];
      assert c in s.unregisterQ;
      assert forall d :: d in s.unregisterQ <==> d == c || d in t.unregisterQ;
      assert c !in t.unregisterQ;
      assert forall d :: 0 <= d < |s.conns| && d != c ==> HasLeft(t, d) == HasLeft(s, d);
    }
  }

  lemma QueueKeepsTurns(s: Core, l: Label)
    requires TurnInv(s) && Enabled(s, l) && OneAtATime(s, l)
    requires l.QueueRegister? || l.QueueUnregister?
    ensures TurnInv(Next(s, l))
  {
    StepKeepsInv(s, l);
    OrderlyStepKeepsSafety(s, l);
    var t, c := Next(s, l), l.c;
    if l.QueueRegister? {
      assert c !in s.registerQ;
      assert forall d :: d in t.registerQ <==> d in s.registerQ || d == c;
      assert forall d :: 0 <= d < |s.conns| ==> HasLeft(t, d) == HasLeft(s, d);
    } else {
      assert forall d :: d in t.unregisterQ <==> d in s.unregisterQ || d == c;
      assert forall d :: 0 <= d < |s.conns| ==> HasLeft(t, d) == HasLeft(s, d);
    }
  }

  lemma AcceptKeepsTurns(s: Core, user: Name)
    requires TurnInv(s) && Enabled(s, Accept(user))
    ensures TurnInv(Next(s, Accept(user)))
  {
    StepKeepsInv(s, Accept(user));
    OrderlyStepKeepsSafety(s, Accept(user));
    var t := Next(s, Accept(user));
    assert forall c :: 0 <= c < |s.conns| ==> t.conns[c] == s.conns[c] && HasLeft(t, c) == HasLeft(s, c);
  }

  lemma QuietStepKeepsTurns(s: Core, l: Label)
    requires TurnInv(s) && Enabled(s, l)
    requires !l.Accept? && !l.QueueRegister? && !l.QueueUnregister?
      && !l.HubTakeRegister? && !l.HubTakeUnregister? && !l.HubApply?
    ensures TurnInv(Next(s, l))
  {
    SafeStateDoesNotPanic(s, l);
    StepKeepsInv(s, l);
    OrderlyStepKeepsSafety(s, l);
    QuietStepKeepsStanding(s, l);
    SameStandingKeepsTurns(s, Next(s, l));
  }

  lemma QuietStepKeepsStanding(s: Core, l: Label)
    requires Inv(s) && Enabled(s, l) && !Panics(s, l)
    requires !l.Accept? && !l.QueueRegister? && !l.QueueUnregister?
      && !l.HubTakeRegister? && !l.HubTakeUnregister? && !l.HubApply?
    ensures SameStanding(s, Next(s, l))
  {
    QuietStepKeepsConns(s, l);
    QuietStepKeepsHub(s, l);
  }

  lemma QuietStepKeepsHub(s: Core, l: Label)
    requires Enabled(s, l) && !Panics(s, l)
    requires !l.QueueRegister? && !l.QueueUnregister?
    requires !l.HubTakeRegister? && !l.HubTakeUnregister? && !l.HubApply?
    ensures var t := Next(s, l);
            && t.hist == s.hist && t.registerQ == s.registerQ && t.unregisterQ == s.unregisterQ
            && forall e :: Handling(t.hub, e) <==> Handling(s.hub, e)
  {
  }

  lemma QuietStepKeepsConns(s: Core, l: Label)
    requires Inv(s) && Enabled(s, l) && !Panics(s, l) && !l.Accept? && !l.QueueRegister? && !l.QueueUnregister?
    ensures var t := Next(s, l);
            && |t.conns| == |s.conns|
            && forall c :: 0 <= c < |s.conns| ==>
                 && t.conns[c].user == s.conns[c].user
                 && (t.conns[c].phase == Registering <==> s.conns[c].phase == Registering)
                 && (Left(t.conns[c].phase) <==> Left(s.conns[c].phase))
  {
    if l.Act? {
      assert forall c :: 0 <= c < |s.conns| ==> Next(s, l).conns[c].phase == s.conns[c].phase;
    }
  }

  lemma StepKeepsTurns(s: Core, l: Label)
    requires TurnInv(s) && Enabled(s, l) && OneAtATime(s, l)
    ensures TurnInv(Next(s, l))
  {
    match l {
      case Accept(user) => AcceptKeepsTurns(s, user);
      case QueueRegister(_) => QueueKeepsTurns(s, l);
      case QueueUnregister(_) => QueueKeepsTurns(s, l);
      case HubTakeRegister => TakeKeepsTurns(s, l);
      case HubTakeUnregister => TakeKeepsTurns(s, l);
      case HubApply => ApplyKeepsTurns(s);
      case _ => QuietStepKeepsTurns(s, l);
    }
  }

  lemma {:induction false} EveryRunKeepsTurns(s: Core, ls: seq<Label>, t: Core)
    requires TurnInv(s) && ScheduledRun(s, ls, t, OneAtATime)
    ensures TurnInv(t)
    decreases |ls|
  {
    if ls != [] {
      StepKeepsTurns(s, ls[0]);
      EveryRunKeepsTurns(Next(s, ls[0]), ls[1..], t);
    }
  }

  lemma InitTakesTurns()
    ensures TurnInv(INIT)
  {
    assert forall n, c: ConnId :: !Registers(INIT.hist, n, c) && !Unregisters(INIT.hist, n, c);
  }

  /**
   In every such run the map holds exactly the connections registered and not yet unregistered, and
   exactly the unregistered connections have had their mailbox closed.
   */
  lemma OnlineMapIsExact(ls: seq<Label>, t: Core)
    requires ScheduledRun(INIT, ls, t, OneAtATime)
    ensures MapExact(t.book, t.hist) && ClosedExact(t.book, t.hist)
  {
    InitTakesTurns();
    EveryRunKeepsTurns(INIT, ls, t);
    ForgetSchedule(INIT, ls, t);
    BookIsReplayFrom(INIT, ls, t);
    TurnsMakeTheMapExact(t.hist);
  }

  /** The hub is done with the connection's register. */
  predicate HasJoined(s: Core, c: ConnId)
    requires c < |s.conns|
  {
    s.conns[c].phase != Registering && c !in s.registerQ && !Handling(s.hub, Registered(s.conns[c].user, c))
  }

  /** The hub is done with its unregister. */
  predicate IsGone(s: Core, c: ConnId)
    requires c < |s.conns|
  {
    HasLeft(s, c) && !Handling(s.hub, Unregistered(s.conns[c].user, c))
  }

  /** In every state of such a run those are the connections that have joined and are not gone. */
  lemma OnlineAreThoseNotLeft(ls: seq<Label>, t: Core, c: ConnId)
    requires ScheduledRun(INIT, ls, t, OneAtATime) && c < |t.conns|
    ensures var n := t.conns[c].user;
            (n in t.book.clients && t.book.clients[n] == c) <==> HasJoined(t, c) && !IsGone(t, c)
    ensures c in t.book.closed <==> IsGone(t, c)
  {
    OnlineMapIsExact(ls, t);
    InitTakesTurns();
    EveryRunKeepsTurns(INIT, ls, t);
    var n := t.conns[c].user;
    assert Registers(t.hist, n, c) <==> HasJoined(t, c);
    assert Unregisters(t.hist, n, c) <==> IsGone(t, c);
    forall m | Unregisters(t.hist, m, c) ensures m == n {}
  }

  lemma {:induction false} ForgetSchedule(s: Core, ls: seq<Label>, t: Core)
    requires ScheduledRun(s, ls, t, OneAtATime)
    ensures Run(s, ls, t)
    decreases |ls|
  {
    if ls != [] {
      ForgetSchedule(Next(s, ls[0]), ls[1..], t);
    }
  }
}
