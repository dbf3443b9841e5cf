/**
 The hub offers each direct message to one mailbox at most, in the order of sending, whichever
 connections its recipients turn out to have.
 */
module DeliveryOnce {
  import opened HubCore
  import opened HubSafety
  import opened Messenger
  import opened DeliveryOrder

  /** The message of connection `a` that a step offers from the hub, to whatever mailbox, by its position. */
  function HubOffer(s: System, st: Step, a: ConnId): seq<nat> {
    if st == Server(HubDeliver) && CanStep(s, st)
       && s.core.hub.found && s.core.hub.origin.conn == a && !Panics(s.core, HubDeliver)
    then [s.core.hub.origin.index] else []
  }

  function HubOffers(s: System, steps: seq<Step>, a: ConnId): seq<nat>
    decreases |steps|
  {
    if steps == [] || !CanStep(s, steps[0]) then []
    else HubOffer(s, steps[0], a) + HubOffers(After(s, steps[0]), steps[1..], a)
  }

  /** The stages of `StagesOf`, with the offers made so far in the place of one mailbox. */
  function OfferStages(s: System, a: ConnId, offered: seq<nat>): Stages
    requires a < |s.pipes| && |s.pipes| == |s.core.conns|
  {
    StagesOf(s, a, |s.pipes|).(mail := offered)
  }

  /** What the hub has offered, and then all that is on the way, is in line; a newcomer has nothing anywhere. */
  ghost predicate OfferedInLine(s: System, a: ConnId, offered: seq<nat>) {
    && |s.pipes| == |s.core.conns|
    && if a < |s.pipes| then InLine(OfferStages(s, a, offered), |s.pipes[a].sent|) else offered == []
  }

  /** Which connection's mailbox stands in `StagesOf` plays no part in the other stages. */
  lemma MailboxAside(s: System, a: ConnId, b: ConnId, offered: seq<nat>)
    requires a < |s.pipes| && |s.pipes| == |s.core.conns|
    ensures OfferStages(s, a, offered) == StagesOf(s, a, b).(mail := offered)
  {
  }

  lemma ServerStepKeepsOffered(s: System, l: Label, t: System, a: ConnId, offered: seq<nat>)
    requires ActorOk(s, l) && Moves(s, l, t) && !l.HubDeliver? && a < |s.pipes| && OfferedInLine(s, a, offered)
    ensures OfferedInLine(t, a, offered)
  {
    var b, n := a + 1, |s.pipes[a].sent|;
    var g := OfferStages(s, a, offered);
    MailboxAside(s, a, b, offered);
    if l.Act? {
      var r := ActMoves(s, l, t, a, b);
      QueuedForTheHub(g, r, StagesOf(t, a, b).todo, n);
    } else if l.ReadFrame? {
      ReadMoves(s, l, t, a, b);
      if l.c == a { ReadFromTheWire(g, l.frame.index, StagesOf(t, a, b).up, StagesOf(t, a, b).todo, n); }
    } else if l.HubTakeRoute? {
      var r := HubTakeMoves(s, t, a, b);
      TakenByTheHub(g, r, StagesOf(t, a, b).queue, StagesOf(t, a, b).hub, n);
    } else {
      QuietStepMoves(s, l, t, a, b);
    }
    MailboxAside(t, a, b, offered);
  }

  lemma DeliveryStages(s: System, t: System, a: ConnId, now: seq<nat>)
    requires Moves(s, HubDeliver, t) && a < |s.pipes|
    ensures |t.pipes| == |s.pipes| == |t.core.conns| && t.pipes[a].sent == s.pipes[a].sent
    ensures OfferStages(t, a, now) == OfferStages(s, a, now).(hub := [])
  {
    var kept := DeliveryMoves(s, t, a, |s.pipes|);
    MailboxAside(t, a, |s.pipes|, now);
  }

  lemma DeliveryKeepsOffered(s: System, t: System, a: ConnId, offered: seq<nat>, now: seq<nat>)
    requires Moves(s, HubDeliver, t) && a < |s.pipes| && OfferedInLine(s, a, offered)
    requires now == offered + if s.core.hub.found then AtHub(s.core.hub, a) else []
    ensures OfferedInLine(t, a, now)
  {
    DeliveryStages(s, t, a, now);
    OfferedByTheHub(OfferStages(s, a, offered), s.core.hub.found, |s.pipes[a].sent|);
    assert OfferStages(t, a, now)
           == OfferStages(s, a, offered).(hub := [],
              mail := if s.core.hub.found then offered + AtHub(s.core.hub, a) else offered);
  }

  lemma NewcomerKeepsOffered(s: System, l: Label, t: System, a: ConnId)
    requires AllGenuine(s) && Moves(s, l, t) && |s.pipes| <= a
    ensures HubOffer(s, Server(l), a) == []
    ensures OfferedInLine(t, a, [])
  {
    assert HubGenuine(s);
    NewcomerIsEmpty(s, l, t);
    if a < |t.pipes| {
      NothingFromNewcomer(s, l, t, a, |t.pipes|);
    }
  }

  lemma StepKeepsOffered(s: System, st: Step, t: System, a: ConnId, offered: seq<nat>, now: seq<nat>)
    requires AllGenuine(s) && Inv(s.core) && CanStep(s, st) && t == After(s, st) && OfferedInLine(s, a, offered)
    requires now == offered + HubOffer(s, st, a)
    ensures OfferedInLine(t, a, now)
  {
    assert HubOffer(s, st, a) == [] ==> now == offered;
    if st.OnPipe? {
      PipeStepKeepsOffered(s, st.c, st.p, t, a, offered);
    } else if Panics(s.core, st.l) {
      PanicKeepsOffered(s, t, a, offered);
    } else {
      MovesKeepOffered(s, st.l, t, a, offered, now);
    }
  }

  lemma MovesKeepOffered(s: System, l: Label, t: System, a: ConnId, offered: seq<nat>, now: seq<nat>)
    requires AllGenuine(s) && Inv(s.core) && Moves(s, l, t) && OfferedInLine(s, a, offered)
    requires now == offered + HubOffer(s, Server(l), a)
    ensures OfferedInLine(t, a, now)
  {
    if |s.pipes| <= a {
      NewcomerKeepsOffered(s, l, t, a);
    } else if l.HubDeliver? {
      DeliveryKeepsOffered(s, t, a, offered, now);
    } else {
      ActorIsOk(s, l);
      ServerStepKeepsOffered(s, l, t, a, offered);
      assert now == offered;
    }
  }

  lemma PanicKeepsOffered(s: System, t: System, a: ConnId, offered: seq<nat>)
    requires t == s.(core := s.core.(panicked := true)) && OfferedInLine(s, a, offered)
    ensures OfferedInLine(t, a, offered)
  {
    if a < |s.pipes| { assert OfferStages(t, a, offered) == OfferStages(s, a, offered); }
  }

  lemma PipeStepKeepsOffered(s: System, c: ConnId, p: PipeLabel, t: System, a: ConnId, offered: seq<nat>)
    requires CanStep(s, OnPipe(c, p)) && t == After(s, OnPipe(c, p)) && OfferedInLine(s, a, offered)
    ensures OfferedInLine(t, a, offered)
  {
    if a < |s.pipes| {
      PipeMoves(s, c, p, t, a, |s.pipes|);
      var g, q := OfferStages(s, a, offered), s.pipes[a];
      if c == a && p.UiSend? {
        NewlySent(g, |q.sent|);
      } else if c == a && p.ClientFail? {
        LostOnTheWayUp(g, Indices(q.up), Indices(q.sending), Indices(q.outgoing), |q.sent|);
      }
    }
  }

  lemma OfferedRises(s: System, a: ConnId, offered: seq<nat>)
    requires OfferedInLine(s, a, offered)
    ensures Rising(offered)
  {
    if a < |s.pipes| { FrontOfLineRises(OfferStages(s, a, offered), offered, |s.pipes[a].sent|); }
  }

  lemma {:induction false} OffersRise(s: System, steps: seq<Step>, t: System, a: ConnId, offered: seq<nat>)
    requires OrderInv(s) && SystemRun(s, steps, t) && OfferedInLine(s, a, offered)
    ensures Rising(offered + HubOffers(s, steps, a))
    decreases |steps|
  {
    if steps == [] {
      assert offered + HubOffers(s, steps, a) == offered;
      OfferedRises(s, a, offered);
    } else {
      var u, now := After(s, steps[0]), offered + HubOffer(s, steps[0], a);
      StepKeepsOffered(s, steps[0], u, a, offered, now);
      StepKeepsOrder(s, steps[0], u);
      OffersRise(u, steps[1..], t, a, now);
      OffersFirst(s, steps, u, a, offered, now);
    }
  }

  lemma Regroup(a: seq<nat>, b: seq<nat>, c: seq<nat>)
    ensures (a + b) + c == a + (b + c)
  {
  }

  lemma OffersFirst(s: System, steps: seq<Step>, u: System, a: ConnId, offered: seq<nat>, now: seq<nat>)
    requires steps != [] && CanStep(s, steps[0]) && u == After(s, steps[0])
    requires now == offered + HubOffer(s, steps[0], a)
    ensures offered + HubOffers(s, steps, a) == now + HubOffers(u, steps[1..], a)
  {
    Regroup(offered, HubOffer(s, steps[0], a), HubOffers(u, steps[1..], a));
  }

  /**
   In every run, the positions at which connection `a` sent the direct messages that the hub offers to
   anyone at all strictly rise: no message is offered twice, be it to two connections, and none overtakes another.
   */
  lemma HubOffersEachOnceInOrder(steps: seq<Step>, t: System, a: ConnId)
    requires SystemRun(START, steps, t)
    ensures Rising(HubOffers(START, steps, a))
  {
    OffersRise(START, steps, t, a, []);
    assert [] + HubOffers(START, steps, a) == HubOffers(START, steps, a);
  }

  /** The mailbox that the hub offers a message to is that of the addressee, as mapped when the offer is made. */
  lemma HubOffersToTheAddressee(steps: seq<Step>, t: System)
    requires SystemRun(START, steps, t) && CanStep(t, Server(HubDeliver)) && t.core.hub.found
    ensures var h := t.core.hub;
            && h.msg.toUser in t.core.book.clients && t.core.book.clients[h.msg.toUser] == h.target
            && h.target < |t.core.conns| && t.core.conns[h.target].user == h.msg.toUser
            && Genuine(t, h.msg, h.origin)
  {
    EveryRunKeepsOrder(START, steps, t);
    HubIsOk(t);
  }

  lemma HubIsOk(t: System)
    requires AllGenuine(t) && Inv(t.core) && t.core.hub.Delivering? && t.core.hub.found
    ensures var h := t.core.hub;
            && h.msg.toUser in t.core.book.clients && t.core.book.clients[h.msg.toUser] == h.target
            && h.target < |t.core.conns| && t.core.conns[h.target].user == h.msg.toUser
            && Genuine(t, h.msg, h.origin)
  {
    assert HubGenuine(t) && HubOk(t.core) && MapOk(t.core);
  }
}
