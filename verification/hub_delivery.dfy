/** A message that the hub takes from its queue is offered to its addressee whenever the addressee is online. */
module HubDelivery {
  import opened ConversationKeys
  import opened HubHistory
  import opened HubCore
  import opened HubProgress

  /** The offers that the hub makes along a run, in order. */
  ghost function HubEmits(s: Core, ls: seq<Label>): seq<Emission>
    decreases |ls|
  {
    if ls == [] || !Enabled(s, ls[0]) then []
    else
      (if OfHub(ls[0]) && Emits(s, ls[0]).Emit? then [Emits(s, ls[0])] else []) + HubEmits(Next(s, ls[0]), ls[1..])
  }

  predicate TakesNothing(ls: seq<Label>) {
    forall i :: 0 <= i < |ls| ==> !ls[i].HubTakeRegister? && !ls[i].HubTakeUnregister? && !ls[i].HubTakeRoute?
  }

  /** A run without panic in which the hub takes nothing more from its queues and at whose end it is idle. */
  ghost predicate HubFinishes(s: Core, ls: seq<Label>, t: Core) {
    Run(s, ls, t) && !t.panicked && t.hub.Idle? && TakesNothing(ls)
  }

  /** Step `k` of the run is the hub's lookup, in the state `m`. */
  ghost predicate LooksUp(s: Core, ls: seq<Label>, k: nat, m: Core) {
    k < |ls| && Run(s, ls[..k], m) && ls[k] == HubLookup
  }

  lemma LooksUpLater(s: Core, ls: seq<Label>, k: nat, m: Core)
    requires ls != [] && Enabled(s, ls[0]) && LooksUp(Next(s, ls[0]), ls[1..], k, m)
    ensures LooksUp(s, ls, k + 1, m)
  {
    assert ls[..k + 1][0] == ls[0] && ls[..k + 1][1..] == ls[1..][..k];
  }

  /** The next step of such a run; the other goroutines leave the hub where it stands. */
  lemma FinishesNext(s: Core, ls: seq<Label>, t: Core) returns (u: Core)
    requires HubFinishes(s, ls, t) && ls != []
    ensures Enabled(s, ls[0]) && !Panics(s, ls[0]) && u == Next(s, ls[0]) && HubFinishes(u, ls[1..], t)
    ensures !ls[0].HubTakeRegister? && !ls[0].HubTakeUnregister? && !ls[0].HubTakeRoute?
    ensures !OfHub(ls[0]) ==> u.hub == s.hub && HubEmits(s, ls) == HubEmits(u, ls[1..])
    ensures OfHub(ls[0]) ==>
              HubEmits(s, ls) == (if Emits(s, ls[0]).Emit? then [Emits(s, ls[0])] else []) + HubEmits(u, ls[1..])
  {
    u := Next(s, ls[0]);
    PanicEnds(s, ls, t);
    assert TakesNothing(ls[1..]) by {
      assert forall i :: 0 <= i < |ls[1..]| ==> ls[1..][i] == ls[i + 1];
    }
  }

  lemma {:induction false} IdleHubOffersNothing(s: Core, ls: seq<Label>, t: Core)
    requires HubFinishes(s, ls, t) && s.hub.Idle?
    ensures HubEmits(s, ls) == []
    decreases |ls|
  {
    if ls != [] {
      var u := FinishesNext(s, ls, t);
      IdleHubOffersNothing(u, ls[1..], t);
    }
  }

  lemma {:induction false} DeliveringOffers(s: Core, ls: seq<Label>, t: Core)
    requires HubFinishes(s, ls, t) && s.hub.Delivering?
    ensures HubEmits(s, ls) == if s.hub.found then [Emit(s.hub.target, Direct(s.hub.msg, s.hub.origin))] else []
    decreases |ls|
  {
    var u := FinishesNext(s, ls, t);
    if OfHub(ls[0]) {
      IdleHubOffersNothing(u, ls[1..], t);
    } else {
      DeliveringOffers(u, ls[1..], t);
    }
  }

  /** What the hub is to offer for a message, over the map as it is at the lookup. */
  ghost function ToAddressee(msg: RecvMsg, o: Origin, online: map<Name, ConnId>): seq<Emission> {
    if msg.toUser in online then [Emit(online[msg.toUser], Direct(msg, o))] else []
  }

  lemma {:induction false} LookingOffers(s: Core, ls: seq<Label>, t: Core) returns (k: nat, m: Core)
    requires HubFinishes(s, ls, t) && s.hub.Looking?
    ensures LooksUp(s, ls, k, m)
    ensures HubEmits(s, ls) == ToAddressee(s.hub.msg, s.hub.origin, m.book.clients)
    decreases |ls|
  {
    var u := FinishesNext(s, ls, t);
    if OfHub(ls[0]) {
      k, m := 0, s;
      DeliveringOffers(u, ls[1..], t);
    } else {
      k, m := LookingOffers(u, ls[1..], t);
      LooksUpLater(s, ls, k, m);
      k := k + 1;
    }
  }

  lemma {:induction false} RoutingOffers(s: Core, ls: seq<Label>, t: Core) returns (k: nat, m: Core)
    requires HubFinishes(s, ls, t) && s.hub.Routing?
    ensures LooksUp(s, ls, k, m)
    ensures HubEmits(s, ls) == ToAddressee(s.hub.msg, s.hub.origin, m.book.clients)
    decreases |ls|
  {
    var u := FinishesNext(s, ls, t);
    if OfHub(ls[0]) {
      k, m := LookingOffers(u, ls[1..], t);
    } else {
      k, m := RoutingOffers(u, ls[1..], t);
    }
    LooksUpLater(s, ls, k, m);
    k := k + 1;
  }

  /**
   From the moment the hub takes a message with an addressee until it is idle again, in any run: there is one
   lookup, and the hub's offers are exactly one to the connection that the map holds under the addressee's
   name at that lookup, or none, and that only if the map holds none then.
   */
  lemma AddresseeOnlineIsOffered(s: Core, ls: seq<Label>, t: Core, msg: RecvMsg, o: Origin)
    returns (k: nat, m: Core)
    requires ls != [] && ls[0] == HubTakeRoute && Run(s, ls, t) && !t.panicked
    requires t.hub.Idle? && TakesNothing(ls[1..])
    requires s.routeQ != [] && s.routeQ[0] == Routed(msg, o) && msg.toUser != []
    ensures LooksUp(s, ls, k, m)
    ensures HubEmits(s, ls)
            == if msg.toUser in m.book.clients then [Emit(m.book.clients[msg.toUser], Direct(msg, o))] else []
  {
    var u := Next(s, HubTakeRoute);
    PanicEnds(s, ls, t);
    k, m := RoutingOffers(u, ls[1..], t);
    LooksUpLater(s, ls, k, m);
    k := k + 1;
  }

  /** A message without an addressee is dropped when it is taken. */
  lemma NoAddresseeNoOffer(s: Core, ls: seq<Label>, t: Core)
    requires ls != [] && ls[0] == HubTakeRoute && Run(s, ls, t) && !t.panicked
    requires t.hub.Idle? && TakesNothing(ls[1..])
    requires s.routeQ != [] && s.routeQ[0].msg.toUser == []
    ensures HubEmits(s, ls) == []
  {
    PanicEnds(s, ls, t);
    IdleHubOffersNothing(Next(s, HubTakeRoute), ls[1..], t);
  }
}
