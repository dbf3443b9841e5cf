/**
 The hub object of `internal/server/hub.go` and the fan-out loops that run over its map, as one
 goroutine executes them while it holds the lock.  The steps of `HubCore` are these, interleaved.
 */
module Hubs {
  import opened ConversationKeys
  import opened HubHistory
  import opened HubCore
  import opened Messenger

  /** A mailbox after some offers: the first of them fill it up to 64, and the rest are dropped. */
  function Kept(box: seq<Envelope>, offers: seq<Envelope>): seq<Envelope> {
    if |box| >= 64 then box
    else if |box| + |offers| <= 64 then box + offers
    else box + offers[..64 - |box|]
  }

  class ClientConn {
    const username: Name
    var send: seq<Envelope>
    var closed: bool

    /** Every envelope offered to this connection, dropped ones included. */
    ghost var offers: seq<Envelope>

    constructor (username: Name)
      ensures this.username == username && send == [] && !closed && offers == []
    {
      this.username, send, closed, offers := username, [], false, [];
    }

    /** These were offered to it since, in this order; those that found room are buffered behind what was there. */
    twostate predicate Got(envs: seq<Envelope>)
      reads this
    {
      offers == old(offers) + envs && send == Kept(old(send), envs)
    }

    /** `select { case c.send <- env: default: }`; on a closed channel the send would panic. */
    method Offer(env: Envelope)
      requires !closed
      modifies this`send, this`offers
      ensures send == if |old(send)| < MAILBOX_CAP then old(send) + [env] else old(send)
      ensures Got([env])
    {
      if |send| < MAILBOX_CAP {
        send := send + [env];
      }
      offers := offers + [env];
    }
  }

  class Hub {
    var clients: map<Name, ClientConn>
    ghost var closed: set<ClientConn>

    ghost function View(): Book<ClientConn>
      reads this
    {
      Book(clients, closed)
    }

    /** Every connection is filed under its own name. */
    ghost predicate Filed()
      reads this, clients.Values, closed
    {
      && (forall n :: n in clients ==> clients[n].username == n)
      && (forall c :: c in closed ==> c.closed)
    }

    /** And none in the map is closed, so that offers over the map do not panic. */
    ghost predicate Valid()
      reads this, clients.Values, closed
    {
      Filed() && forall n :: n in clients ==> !clients[n].closed
    }

    constructor ()
      ensures Valid() && View() == Book(map[], {})
    {
      clients, closed := map[], {};
    }

    /** Any connection goes in, one whose mailbox is closed already too. */
    method ConsumeRegister(c: ClientConn)
      requires Filed()
      modifies this`clients
      ensures Filed() && (old(Valid()) && !c.closed ==> Valid())
      ensures View() == Consumed(old(View()), Registered(c.username, c))
    {
      clients := clients[c.username := c];
    }

    /**
     Looks at the name only: the entry that goes may be that of another connection.  Closing a mailbox
     again would panic; `ConsumeAll` shows that this does not come up.
     */
    method ConsumeUnregister(c: ClientConn)
      requires Filed() && (c.username in clients ==> !c.closed)
      modifies this, c`closed
      ensures Filed() && (old(Valid()) ==> Valid())
      ensures View() == Consumed(old(View()), Unregistered(c.username, c))
      ensures c.closed == (old(c.closed) || c.username in old(clients))
    {
      if c.username in clients {
        clients := clients - {c.username};
        c.closed := true;
        closed := closed + {c};
      }
    }

    /**
     The register and unregister branches over any run of events, in any order, each at most once: the map
     and the closed mailboxes are the fold of the events, and no mailbox is closed again.
     */
    method ConsumeAll(events: seq<Event<ClientConn>>)
      requires Filed() && View() == Book(map[], {}) && NoRepeats(events)
      requires forall e :: e in events ==> e.name == e.conn.username && !e.conn.closed
      modifies this, set e | e in events :: e.conn
      ensures Filed() && View() == Replay(events)
    {
      for i := 0 to |events|
        invariant Filed() && View() == Replay(events[..i])
        invariant forall e :: e in events && e.conn.closed ==> e.conn in closed
      {
        var e := events[i];
        assert events[..i + 1] == events[..i] + [e];
        ReplayNext(events[..i], e);
        if e.Registered? {
          ConsumeRegister(e.conn);
        } else {
          NotClosedBefore(events, i);
          ConsumeUnregister(e.conn);
        }
      }
      assert events[..|events|] == events;
    }

    /** The message goes to the connection that the map holds under the addressee's name, and to no other. */
    method Deliver(msg: RecvMsg, origin: Origin)
      requires Valid()
      modifies clients.Values
      ensures Valid() && View() == old(View())
      ensures forall c :: c in clients.Values ==>
                c.Got(if msg.toUser != [] && c.username == msg.toUser
                    then [Direct(msg, origin)] else [])
    {
      if msg.toUser != [] {
        if msg.toUser in clients {
          var recipient := clients[msg.toUser];
          recipient.Offer(Direct(msg, origin));
        }
      }
    }

    /** One offer to each online client but the sender, in whatever order the map is ranged over. */
    method Broadcast(from: Name, env: Envelope)
      requires Valid()
      modifies clients.Values
      ensures Valid() && View() == old(View())
      ensures forall c :: c in clients.Values ==>
                c.Got(if c.username != from then [env] else [])
    {
      var left := clients.Keys;
      while left != {}
        invariant Valid() && left <= clients.Keys
        invariant forall c :: c in clients.Values ==>
                    c.Got(if c.username != from && c.username !in left then [env] else [])
        decreases left
      {
        var name :| name in left;
        if name != from {
          clients[name].Offer(env);
        }
        left := left - {name};
      }
    }

    method OnlineUsers() returns (names: seq<Name>)
      ensures Enumerates(names, clients.Keys)
    {
      names := [];
      var left := clients.Keys;
      while left != {}
        invariant Enumerates(names, clients.Keys - left) && left <= clients.Keys
        decreases left
      {
        var name :| name in left;
        names, left := names + [name], left - {name};
      }
    }

    /** The part of `handleGroupMsg` after the database: an echo, then one offer to each other online member. */
    method HandleGroupMsg(client: ClientConn, members: seq<Name>, env: Envelope)
      requires Valid() && !client.closed && Distinct(members)
      modifies client, clients.Values
      ensures Valid() && View() == old(View())
      ensures client.Got([env])
      ensures forall c :: c in clients.Values && c != client ==>
                c.Got(if c.username in members && c.username != client.username then [env] else [])
    {
      client.Offer(env);
      OfferToOthers(client.username, members, env);
    }

    /** The member loop under the lock. */
    method OfferToOthers(user: Name, members: seq<Name>, env: Envelope)
      requires Valid() && Distinct(members)
      modifies clients.Values
      ensures Valid() && View() == old(View())
      ensures forall c :: c in clients.Values ==>
                c.Got(if c.username in members && c.username != user then [env] else []) && c.closed == old(c.closed)
    {
      ghost var done: set<Name> := {};
      for i := 0 to |members|
        invariant Valid() && View() == old(View())
        invariant done == set j | 0 <= j < i :: members[j]
        invariant forall c :: c in clients.Values ==>
                    c.Got(if c.username in done && c.username != user then [env] else []) && c.closed == old(c.closed)
      {
        var member := members[i];
        assert member !in done;
        done := done + {member};
        if member != user {
          if member in clients {
            clients[member].Offer(env);
          }
        }
      }
    }

    /** The names of the map, and the newcomer's whether mapped yet or not; each once. */
    method OnlineSet(newcomer: ClientConn?) returns (online: seq<Name>)
      ensures Enumerates(online, clients.Keys + if newcomer == null then {} else {newcomer.username})
    {
      online := OnlineUsers();
      if newcomer != null && newcomer.username !in clients {
        online := online + [newcomer.username];
      }
    }

    /**
     Builds the list of online names, in which the newcomer stands whether mapped yet or not.  One offer
     goes to each mapped connection, and one to the newcomer; a newcomer that is mapped already gets two.
     */
    method BroadcastUserList(newcomer: ClientConn?) returns (online: seq<Name>)
      requires Valid() && (newcomer != null ==> !newcomer.closed)
      modifies if newcomer == null then {} else {newcomer}, clients.Values
      ensures Valid() && View() == old(View())
      ensures Enumerates(online, clients.Keys + if newcomer == null then {} else {newcomer.username})
      ensures forall c :: c in clients.Values && c != newcomer ==> c.Got([UserListResp])
      ensures newcomer != null ==>
                newcomer.Got(if newcomer in clients.Values then [UserListResp, UserListResp] else [UserListResp])
    {
      online := OnlineSet(newcomer);
      OfferUserList();
      if newcomer != null {
        newcomer.Offer(UserListResp);
      }
    }

    /** The loop of `broadcastUserList` over the map, in whatever order. */
    method OfferUserList()
      requires Valid()
      modifies clients.Values
      ensures Valid() && View() == old(View())
      ensures forall c :: c in clients.Values ==> c.Got([UserListResp]) && c.closed == old(c.closed)
    {
      var left := clients.Keys;
      while left != {}
        invariant Valid() && left <= clients.Keys
        invariant forall c :: c in clients.Values ==>
                    c.Got(if c.username !in left then [UserListResp] else []) && c.closed == old(c.closed)
        decreases left
      {
        var name :| name in left;
        clients[name].Offer(UserListResp);
        left := left - {name};
      }
    }
  }

  /** An unregister that is still to be consumed has closed nothing. */
  lemma NotClosedBefore<C>(events: seq<Event<C>>, i: nat)
    requires NoRepeats(events) && i < |events| && events[i].Unregistered?
    requires forall j :: 0 <= j < |events| && events[j].conn == events[i].conn ==> events[j].name == events[i].name
    ensures events[i].conn !in Replay(events[..i]).closed
  {
    ClosedIffNameHadEntry(events[..i], events[i].conn);
  }

  ghost predicate Enumerates(names: seq<Name>, s: set<Name>) {
    Distinct(names) && forall n :: n in names <==> n in s
  }
}
