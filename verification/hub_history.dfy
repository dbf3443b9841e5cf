/**
 What the register and unregister branches of `Hub.Run` make of the events they consume, for
 any history: no order between the two channels is assumed.  `C` is the type of connections.
 */
module HubHistory {
  import opened GoStrings

  type Name = GoString

  datatype Event<C> = Registered(name: Name, conn: C) | Unregistered(name: Name, conn: C)

  /** The map of online clients, and the connections whose mailbox has been closed. */
  datatype Book<C(==)> = Book(clients: map<Name, C>, closed: set<C>)

  /** One branch of the select statement: the unregister branch looks at the name, not at the connection. */
  function Consumed<C>(b: Book<C>, e: Event<C>): Book<C> {
    match e
    case Registered(n, c) => b.(clients := b.clients[n := c])
    case Unregistered(n, c) => if n in b.clients then Book(b.clients - {n}, b.closed + {c}) else b
  }

  function Replay<C>(hist: seq<Event<C>>): Book<C> {
    if hist == [] then Book(map[], {})
    else Consumed(Replay(hist[..|hist| - 1]), hist[|hist| - 1])
  }

  lemma ReplayNext<C>(hist: seq<Event<C>>, e: Event<C>)
    ensures Replay(hist + [e]) == Consumed(Replay(hist), e)
  {
    assert (hist + [e])[..|hist|] == hist;
  }

  /** Event `i` is the last one that bears the name `n`. */
  ghost predicate LastWith<C>(hist: seq<Event<C>>, n: Name, i: nat) {
    i < |hist| && hist[i].name == n && forall j :: i < j < |hist| ==> hist[j].name != n
  }

  /** A name is online iff its last event was a register, and then under that register's connection. */
  lemma {:induction false} OnlineIffLastEventRegisters<C>(hist: seq<Event<C>>, n: Name)
    ensures n in Replay(hist).clients <==> exists i: nat :: LastWith(hist, n, i) && hist[i].Registered?
    ensures forall i: nat :: LastWith(hist, n, i) && hist[i].Registered?
              ==> n in Replay(hist).clients && Replay(hist).clients[n] == hist[i].conn
  {
    if hist != [] {
      var m := |hist| - 1;
      var early := hist[..m];
      OnlineIffLastEventRegisters(early, n);
      if hist[m].name == n {
        assert LastWith(hist, n, m);
      } else {
        assert forall i: nat :: LastWith(hist, n, i) <==> LastWith(early, n, i);
      }
    }
  }

  /** Event `i` closes the mailbox of `c`: it is its unregister, and the name has an entry just then. */
  ghost predicate Closes<C>(hist: seq<Event<C>>, c: C, i: nat) {
    i < |hist| && hist[i] == Unregistered(hist[i].name, c) && hist[i].name in Replay(hist[..i]).clients
  }

  lemma {:induction false} ClosedIffNameHadEntry<C>(hist: seq<Event<C>>, c: C)
    ensures c in Replay(hist).closed <==> exists i: nat :: Closes(hist, c, i)
  {
    if hist != [] {
      var m := |hist| - 1;
      var early := hist[..m];
      ClosedIffNameHadEntry(early, c);
      assert forall i: nat :: i < m ==> early[..i] == hist[..i];
      assert forall i: nat :: i < m ==> (Closes(hist, c, i) <==> Closes(early, c, i));
      assert Closes(hist, c, m) ==> c in Replay(hist).closed;
      if c in Replay(hist).closed && c !in Replay(early).closed {
        assert Closes(hist, c, m);
      }
    }
  }

  // ---- dead entries -------------------------------------------------------------

  ghost predicate MapsClosed<C>(b: Book<C>) {
    exists n :: n in b.clients && b.clients[n] in b.closed
  }

  /** A connection is registered after its mailbox was closed. */
  ghost predicate RegistersClosed<C>(hist: seq<Event<C>>, i: nat, j: nat) {
    i < j < |hist| && hist[j].Registered? && Closes(hist, hist[j].conn, i)
  }

  /** Connections keep their name. */
  ghost predicate NamesFixed<C>(hist: seq<Event<C>>) {
    forall i, j :: 0 <= i < |hist| && 0 <= j < |hist| && hist[i].conn == hist[j].conn ==> hist[i].name == hist[j].name
  }

  /** No event occurs twice. */
  ghost predicate NoRepeats<C>(hist: seq<Event<C>>) {
    forall i, j :: 0 <= i < j < |hist| ==> hist[i] != hist[j]
  }

  /** Where no event repeats, a mailbox is closed at most once. */
  lemma ClosedAtMostOnce<C>(hist: seq<Event<C>>, c: C)
    requires NamesFixed(hist) && NoRepeats(hist)
    ensures forall i: nat, j: nat :: Closes(hist, c, i) && Closes(hist, c, j) ==> i == j
  {
    forall i: nat, j: nat | Closes(hist, c, i) && Closes(hist, c, j) ensures i == j {
      assert hist[i] == hist[j];
    }
  }

  /**
   Exactly when the map never comes to hold a closed connection: when no register is consumed
   after an unregister of the same connection that found an entry under its name.
   */
  lemma NeverMapsClosedExactlyWhen<C>(hist: seq<Event<C>>)
    requires NamesFixed(hist)
    ensures (forall m: nat :: m <= |hist| ==> !MapsClosed(Replay(hist[..m])))
            <==> !(exists i: nat, j: nat :: RegistersClosed(hist, i, j))
  {
    if i: nat, j: nat :| RegistersClosed(hist, i, j) {
      RegisteringClosedShows(hist, i, j);
    }
    if !(exists i: nat, j: nat :: RegistersClosed(hist, i, j)) {
      forall m: nat | m <= |hist| ensures !MapsClosed(Replay(hist[..m])) {
        NoneClosedMapped(hist, m);
      }
    }
  }

  lemma RegisteringClosedShows<C>(hist: seq<Event<C>>, i: nat, j: nat)
    requires RegistersClosed(hist, i, j)
    ensures MapsClosed(Replay(hist[..j + 1]))
  {
    var before := hist[..j];
    var e := hist[j];
    assert hist[..j + 1] == before + [e];
    assert before[..i] == hist[..i];
    assert Closes(before, e.conn, i);
    ClosedIffNameHadEntry(before, e.conn);
    ReplayNext(before, e);
    assert e.name in Replay(hist[..j + 1]).clients;
  }

  lemma {:induction false} NoneClosedMapped<C>(hist: seq<Event<C>>, m: nat)
    requires NamesFixed(hist) && m <= |hist|
    requires !(exists i: nat, j: nat :: RegistersClosed(hist, i, j))
    ensures !MapsClosed(Replay(hist[..m]))
    ensures forall n :: n in Replay(hist[..m]).clients ==>
              exists k :: 0 <= k < m && hist[k] == Registered(n, Replay(hist[..m]).clients[n])
  {
    if m > 0 {
      var early, e := hist[..m - 1], hist[m - 1];
      NoneClosedMapped(hist, m - 1);
      assert hist[..m] == early + [e];
      ReplayNext(early, e);
      var was, now := Replay(early), Replay(hist[..m]);
      assert now == Consumed(was, e);
      if e.Registered? {
        FreshRegister(hist, m - 1);
      }
      forall n | n in now.clients
        ensures now.clients[n] !in now.closed
        ensures exists k :: 0 <= k < m && hist[k] == Registered(n, now.clients[n])
      {
        if n == e.name {
          assert hist[m - 1] == Registered(n, now.clients[n]);
        } else {
          var k :| 0 <= k < m - 1 && hist[k] == Registered(n, was.clients[n]);
          assert hist[k].conn != e.conn;
        }
      }
    }
  }

  /** Where no closed connection registers, a register finds its mailbox open. */
  lemma FreshRegister<C>(hist: seq<Event<C>>, j: nat)
    requires j < |hist| && hist[j].Registered?
    requires !(exists i: nat, j: nat :: RegistersClosed(hist, i, j))
    ensures hist[j].conn !in Replay(hist[..j]).closed
  {
    var early := hist[..j];
    ClosedIffNameHadEntry(early, hist[j].conn);
    if i: nat :| Closes(early, hist[j].conn, i) {
      assert early[..i] == hist[..i];
      assert RegistersClosed(hist, i, j);
    }
  }

  /** A second login under the name gives such a history: 1 unregisters before its register is consumed. */
  lemma DeadEntryHistory(n: Name)
    ensures var hist := [Registered(n, 2), Unregistered(n, 1), Registered(n, 1)];
            MapsClosed(Replay(hist)) && Replay(hist).clients == map[n := 1]
  {
    var hist := [Registered(n, 2), Unregistered(n, 1), Registered(n, 1)];
    ReplayNext([], hist[0]);
    assert [] + [hist[0]] == hist[..1];
    ReplayNext(hist[..1], hist[1]);
    assert hist[..1] + [hist[1]] == hist[..2];
    ReplayNext(hist[..2], hist[2]);
    assert hist[..2] + [hist[2]] == hist;
    assert n in Replay(hist).clients;
  }

  // ---- one login at a time ---------------------------------------------------------

  ghost predicate Registers<C>(hist: seq<Event<C>>, n: Name, c: C) {
    Registered(n, c) in hist
  }

  ghost predicate Unregisters<C>(hist: seq<Event<C>>, n: Name, c: C) {
    Unregistered(n, c) in hist
  }

  /**
   Each event fits what was consumed before it: a connection registers once and then unregisters
   once, and a name registers again only when the connection before has unregistered.
   */
  ghost predicate TakesTurns<C(!new)>(hist: seq<Event<C>>) {
    hist == [] || (TakesTurns(hist[..|hist| - 1]) && FitsTurn(hist[..|hist| - 1], hist[|hist| - 1]))
  }

  ghost predicate FitsTurn<C(!new)>(past: seq<Event<C>>, e: Event<C>) {
    match e
    case Registered(n, c) =>
      && !Registers(past, n, c) && !Unregisters(past, n, c)
      && forall d :: Registers(past, n, d) ==> Unregisters(past, n, d)
    case Unregistered(n, c) => Registers(past, n, c) && !Unregisters(past, n, c)
  }

  ghost predicate MapExact<C(!new)>(b: Book<C>, hist: seq<Event<C>>) {
    forall n, c :: (n in b.clients && b.clients[n] == c) <==> Registers(hist, n, c) && !Unregisters(hist, n, c)
  }

  ghost predicate ClosedExact<C(!new)>(b: Book<C>, hist: seq<Event<C>>) {
    forall c :: c in b.closed <==> exists n :: Unregisters(hist, n, c)
  }

  /**
   With turns taken, the map holds exactly the connections registered and not yet unregistered,
   and the closed mailboxes are exactly those of the unregistered ones.
   */
  lemma {:induction false} TurnsMakeTheMapExact<C(!new)>(hist: seq<Event<C>>)
    requires TakesTurns(hist)
    ensures MapExact(Replay(hist), hist) && ClosedExact(Replay(hist), hist)
  {
    if hist != [] {
      var m := |hist| - 1;
      var early, e := hist[..m], hist[m];
      TurnsMakeTheMapExact(early);
      TurnTaken(Replay(early), early, e);
      assert hist == early + [e];
    }
  }

  lemma TurnTaken<C(!new)>(b: Book<C>, early: seq<Event<C>>, e: Event<C>)
    requires FitsTurn(early, e)
    requires MapExact(b, early) && ClosedExact(b, early)
    ensures MapExact(Consumed(b, e), early + [e]) && ClosedExact(Consumed(b, e), early + [e])
  {
    var now := Consumed(b, e);
    if e.Unregistered? {
      assert b.clients[e.name] == e.conn;
    }
    forall n, c
      ensures (n in now.clients && now.clients[n] == c)
              <==> Registers(early + [e], n, c) && !Unregisters(early + [e], n, c)
    {
      assert Registers(early + [e], n, c) <==> Registers(early, n, c) || e == Registered(n, c);
      assert Unregisters(early + [e], n, c) <==> Unregisters(early, n, c) || e == Unregistered(n, c);
      assert n in b.clients && b.clients[n] == c <==> Registers(early, n, c) && !Unregisters(early, n, c);
    }
    forall c ensures c in now.closed <==> exists n :: Unregisters(early + [e], n, c) {
      assert forall n :: Unregisters(early + [e], n, c) <==> Unregisters(early, n, c) || e == Unregistered(n, c);
      if e == Unregistered(e.name, c) { assert Unregisters(early + [e], e.name, c); }
    }
  }
}
