/**
 The users table of `internal/db/db.go` beside the index that the server keeps of it.
 A row is active or soft-deleted, is never removed, and its name is unique.
 */
module UserDirectory {
  import opened GoStrings
  import opened Bst
  import opened HubHistory

  datatype Row = Active | Deleted

  type Table = map<Name, Row>

  function ActiveNames(users: Table): set<Name> {
    set n | n in users && users[n].Active?
  }

  /** `INSERT`: the name must not be taken, by a deleted user either. */
  function Created(users: Table, name: Name): (Table, bool) {
    if name in users then (users, false) else (users[name := Active], true)
  }

  /** `UPDATE ... SET is_deleted`. */
  function SoftDeleted(users: Table, name: Name): Table {
    if name in users then users[name := Deleted] else users
  }

  /** The lookup of `CheckPassword`; `matches` is what bcrypt says of the password. */
  predicate PasswordOk(users: Table, name: Name, matches: bool) {
    name in users && users[name].Active? && matches
  }

  /** One server, whose authentications and account deletions do not overlap. */
  class Directory {
    var users: Table
    const index: BST

    ghost predicate Valid()
      reads this, index, Nodes(index.tree)
    {
      index.Valid()
    }

    /** The index lists exactly the users that are not deleted. */
    ghost predicate Agrees()
      reads this, index, Nodes(index.tree)
    {
      index.Valid() && index.Contents() == ActiveNames(users)
    }

    /** A server that starts on an existing table, its index still empty. */
    constructor (users: Table)
      ensures Valid() && fresh(index) && fresh(Nodes(index.tree)) && this.users == users && index.Contents() == {}
    {
      this.users := users;
      index := new BST();
    }

    /** The rows come in whatever order the database sorts them. */
    method ListUsers() returns (rows: seq<Name>)
      ensures forall n :: n in rows <==> n in ActiveNames(users)
    {
      rows := [];
      var left := users.Keys;
      while left != {}
        invariant left <= users.Keys
        invariant forall n :: n in rows <==> n in ActiveNames(users) && n !in left
        decreases left
      {
        var n :| n in left;
        if users[n].Active? {
          rows := rows + [n];
        }
        left := left - {n};
      }
    }

    /** The start of `Run`: every row goes into the index; when the query fails the index stays empty. */
    method Preload(failed: bool)
      requires Valid() && index.Contents() == {}
      modifies index, Nodes(index.tree)
      ensures Valid() && forall m :: m in Nodes(index.tree) ==> m in old(Nodes(index.tree)) || fresh(m)
      ensures index.Contents() == if failed then {} else ActiveNames(users)
    {
      if failed {
        return;
      }
      var rows := ListUsers();
      for i := 0 to |rows|
        invariant index.Valid() && (forall m :: m in Nodes(index.tree) ==> m in old(Nodes(index.tree)) || fresh(m))
        invariant forall n :: n in index.Contents() <==> n in rows[..i]
      {
        index.Insert(rows[i]);
        assert rows[..i + 1] == rows[..i] + [rows[i]];
      }
      assert rows[..|rows|] == rows;
    }

    /**
     A registration or a login, from the database's answer to the index entry; `failed` says that the
     statement failed for some other reason than the name or the password.
     */
    method Authenticate(name: Name, register: bool, matches: bool, failed: bool) returns (ok: bool)
      requires Agrees()
      modifies this, index, Nodes(index.tree)
      ensures Agrees() && (forall m :: m in Nodes(index.tree) ==> m in old(Nodes(index.tree)) || fresh(m))
      ensures register ==> (ok <==> !failed && name !in old(users))
      ensures !register ==> (ok <==> !failed && matches && name in old(users) && old(users)[name] == Active)
      ensures users == if register && ok then old(users)[name := Active] else old(users)
      ensures index.Contents() == if ok then old(index.Contents()) + {name} else old(index.Contents())
    {
      if failed {
        return false;
      }
      if register {
        var (table, fine) := Created(users, name);
        users, ok := table, fine;
      } else {
        ok := PasswordOk(users, name, matches);
      }
      if ok {
        index.Insert(name);
      }
    }

    /** When the update fails nothing changes. */
    method DeleteAccount(name: Name, failed: bool)
      requires Agrees()
      modifies this, index, Nodes(index.tree)
      ensures Agrees() && Nodes(index.tree) <= old(Nodes(index.tree))
      ensures users == if failed || name !in old(users) then old(users) else old(users)[name := Deleted]
      ensures index.Contents() == if failed then old(index.Contents()) else old(index.Contents()) - {name}
    {
      if failed {
        return;
      }
      users := SoftDeleted(users, name);
      index.Delete(name);
    }

    method AllUsersSorted() returns (names: seq<Name>)
      requires Agrees()
      ensures Agrees()
      ensures StrictlyAscending(names)
      ensures forall n :: n in names <==> n in ActiveNames(users)
    {
      names := index.InOrder();
    }
  }
}

/**
 The same with the database step and the index step of each request taken apart, as handlers that run
 at the same time do them.
 */
module DirectoryRaces {
  import opened GoStrings
  import opened HubHistory
  import opened IndexTree
  import opened UserDirectory

  /**
   `entering` and `leaving` count the requests between their two steps: authenticated and not yet
   indexed, and soft-deleted and not yet removed.
   */
  datatype State = State(users: Table, index: Tree<nat>, entering: multiset<Name>, leaving: multiset<Name>)

  datatype Label =
    | Register(name: Name)
    | Login(name: Name, matches: bool)
    | IndexInsert(name: Name, node: nat)
    | SoftDelete(name: Name)
    | IndexRemove(name: Name)

  predicate Enabled(s: State, l: Label) {
    match l
    case Register(n) => Created(s.users, n).1
    case Login(n, matches) => PasswordOk(s.users, n, matches)
    case IndexInsert(n, _) => n in s.entering
    case SoftDelete(n) => n in s.users
    case IndexRemove(n) => n in s.leaving
  }

  function Next(s: State, l: Label): State
    requires Enabled(s, l)
  {
    match l
    case Register(n) => s.(users := Created(s.users, n).0, entering := s.entering + multiset{n})
    case Login(n, _) => s.(entering := s.entering + multiset{n})
    case IndexInsert(n, node) => s.(index := Inserted(s.index, n, node), entering := s.entering - multiset{n})
    case SoftDelete(n) => s.(users := SoftDeleted(s.users, n), leaving := s.leaving + multiset{n})
    case IndexRemove(n) => s.(index := IndexTree.Deleted(s.index, n), leaving := s.leaving - multiset{n})
  }

  ghost predicate Run(s: State, ls: seq<Label>, t: State)
    decreases |ls|
  {
    if ls == [] then s == t else Enabled(s, ls[0]) && Run(Next(s, ls[0]), ls[1..], t)
  }

  /** A server that has just preloaded its index. */
  ghost predicate Started(s: State) {
    Ordered(s.index) && Keys(s.index) == ActiveNames(s.users) && s.entering == multiset{} && s.leaving == multiset{}
  }

  ghost predicate AtRest(s: State) {
    s.entering == multiset{} && s.leaving == multiset{}
  }

  /** In every run: a deleted user stays deleted, since the unique name cannot be registered again. */
  lemma {:induction false} DeletedForGood(s: State, ls: seq<Label>, t: State, n: Name)
    requires Run(s, ls, t) && n in s.users && s.users[n] == Row.Deleted
    ensures n in t.users && t.users[n] == Row.Deleted
    decreases |ls|
  {
    if ls != [] {
      DeletedForGood(Next(s, ls[0]), ls[1..], t, n);
    }
  }

  // ---- the table and the requests under way --------------------------------------------

  /** The database lets the name in: it is new, or its password is right. */
  predicate LetsIn(l: Label, n: Name) {
    l == Register(n) || l == Login(n, true)
  }

  function LetIns(ls: seq<Label>, n: Name): nat {
    if ls == [] then 0 else (if LetsIn(ls[0], n) then 1 else 0) + LetIns(ls[1..], n)
  }

  function Insertions(ls: seq<Label>, n: Name): nat {
    if ls == [] then 0 else (if ls[0].IndexInsert? && ls[0].name == n then 1 else 0) + Insertions(ls[1..], n)
  }

  function Deletions(ls: seq<Label>, n: Name): nat {
    if ls == [] then 0 else (if ls[0] == SoftDelete(n) then 1 else 0) + Deletions(ls[1..], n)
  }

  function Removals(ls: seq<Label>, n: Name): nat {
    if ls == [] then 0 else (if ls[0] == IndexRemove(n) then 1 else 0) + Removals(ls[1..], n)
  }

  /**
   In every run each index insertion of a name is paid for by an earlier registration of it, or by a login of
   it with the right password, and each removal by a deletion; those not yet followed up are under way.
   */
  lemma {:induction false} IndexStepsArePaidFor(s: State, ls: seq<Label>, t: State, n: Name)
    requires Run(s, ls, t)
    ensures Insertions(ls, n) + t.entering[n] == LetIns(ls, n) + s.entering[n]
    ensures Removals(ls, n) + t.leaving[n] == Deletions(ls, n) + s.leaving[n]
    decreases |ls|
  {
    if ls != [] {
      StepIsPaidFor(s, ls[0], n);
      IndexStepsArePaidFor(Next(s, ls[0]), ls[1..], t, n);
    }
  }

  lemma StepIsPaidFor(s: State, l: Label, n: Name)
    requires Enabled(s, l)
    ensures (if l.IndexInsert? && l.name == n then 1 else 0) + Next(s, l).entering[n]
            == (if LetsIn(l, n) then 1 else 0) + s.entering[n]
    ensures (if l == IndexRemove(n) then 1 else 0) + Next(s, l).leaving[n]
            == (if l == SoftDelete(n) then 1 else 0) + s.leaving[n]
  {
  }

  /** No insertion comes before the registration or the login that pays for it. */
  lemma EachInsertionWasLetIn(s: State, ls: seq<Label>, t: State, n: Name, i: nat)
    requires Started(s) && Run(s, ls, t) && i < |ls| && ls[i].IndexInsert? && ls[i].name == n
    ensures exists j :: 0 <= j < i && LetsIn(ls[j], n)
  {
    var u := Prefix(s, ls, t, i);
    IndexStepsArePaidFor(s, ls[..i], u, n);
    SomeLetIn(ls[..i], n);
  }

  lemma {:induction false} Prefix(s: State, ls: seq<Label>, t: State, i: nat) returns (u: State)
    requires Run(s, ls, t) && i < |ls|
    ensures Run(s, ls[..i], u) && Enabled(u, ls[i])
    decreases i
  {
    if i == 0 {
      u := s;
    } else {
      u := Prefix(Next(s, ls[0]), ls[1..], t, i - 1);
      assert ls[..i][0] == ls[0] && ls[..i][1..] == ls[1..][..i - 1];
    }
  }

  lemma {:induction false} SomeLetIn(ls: seq<Label>, n: Name)
    requires LetIns(ls, n) > 0
    ensures exists j :: 0 <= j < |ls| && LetsIn(ls[j], n)
  {
    if !LetsIn(ls[0], n) {
      SomeLetIn(ls[1..], n);
      var j :| 0 <= j < |ls[1..]| && LetsIn(ls[1..][j], n);
      assert ls[j + 1] == ls[1..][j];
    }
  }

  /** In every run a name is in the table iff it was, or was registered, and deleted iff it was, or a deletion came. */
  lemma {:induction false} TableIsTheHistory(s: State, ls: seq<Label>, t: State, n: Name)
    requires Run(s, ls, t)
    ensures n in t.users <==> n in s.users || Register(n) in ls
    ensures n in t.users && t.users[n].Deleted? <==> (n in s.users && s.users[n].Deleted?) || SoftDelete(n) in ls
    decreases |ls|
  {
    if ls != [] {
      TableIsTheHistory(Next(s, ls[0]), ls[1..], t, n);
      assert forall l :: l in ls <==> l == ls[0] || l in ls[1..];
    }
  }

  /** A request can begin exactly when the table allows it; what is under way can always go on. */
  lemma RequestsAllowedExactlyWhen(s: State, n: Name)
    ensures Enabled(s, Register(n)) <==> n !in s.users
    ensures Enabled(s, Login(n, true)) <==> n in s.users && s.users[n].Active?
    ensures !Enabled(s, Login(n, false))
    ensures forall node :: Enabled(s, IndexInsert(n, node)) <==> n in s.entering
    ensures Enabled(s, IndexRemove(n)) <==> n in s.leaving
  {
  }

  // ---- no active user is ever missing -----------------------------------------------

  /** Every active user is indexed or about to be; removals wait only for users that are deleted. */
  ghost predicate Inv(s: State) {
    && Ordered(s.index)
    && (forall n :: n in ActiveNames(s.users) ==> n in Keys(s.index) || n in s.entering)
    && (forall n :: n in s.leaving ==> n in s.users && s.users[n] == Row.Deleted)
    && (forall n :: n in s.entering || n in Keys(s.index) ==> n in s.users)
  }

  lemma StepKeepsInv(s: State, l: Label)
    requires Inv(s) && Enabled(s, l)
    ensures Inv(Next(s, l))
  {
    match l {
      case IndexInsert(n, node) => InsertAddsKey(s.index, n, node);
      case IndexRemove(n) => DeleteRemovesKey(s.index, n);
      case _ =>
    }
  }

  lemma {:induction false} EveryRunKeepsInv(s: State, ls: seq<Label>, t: State)
    requires Inv(s) && Run(s, ls, t)
    ensures Inv(t) && s.users.Keys <= t.users.Keys
    decreases |ls|
  {
    if ls != [] {
      StepKeepsInv(s, ls[0]);
      EveryRunKeepsInv(Next(s, ls[0]), ls[1..], t);
    }
  }

  /** However requests overlap: once at rest, every active user is listed. */
  lemma ActiveUsersAreListed(s: State, ls: seq<Label>, t: State)
    requires Started(s) && Run(s, ls, t) && t.entering == multiset{}
    ensures forall n :: n in ActiveNames(t.users) ==> n in InOrder(t.index)
  {
    EveryRunKeepsInv(s, ls, t);
    InOrderListsKeys(t.index);
  }

  // ---- a deleted user can come back --------------------------------------------------

  predicate OnIndex(l: Label, n: Name) {
    (l.IndexInsert? || l.IndexRemove?) && l.name == n
  }

  /** Step `i` is the last one of the run that touches the index under the name. */
  ghost predicate LastOnIndex(ls: seq<Label>, n: Name, i: nat) {
    i < |ls| && OnIndex(ls[i], n) && forall j :: i < j < |ls| ==> !OnIndex(ls[j], n)
  }

  /** A name is in the index iff the last index step on it inserted it, or there was none and it was there. */
  lemma {:induction false} IndexedIffLastStepInserts(s: State, ls: seq<Label>, t: State, n: Name)
    requires Ordered(s.index) && Run(s, ls, t)
    ensures Ordered(t.index)
    ensures n in Keys(t.index) <==>
              || (exists i: nat :: LastOnIndex(ls, n, i) && ls[i].IndexInsert?)
              || (n in Keys(s.index) && !exists i: nat :: LastOnIndex(ls, n, i))
    decreases |ls|
  {
    if ls != [] {
      StepOnIndex(s, ls[0], n);
      IndexedIffLastStepInserts(Next(s, ls[0]), ls[1..], t, n);
      LastShifts(ls, n);
      NoneLater(ls, n);
    }
  }

  lemma StepOnIndex(s: State, l: Label, n: Name)
    requires Ordered(s.index) && Enabled(s, l)
    ensures Ordered(Next(s, l).index)
    ensures n in Keys(Next(s, l).index) <==> if OnIndex(l, n) then l.IndexInsert? else n in Keys(s.index)
  {
    match l {
      case IndexInsert(m, node) => InsertAddsKey(s.index, m, node);
      case IndexRemove(m) => DeleteRemovesKey(s.index, m);
      case _ =>
    }
  }

  lemma LastShifts(ls: seq<Label>, n: Name)
    requires ls != []
    ensures forall i: nat :: LastOnIndex(ls[1..], n, i) ==> LastOnIndex(ls, n, i + 1) && ls[i + 1] == ls[1..][i]
    ensures forall i: nat :: 0 < i && LastOnIndex(ls, n, i) ==>
              LastOnIndex(ls[1..], n, i - 1) && ls[i] == ls[1..][i - 1]
  {
  }

  lemma NoneLater(ls: seq<Label>, n: Name)
    requires ls != []
    ensures (exists i: nat :: LastOnIndex(ls[1..], n, i)) || (LastOnIndex(ls, n, 0) <==> OnIndex(ls[0], n))
  {
    if !LastOnIndex(ls, n, 0) && OnIndex(ls[0], n) {
      var j := Latest(ls[1..], n);
    }
  }

  lemma {:induction false} Latest(ls: seq<Label>, n: Name) returns (i: nat)
    requires exists j :: 0 <= j < |ls| && OnIndex(ls[j], n)
    ensures LastOnIndex(ls, n, i)
  {
    i := |ls| - 1;
    while !OnIndex(ls[i], n)
      decreases i
      invariant i < |ls| && forall j :: i < j < |ls| ==> !OnIndex(ls[j], n)
    {
      i := i - 1;
    }
  }

  ghost predicate Untouched(ls: seq<Label>, n: Name) {
    forall i :: 0 <= i < |ls| ==> !OnIndex(ls[i], n)
  }

  /** A listed user that no index step touches is active, or a removal waits for it. */
  lemma {:induction false} UntouchedIsActiveOrLeaving(s: State, ls: seq<Label>, t: State, n: Name)
    requires Run(s, ls, t) && Untouched(ls, n)
    requires n in ActiveNames(s.users) || n in s.leaving
    ensures n in ActiveNames(t.users) || n in t.leaving
    decreases |ls|
  {
    if ls != [] {
      assert !OnIndex(ls[0], n);
      UntouchedIsActiveOrLeaving(Next(s, ls[0]), ls[1..], t, n);
    }
  }

  lemma ListedAtRest(s: State, ls: seq<Label>, t: State, n: Name)
    requires Started(s) && Run(s, ls, t) && AtRest(t) && n in Keys(t.index) && n !in ActiveNames(t.users)
    ensures exists i: nat :: LastOnIndex(ls, n, i) && ls[i].IndexInsert?
  {
    IndexedIffLastStepInserts(s, ls, t, n);
    if Untouched(ls, n) {
      UntouchedIsActiveOrLeaving(s, ls, t, n);
    } else {
      var i := Latest(ls, n);
    }
  }

  /**
   Exactly when a server at rest lists just the active users: when no deleted user was put back, that
   is, when the last index step on each deleted user was not an insertion.
   */
  lemma ListingAgreesExactlyWhen(s: State, ls: seq<Label>, t: State)
    requires Started(s) && Run(s, ls, t) && AtRest(t)
    ensures (forall n :: n in InOrder(t.index) <==> n in ActiveNames(t.users))
            <==> forall n, i: nat :: LastOnIndex(ls, n, i) && ls[i].IndexInsert? ==> n in ActiveNames(t.users)
  {
    EveryRunKeepsInv(s, ls, t);
    InOrderListsKeys(t.index);
    forall n | n in Keys(t.index) && n !in ActiveNames(t.users)
      ensures exists i: nat :: LastOnIndex(ls, n, i) && ls[i].IndexInsert?
    {
      ListedAtRest(s, ls, t, n);
    }
    forall n, i: nat | LastOnIndex(ls, n, i) && ls[i].IndexInsert? ensures n in Keys(t.index) {
      IndexedIffLastStepInserts(s, ls, t, n);
    }
  }

  /** A login that overlaps the deletion of the same account leaves a deleted user in the listing. */
  lemma DeletedUserCanReappear(n: Name)
    ensures exists s, ls, t :: Started(s) && Run(s, ls, t) && AtRest(t)
              && n !in ActiveNames(t.users) && n in InOrder(t.index)
  {
    var one := Branch(0, n, Leaf, Leaf);
    var s := State(map[n := Active], one, multiset{}, multiset{});
    var ls := [Login(n, true), SoftDelete(n), IndexRemove(n), IndexInsert(n, 1)];
    OneKeyComesAndGoes(n);
    var b := LoginThenDelete(s, n);
    var c, t := RemoveThenInsert(b, n);
    FourSteps(s, ls, Next(s, ls[0]), b, c, t);
    assert Started(s) by { assert ActiveNames(s.users) == {n}; }
    assert n !in ActiveNames(t.users);
  }

  lemma OneKeyComesAndGoes(n: Name)
    ensures var one := Branch(0, n, Leaf, Leaf);
            && Ordered(one) && Keys(one) == {n}
            && IndexTree.Deleted(one, n) == Leaf
    ensures Inserted(Leaf, n, 1) == Branch(1, n, Leaf, Leaf)
    ensures InOrder(Branch(1, n, Leaf, Leaf)) == [n]
  {
    LessIrreflexive(n);
  }

  lemma RemoveThenInsert(b: State, n: Name) returns (c: State, t: State)
    requires n in b.leaving && n in b.entering && b.index == Branch(0, n, Leaf, Leaf)
    ensures Enabled(b, IndexRemove(n)) && c == Next(b, IndexRemove(n))
    ensures Enabled(c, IndexInsert(n, 1)) && t == Next(c, IndexInsert(n, 1))
    ensures t == State(b.users, Branch(1, n, Leaf, Leaf), b.entering - multiset{n}, b.leaving - multiset{n})
  {
    OneKeyComesAndGoes(n);
    c := Next(b, IndexRemove(n));
    t := Next(c, IndexInsert(n, 1));
  }

  lemma FourSteps(s: State, ls: seq<Label>, a: State, b: State, c: State, t: State)
    requires |ls| == 4
    requires Enabled(s, ls[0]) && a == Next(s, ls[0]) && Enabled(a, ls[1]) && b == Next(a, ls[1])
    requires Enabled(b, ls[2]) && c == Next(b, ls[2]) && Enabled(c, ls[3]) && t == Next(c, ls[3])
    ensures Run(s, ls, t)
  {
    assert ls[1..][1..] == ls[2..] && ls[2..][1..] == ls[3..] && ls[3..][1..] == [];
    assert Run(c, ls[3..], t);
    assert Run(b, ls[2..], t);
  }

  lemma LoginThenDelete(s: State, n: Name) returns (b: State)
    requires Enabled(s, Login(n, true))
    ensures Enabled(Next(s, Login(n, true)), SoftDelete(n))
    ensures b == Next(Next(s, Login(n, true)), SoftDelete(n))
    ensures b == s.(users := s.users[n := Row.Deleted],
                 entering := s.entering + multiset{n}, leaving := s.leaving + multiset{n})
  {
    b := Next(Next(s, Login(n, true)), SoftDelete(n));
  }

  // ---- without overlap ------------------------------------------------------------------

  /** The schedule assumed: an account is not deleted while one of its authentications is between its two steps. */
  predicate NoOverlap(s: State, l: Label) {
    l.SoftDelete? ==> l.name !in s.entering
  }

  ghost predicate QuietRun(s: State, ls: seq<Label>, t: State)
    decreases |ls|
  {
    if ls == [] then s == t
    else Enabled(s, ls[0]) && NoOverlap(s, ls[0]) && QuietRun(Next(s, ls[0]), ls[1..], t)
  }

  ghost predicate QuietInv(s: State) {
    && Inv(s)
    && (forall n :: n in s.entering ==> n in ActiveNames(s.users))
    && (forall n :: n in Keys(s.index) ==> n in ActiveNames(s.users) || n in s.leaving)
  }

  lemma {:induction false} QuietRunKeepsInv(s: State, ls: seq<Label>, t: State)
    requires QuietInv(s) && QuietRun(s, ls, t)
    ensures QuietInv(t)
    decreases |ls|
  {
    if ls != [] {
      match ls[0] {
        case IndexInsert(n, node) => InsertAddsKey(s.index, n, node);
        case IndexRemove(n) => DeleteRemovesKey(s.index, n);
        case _ =>
      }
      StepKeepsInv(s, ls[0]);
      QuietRunKeepsInv(Next(s, ls[0]), ls[1..], t);
    }
  }

  /**
   Then no deleted user is ever listed, except while its own removal is under way; and at rest the listing
   is the sorted list of exactly the active users.
   */
  lemma ListingIsTheActiveUsers(s: State, ls: seq<Label>, t: State)
    requires Started(s) && QuietRun(s, ls, t)
    ensures StrictlyAscending(InOrder(t.index))
    ensures forall n :: n in InOrder(t.index) ==> n in ActiveNames(t.users) || n in t.leaving
    ensures AtRest(t) ==> forall n :: n in InOrder(t.index) <==> n in ActiveNames(t.users)
  {
    QuietRunKeepsInv(s, ls, t);
    InOrderListsKeys(t.index);
    InOrderIsAscending(t.index);
  }
}
