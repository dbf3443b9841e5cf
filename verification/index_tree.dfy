/**
 The user index as a value: what the heap tree of `internal/util/bst.go` looks like,
 with the identity of every node, and what each operation turns it into.
 `N` is the type of node identities.
 */
module IndexTree {
  import opened GoStrings

  datatype Tree<N> = Leaf | Branch(node: N, key: GoString, left: Tree<N>, right: Tree<N>)

  ghost function Keys<N>(t: Tree<N>): set<GoString> {
    match t
    case Leaf => {}
    case Branch(_, k, l, r) => Keys(l) + {k} + Keys(r)
  }

  /** The binary search order. */
  ghost predicate Ordered<N>(t: Tree<N>) {
    match t
    case Leaf => true
    case Branch(_, k, l, r) =>
      && Ordered(l) && Ordered(r)
      && (forall x :: x in Keys(l) ==> Less(x, k))
      && (forall x :: x in Keys(r) ==> Less(k, x))
  }

  function InOrder<N>(t: Tree<N>): seq<GoString> {
    match t
    case Leaf => []
    case Branch(_, k, l, r) => InOrder(l) + [k] + InOrder(r)
  }

  function Size<N>(t: Tree<N>): nat {
    match t
    case Leaf => 0
    case Branch(_, _, l, r) => 1 + Size(l) + Size(r)
  }

  predicate Find<N>(t: Tree<N>, key: GoString) {
    t.Branch? && (key == t.key || if Less(key, t.key) then Find(t.left, key) else Find(t.right, key))
  }

  function Inserted<N>(t: Tree<N>, key: GoString, added: N): Tree<N> {
    match t
    case Leaf => Branch(added, key, Leaf, Leaf)
    case Branch(n, k, l, r) =>
      if Less(key, k) then Branch(n, k, Inserted(l, key, added), r)
      else if Less(k, key) then Branch(n, k, l, Inserted(r, key, added))
      else t
  }

  function MinKey<N>(t: Tree<N>): GoString
    requires t.Branch?
  {
    if t.left.Leaf? then t.key else MinKey(t.left)
  }

  function Deleted<N>(t: Tree<N>, key: GoString): Tree<N> {
    match t
    case Leaf => Leaf
    case Branch(n, k, l, r) =>
      if Less(key, k) then Branch(n, k, Deleted(l, key), r)
      else if Less(k, key) then Branch(n, k, l, Deleted(r, key))
      else if l.Leaf? then r
      else if r.Leaf? then l
      else Branch(n, MinKey(r), l, Deleted(r, MinKey(r)))
  }

  // ---- the operations are those of a finite set --------------------------------

  lemma {:induction false} FindIsMembership<N>(t: Tree<N>, key: GoString)
    requires Ordered(t)
    ensures Find(t, key) <==> key in Keys(t)
  {
    if t.Branch? {
      FindIsMembership(t.left, key);
      FindIsMembership(t.right, key);
      LessTrichotomy(key, t.key);
      LessIrreflexive(key);
    }
  }

  lemma {:induction false} InsertAddsKey<N>(t: Tree<N>, key: GoString, added: N)
    requires Ordered(t)
    ensures Ordered(Inserted(t, key, added))
    ensures Keys(Inserted(t, key, added)) == Keys(t) + {key}
  {
    if t.Branch? {
      LessTrichotomy(key, t.key);
      if Less(key, t.key) {
        InsertAddsKey(t.left, key, added);
      } else if Less(t.key, key) {
        InsertAddsKey(t.right, key, added);
      }
    }
  }

  lemma {:induction false} MinKeyIsLeast<N>(t: Tree<N>)
    requires Ordered(t) && t.Branch?
    ensures MinKey(t) in Keys(t)
    ensures forall x :: x in Keys(t) && x != MinKey(t) ==> Less(MinKey(t), x)
  {
    if t.left.Branch? {
      MinKeyIsLeast(t.left);
      var m := MinKey(t.left);
      forall x | x in Keys(t) && x != m ensures Less(m, x) {
        if x in Keys(t.right) {
          LessTransitive(m, t.key, x);
        }
      }
    }
  }

  lemma {:induction false} DeleteRemovesKey<N>(t: Tree<N>, key: GoString)
    requires Ordered(t)
    ensures Ordered(Deleted(t, key))
    ensures Keys(Deleted(t, key)) == Keys(t) - {key}
    decreases t, 1
  {
    if t.Branch? {
      LessTrichotomy(key, t.key);
      LessIrreflexive(t.key);
      if Less(key, t.key) {
        DeleteRemovesKey(t.left, key);
        forall x | x in Keys(t.right) ensures x != key { LessTrichotomy(t.key, x); }
      } else if Less(t.key, key) {
        DeleteRemovesKey(t.right, key);
        forall x | x in Keys(t.left) ensures x != key { LessTrichotomy(x, t.key); }
      } else if t.left.Branch? && t.right.Branch? {
        DeleteTwoChildren(t);
      } else {
        assert key !in Keys(t.left) && key !in Keys(t.right);
      }
    }
  }

  /** The two-child case: the successor's key moves up, and leaves the right subtree. */
  lemma {:induction false} DeleteTwoChildren<N>(t: Tree<N>)
    requires Ordered(t) && t.Branch? && t.left.Branch? && t.right.Branch?
    ensures Ordered(Deleted(t, t.key))
    ensures Keys(Deleted(t, t.key)) == Keys(t) - {t.key}
    decreases t, 0
  {
    var m := MinKey(t.right);
    LessIrreflexive(t.key);
    MinKeyIsLeast(t.right);
    DeleteRemovesKey(t.right, m);
    forall x | x in Keys(t.left) ensures Less(x, m) { LessTransitive(x, t.key, m); }
    assert t.key !in Keys(t.left) && t.key !in Keys(t.right);
  }

  /**
   Between writing the successor's key and deleting the successor the tree is not a
   search tree: the key occurs twice.  Deletion cannot be proved by keeping `Ordered`
   at every line.
   */
  lemma SuccessorWriteBreaksOrder<N>(t: Tree<N>)
    requires Ordered(t) && t.Branch? && t.right.Branch?
    ensures !Ordered(t.(key := MinKey(t.right)))
  {
    MinKeyIsLeast(t.right);
    LessIrreflexive(MinKey(t.right));
  }

  lemma {:induction false} InOrderListsKeys<N>(t: Tree<N>)
    ensures forall k :: k in InOrder(t) <==> k in Keys(t)
    ensures |InOrder(t)| == Size(t)
  {
    if t.Branch? {
      InOrderListsKeys(t.left);
      InOrderListsKeys(t.right);
    }
  }

  lemma {:induction false} InOrderIsAscending<N>(t: Tree<N>)
    requires Ordered(t)
    ensures StrictlyAscending(InOrder(t))
  {
    if t.Branch? {
      InOrderIsAscending(t.left);
      InOrderIsAscending(t.right);
      InOrderListsKeys(t.left);
      InOrderListsKeys(t.right);
      var s, l := InOrder(t), |InOrder(t.left)|;
      forall i, j | 0 <= i < j < |s| ensures Less(s[i], s[j]) {
        assert i < l ==> s[i] == InOrder(t.left)[i] && s[i] in Keys(t.left);
        assert j > l ==> s[j] == InOrder(t.right)[j - l - 1] && s[j] in Keys(t.right);
        assert j < l ==> s[j] == InOrder(t.left)[j];
        assert i > l ==> s[i] == InOrder(t.right)[i - l - 1];
        if i < l < j {
          LessTransitive(s[i], t.key, s[j]);
        }
      }
    }
  }

  /** The listing depends on the key set alone, not on the shape that history gave the tree. */
  lemma InOrderIsTheSortedListing<N>(t: Tree<N>, listing: seq<GoString>)
    requires Ordered(t)
    requires StrictlyAscending(listing)
    requires forall k :: k in listing <==> k in Keys(t)
    ensures InOrder(t) == listing
  {
    InOrderIsAscending(t);
    InOrderListsKeys(t);
    AscendingListingIsUnique(InOrder(t), listing);
  }

  lemma {:induction false} SizeCountsKeys<N>(t: Tree<N>)
    requires Ordered(t)
    ensures Size(t) == |Keys(t)|
  {
    if t.Branch? {
      SizeCountsKeys(t.left);
      SizeCountsKeys(t.right);
      LessIrreflexive(t.key);
      forall x | x in Keys(t.left) && x in Keys(t.right) ensures false {
        LessTrichotomy(x, t.key);
      }
      assert Keys(t.left) !! {t.key} && (Keys(t.left) + {t.key}) !! Keys(t.right);
    }
  }

  // ---- whole histories ----------------------------------------------------------

  datatype Op<N> = Insert(key: GoString, added: N) | Delete(key: GoString) | Search(key: GoString) | List | Len

  datatype Answer = Done | Found(yes: bool) | Listing(keys: seq<GoString>) | Length(n: nat)

  function TreeStep<N>(t: Tree<N>, op: Op<N>): (Tree<N>, Answer) {
    match op
    case Insert(k, n) => (Inserted(t, k, n), Done)
    case Delete(k) => (Deleted(t, k), Done)
    case Search(k) => (t, Found(Find(t, k)))
    case List => (t, Listing(InOrder(t)))
    case Len => (t, Length(Size(t)))
  }

  function TreeRun<N>(t: Tree<N>, ops: seq<Op<N>>): seq<Answer>
    decreases |ops|
  {
    if ops == [] then [] else
      var (t', answer) := TreeStep(t, ops[0]);
      [answer] + TreeRun(t', ops[1..])
  }

  /** What a finite set of strings answers; the listing is its sorted one. */
  ghost predicate SetAnswers<N>(s: set<GoString>, ops: seq<Op<N>>, answers: seq<Answer>)
    decreases |ops|
  {
    |answers| == |ops|
    && (ops != [] ==> AnswersAs(s, ops[0], answers[0]) && SetAnswers(SetAfter(s, ops[0]), ops[1..], answers[1..]))
  }

  ghost predicate AnswersAs<N>(s: set<GoString>, op: Op<N>, answer: Answer) {
    match op
    case Insert(_, _) => answer == Done
    case Delete(_) => answer == Done
    case Search(k) => answer == Found(k in s)
    case List => answer.Listing? && StrictlyAscending(answer.keys) && forall k :: k in answer.keys <==> k in s
    case Len => answer == Length(|s|)
  }

  function SetAfter<N>(s: set<GoString>, op: Op<N>): set<GoString> {
    match op
    case Insert(k, _) => s + {k}
    case Delete(k) => s - {k}
    case _ => s
  }

  lemma {:induction false} EveryHistoryIsASetHistory<N>(t: Tree<N>, ops: seq<Op<N>>)
    requires Ordered(t)
    ensures SetAnswers(Keys(t), ops, TreeRun(t, ops))
    decreases |ops|
  {
    if ops != [] {
      match ops[0] {
        case Insert(k, n) => InsertAddsKey(t, k, n);
        case Delete(k) => DeleteRemovesKey(t, k);
        case Search(k) => FindIsMembership(t, k);
        case List => InOrderIsAscending(t); InOrderListsKeys(t);
        case Len => SizeCountsKeys(t);
      }
      EveryHistoryIsASetHistory(TreeStep(t, ops[0]).0, ops[1..]);
    }
  }

  // ---- undoing an insertion -------------------------------------------------------

  /** Deleting a newly inserted key gives back the same tree, node for node. */
  lemma {:induction false} DeleteUndoesInsert<N>(t: Tree<N>, key: GoString, added: N)
    requires Ordered(t) && key !in Keys(t)
    ensures Deleted(Inserted(t, key, added), key) == t
  {
    LessIrreflexive(key);
    if t.Branch? {
      LessTrichotomy(key, t.key);
      if Less(key, t.key) {
        DeleteUndoesInsert(t.left, key, added);
      } else {
        DeleteUndoesInsert(t.right, key, added);
      }
    }
  }

  // ---- height and cost --------------------------------------------------------------

  function Max(a: nat, b: nat): nat { if a < b then b else a }

  function Height<N>(t: Tree<N>): nat {
    match t
    case Leaf => 0
    case Branch(_, _, l, r) => 1 + Max(Height(l), Height(r))
  }

  /** Nodes that `bstSearch` and `bstInsert` look at. */
  function PathLength<N>(t: Tree<N>, key: GoString): nat {
    match t
    case Leaf => 0
    case Branch(_, k, l, r) =>
      if Less(key, k) then 1 + PathLength(l, key)
      else if Less(k, key) then 1 + PathLength(r, key)
      else 1
  }

  /** Nodes that the loop of `bstMin` looks at. */
  function MinLength<N>(t: Tree<N>): nat {
    if t.Leaf? then 0 else 1 + MinLength(t.left)
  }

  /** Nodes that `bstDelete` looks at, with the search for the successor and its deletion. */
  function DeleteCost<N>(t: Tree<N>, key: GoString): nat {
    match t
    case Leaf => 0
    case Branch(_, k, l, r) =>
      if Less(key, k) then 1 + DeleteCost(l, key)
      else if Less(k, key) then 1 + DeleteCost(r, key)
      else if l.Leaf? || r.Leaf? then 1
      else 1 + MinLength(r) + DeleteCost(r, MinKey(r))
  }

  lemma {:induction false} PathWithinHeight<N>(t: Tree<N>, key: GoString)
    ensures PathLength(t, key) <= Height(t)
  {
    if t.Branch? {
      PathWithinHeight(t.left, key);
      PathWithinHeight(t.right, key);
    }
  }

  lemma {:induction false} DeletingMinimumFollowsTheSpine<N>(t: Tree<N>)
    requires Ordered(t) && t.Branch?
    ensures DeleteCost(t, MinKey(t)) == MinLength(t) <= Height(t)
  {
    LessIrreflexive(t.key);
    if t.left.Branch? {
      DeletingMinimumFollowsTheSpine(t.left);
      MinKeyIsLeast(t.left);
    }
  }

  lemma {:induction false} DeleteWithinTwiceHeight<N>(t: Tree<N>, key: GoString)
    requires Ordered(t)
    ensures DeleteCost(t, key) <= 2 * Height(t)
  {
    if t.Branch? {
      DeleteWithinTwiceHeight(t.left, key);
      DeleteWithinTwiceHeight(t.right, key);
      if t.right.Branch? {
        DeletingMinimumFollowsTheSpine(t.right);
      }
    }
  }

  lemma {:induction false} InsertRaisesHeightByAtMostOne<N>(t: Tree<N>, key: GoString, added: N)
    ensures Height(t) <= Height(Inserted(t, key, added)) <= Height(t) + 1
  {
    if t.Branch? {
      InsertRaisesHeightByAtMostOne(t.left, key, added);
      InsertRaisesHeightByAtMostOne(t.right, key, added);
    }
  }

  lemma {:induction false} DeleteNeverRaisesHeight<N>(t: Tree<N>, key: GoString)
    ensures Height(Deleted(t, key)) <= Height(t)
    decreases t
  {
    if t.Branch? {
      DeleteNeverRaisesHeight(t.left, key);
      DeleteNeverRaisesHeight(t.right, key);
      if t.right.Branch? {
        DeleteNeverRaisesHeight(t.right, MinKey(t.right));
      }
    }
  }

  /** The tree that a start-up preload builds, inserting the rows in the order they come. */
  function Preloaded<N>(keys: seq<GoString>, nodes: seq<N>): Tree<N>
    requires |keys| == |nodes|
  {
    if keys == [] then Leaf
    else
      var n := |keys| - 1;
      Inserted(Preloaded(keys[..n], nodes[..n]), keys[n], nodes[n])
  }

  lemma {:induction false} PreloadIndexesEveryKey<N>(keys: seq<GoString>, nodes: seq<N>)
    requires |keys| == |nodes|
    ensures Ordered(Preloaded(keys, nodes))
    ensures forall k :: k in Keys(Preloaded(keys, nodes)) <==> k in keys
  {
    if keys != [] {
      var n := |keys| - 1;
      PreloadIndexesEveryKey(keys[..n], nodes[..n]);
      InsertAddsKey(Preloaded(keys[..n], nodes[..n]), keys[n], nodes[n]);
      assert keys == keys[..n] + [keys[n]];
    }
  }

  ghost predicate RightSpine<N>(t: Tree<N>) {
    t.Branch? ==> t.left.Leaf? && RightSpine(t.right)
  }

  lemma {:induction false} InsertAboveAllExtendsSpine<N>(t: Tree<N>, key: GoString, added: N)
    requires RightSpine(t) && forall x :: x in Keys(t) ==> Less(x, key)
    ensures RightSpine(Inserted(t, key, added))
    ensures Height(Inserted(t, key, added)) == Height(t) + 1
  {
    if t.Branch? {
      assert Less(t.key, key);
      LessTrichotomy(t.key, key);
      InsertAboveAllExtendsSpine(t.right, key, added);
    }
  }

  /** Rows that come sorted, as `ORDER BY username` gives them, build a list: the worst case. */
  lemma {:induction false} SortedPreloadIsDegenerate<N>(keys: seq<GoString>, nodes: seq<N>)
    requires |keys| == |nodes| && StrictlyAscending(keys)
    ensures RightSpine(Preloaded(keys, nodes))
    ensures Height(Preloaded(keys, nodes)) == |keys|
  {
    if keys != [] {
      var n := |keys| - 1;
      SortedPreloadIsDegenerate(keys[..n], nodes[..n]);
      PreloadIndexesEveryKey(keys[..n], nodes[..n]);
      InsertAboveAllExtendsSpine(Preloaded(keys[..n], nodes[..n]), keys[n], nodes[n]);
    }
  }
}
