/** The mutable search tree of `internal/util/bst.go`, refined to the value trees of `IndexTree`. */
module Bst {
  import opened GoStrings
  import opened IndexTree

  class Node {
    var key: GoString
    var left: Node?
    var right: Node?

    constructor (key: GoString)
      ensures this.key == key && left == null && right == null
    {
      this.key, left, right := key, null, null;
    }
  }

  ghost function Nodes(t: Tree<Node>): set<Node> {
    match t
    case Leaf => {}
    case Branch(n, _, l, r) => Nodes(l) + {n} + Nodes(r)
  }

  /**
   The heap reachable from `n` is the tree `t`: same keys and links at the same objects.
   Subtrees share no node with each other or with their parent, so there is no cycle.
   */
  ghost predicate Shape(n: Node?, t: Tree<Node>)
    reads Nodes(t)
  {
    match t
    case Leaf => n == null
    case Branch(m, k, l, r) =>
      && n == m && m.key == k
      && m !in Nodes(l) && m !in Nodes(r) && Nodes(l) !! Nodes(r)
      && Shape(m.left, l) && Shape(m.right, r)
  }

  /** Every node of a tree value is an object of the current heap, so writes elsewhere leave it alone. */
  lemma {:induction false} NodesAllocated(t: Tree<Node>)
    ensures forall m :: m in Nodes(t) ==> allocated(m)
  {
    if t.Branch? {
      NodesAllocated(t.left);
      NodesAllocated(t.right);
    }
  }

  /** A heap pointer is the root of one tree only. */
  lemma {:induction false} ShapeIsUnique(n: Node?, t: Tree<Node>, u: Tree<Node>)
    requires Shape(n, t) && Shape(n, u)
    ensures t == u
  {
    if t.Branch? {
      ShapeIsUnique(t.node.left, t.left, u.left);
      ShapeIsUnique(t.node.right, t.right, u.right);
    }
  }

  lemma {:induction false} InsertNodes(t: Tree<Node>, key: GoString, added: Node)
    ensures Nodes(t) <= Nodes(Inserted(t, key, added)) <= Nodes(t) + {added}
  {
    if t.Branch? {
      InsertNodes(t.left, key, added);
      InsertNodes(t.right, key, added);
    }
  }

  lemma {:induction false} DeleteNodes(t: Tree<Node>, key: GoString)
    ensures Nodes(Deleted(t, key)) <= Nodes(t)
    decreases t
  {
    if t.Branch? {
      DeleteNodes(t.left, key);
      DeleteNodes(t.right, key);
      if t.right.Branch? {
        DeleteNodes(t.right, MinKey(t.right));
      }
    }
  }

  /** `added` is the node that `bstInsert` allocates; it stays out of the tree when the key is there. */
  method BstInsert(n: Node?, key: GoString, ghost t: Tree<Node>)
    returns (r: Node?, ghost added: Node, ghost visited: nat)
    requires Shape(n, t)
    modifies Nodes(t)
    ensures Shape(r, Inserted(t, key, added))
    ensures !Find(t, key) ==> fresh(added)
    ensures Find(t, key) ==> added in Nodes(t)
    ensures n != null ==> r == n
    ensures visited == PathLength(t, key)
    decreases t
  {
    visited := 0;
    if n == null {
      r := new Node(key);
      added := r;
      return;
    }
    NodesAllocated(t);
    r := n;
    visited := 1;
    LessTrichotomy(key, n.key);
    if Less(key, n.key) {
      ghost var v;
      var m;
      m, added, v := BstInsert(n.left, key, t.left);
      n.left := m;
      visited := visited + v;
      InsertNodes(t.left, key, added);
    } else if Less(n.key, key) {
      ghost var v;
      var m;
      m, added, v := BstInsert(n.right, key, t.right);
      n.right := m;
      visited := visited + v;
      InsertNodes(t.right, key, added);
      LessIrreflexive(key);
    } else {
      added := n;
    }
  }

  /** The loop walks down the left spine; `u` is the subtree it has reached. */
  method BstMin(n: Node, ghost t: Tree<Node>) returns (m: Node, ghost visited: nat)
    requires Shape(n, t)
    ensures t.Branch? && m in Nodes(t) && m.key == MinKey(t) && m.left == null
    ensures visited == MinLength(t)
  {
    m := n;
    ghost var u := t;
    visited := 1;
    while m.left != null
      invariant Shape(m, u) && u.Branch? && Nodes(u) <= Nodes(t)
      invariant MinKey(u) == MinKey(t)
      invariant visited + MinLength(u) == 1 + MinLength(t)
      decreases u
    {
      m, u, visited := m.left, u.left, visited + 1;
    }
  }

  /**
   No search order is needed here: the method does to any heap tree what `Deleted` does to
   its value, the step in which the successor's key stands twice included.
   */
  method BstDelete(n: Node?, key: GoString, ghost t: Tree<Node>) returns (r: Node?, ghost visited: nat)
    requires Shape(n, t)
    modifies Nodes(t)
    ensures Shape(r, Deleted(t, key))
    ensures visited == DeleteCost(t, key)
    decreases t
  {
    if n == null {
      return null, 0;
    }
    NodesAllocated(t);
    r := n;
    visited := 1;
    ghost var v;
    if Less(key, n.key) {
      var m;
      m, v := BstDelete(n.left, key, t.left);
      n.left := m;
      DeleteNodes(t.left, key);
      visited := visited + v;
    } else if Less(n.key, key) {
      var m;
      m, v := BstDelete(n.right, key, t.right);
      n.right := m;
      DeleteNodes(t.right, key);
      visited := visited + v;
    } else {
      if n.left == null {
        return n.right, visited;
      }
      if n.right == null {
        return n.left, visited;
      }
      var successor;
      successor, v := BstMin(n.right, t.right);
      visited := visited + v;
      var next := successor.key;
      n.key := next;
      var m;
      m, v := BstDelete(n.right, next, t.right);
      n.right := m;
      DeleteNodes(t.right, next);
      visited := visited + v;
    }
  }

  method BstSearch(n: Node?, key: GoString, ghost t: Tree<Node>) returns (found: bool, ghost visited: nat)
    requires Shape(n, t)
    ensures found == Find(t, key)
    ensures visited == PathLength(t, key)
    decreases t
  {
    if n == null {
      return false, 0;
    }
    LessTrichotomy(key, n.key);
    if key == n.key {
      LessIrreflexive(key);
      return true, 1;
    }
    if Less(key, n.key) {
      found, visited := BstSearch(n.left, key, t.left);
    } else {
      found, visited := BstSearch(n.right, key, t.right);
    }
    visited := visited + 1;
  }

  function BstLen(n: Node?, ghost t: Tree<Node>): (len: nat)
    requires Shape(n, t)
    reads Nodes(t)
    ensures len == Size(t)
    decreases t
  {
    if n == null then 0 else 1 + BstLen(n.left, t.left) + BstLen(n.right, t.right)
  }

  /** The slice that `bstInOrder` appends to through a pointer. */
  class Listed {
    var keys: seq<GoString>

    constructor ()
      ensures keys == []
    {
      keys := [];
    }
  }

  method BstInOrder(n: Node?, result: Listed, ghost t: Tree<Node>)
    requires Shape(n, t)
    modifies result
    ensures result.keys == old(result.keys) + InOrder(t)
    decreases t
  {
    if n == null {
      return;
    }
    NodesAllocated(t.right);
    BstInOrder(n.left, result, t.left);
    result.keys := result.keys + [n.key];
    BstInOrder(n.right, result, t.right);
  }

  /** The index: its contents are a set of strings, and every node it uses is its own. */
  class BST {
    var root: Node?
    ghost var tree: Tree<Node>

    ghost predicate Valid()
      reads this, Nodes(tree)
    {
      Shape(root, tree) && Ordered(tree)
    }

    ghost function Contents(): set<GoString>
      reads this
    {
      Keys(tree)
    }

    constructor ()
      ensures Valid() && tree == Leaf && Contents() == {}
    {
      root, tree := null, Leaf;
    }

    method Insert(key: GoString)
      requires Valid()
      modifies this, Nodes(tree)
      ensures Valid() && forall m :: m in Nodes(tree) ==> m in old(Nodes(tree)) || fresh(m)
      ensures Contents() == old(Contents()) + {key}
      ensures exists added :: tree == Inserted(old(tree), key, added)
      ensures key in old(Contents()) ==> tree == old(tree)
    {
      ghost var added, visited;
      ghost var before := tree;
      root, added, visited := BstInsert(root, key, tree);
      tree := Inserted(tree, key, added);
      InsertAddsKey(before, key, added);
      InsertNodes(before, key, added);
      FindIsMembership(before, key);
      if key in Keys(before) {
        InsertOfPresentKey(before, key, added);
      }
    }

    method Delete(key: GoString)
      requires Valid()
      modifies this, Nodes(tree)
      ensures Valid() && Nodes(tree) <= old(Nodes(tree))
      ensures Contents() == old(Contents()) - {key}
      ensures tree == Deleted(old(tree), key)
    {
      ghost var visited;
      ghost var before := tree;
      root, visited := BstDelete(root, key, tree);
      tree := Deleted(tree, key);
      DeleteRemovesKey(before, key);
      DeleteNodes(before, key);
    }

    method Search(key: GoString) returns (found: bool)
      requires Valid()
      ensures Valid() && (found <==> key in Contents())
    {
      FindIsMembership(tree, key);
      NodesAllocated(tree);
      ghost var visited;
      found, visited := BstSearch(root, key, tree);
    }

    method InOrder() returns (keys: seq<GoString>)
      requires Valid()
      ensures Valid()
      ensures StrictlyAscending(keys)
      ensures forall k :: k in keys <==> k in Contents()
    {
      NodesAllocated(tree);
      var result := new Listed();
      BstInOrder(root, result, tree);
      keys := result.keys;
      InOrderIsAscending(tree);
      InOrderListsKeys(tree);
    }

    function Len(): (len: nat)
      requires Valid()
      reads this, Nodes(tree)
      ensures len == |Contents()|
    {
      SizeCountsKeys(tree);
      BstLen(root, tree)
    }
  }

  lemma {:induction false} InsertOfPresentKey<N>(t: Tree<N>, key: GoString, added: N)
    requires Ordered(t) && key in Keys(t)
    ensures Inserted(t, key, added) == t
  {
    LessTrichotomy(key, t.key);
    forall x | x in Keys(t.left) ensures x == key ==> Less(key, t.key) {}
    if Less(key, t.key) {
      forall x | x in Keys(t.right) ensures x != key { LessTrichotomy(t.key, x); }
      InsertOfPresentKey(t.left, key, added);
    } else if Less(t.key, key) {
      forall x | x in Keys(t.left) ensures x != key { LessTrichotomy(x, t.key); }
      InsertOfPresentKey(t.right, key, added);
    }
  }

  /**
   An insertion followed by a deletion of a new key leaves the index with the
   same node objects in the same places.
   */
  method InsertThenDelete(index: BST, key: GoString)
    requires index.Valid() && key !in index.Contents()
    modifies index, Nodes(index.tree)
    ensures index.Valid() && index.tree == old(index.tree)
  {
    index.Insert(key);
    ghost var added :| index.tree == Inserted(old(index.tree), key, added);
    index.Delete(key);
    DeleteUndoesInsert(old(index.tree), key, added);
  }

  /**
   Any history of operations on the heap: the answers are those of a finite set of strings.  The nodes of
   the insertions are the ones that the heap allocates.
   */
  method RunHistory(index: BST, ops: seq<Op<()>>) returns (answers: seq<Answer>)
    requires index.Valid()
    modifies index, Nodes(index.tree)
    ensures index.Valid() && forall m :: m in Nodes(index.tree) ==> m in old(Nodes(index.tree)) || fresh(m)
    ensures SetAnswers(old(index.Contents()), ops, answers)
    decreases |ops|
  {
    if ops == [] {
      return [];
    }
    var answer := RunOp(index, ops[0]);
    var rest := RunHistory(index, ops[1..]);
    answers := [answer] + rest;
  }

  method RunOp(index: BST, op: Op<()>) returns (answer: Answer)
    requires index.Valid()
    modifies index, Nodes(index.tree)
    ensures index.Valid() && forall m :: m in Nodes(index.tree) ==> m in old(Nodes(index.tree)) || fresh(m)
    ensures AnswersAs(old(index.Contents()), op, answer) && index.Contents() == SetAfter(old(index.Contents()), op)
  {
    match op {
      case Insert(k, _) =>
        index.Insert(k);
        answer := Done;
      case Delete(k) =>
        index.Delete(k);
        answer := Done;
      case Search(k) =>
        var found := index.Search(k);
        answer := Found(found);
      case List =>
        var keys := index.InOrder();
        answer := Listing(keys);
      case Len =>
        answer := Length(index.Len());
    }
  }
}
