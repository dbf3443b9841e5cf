/** Go strings as byte sequences, with the byte-wise lexicographic order of Go's `<`. */
module GoStrings {

  newtype byte = x: int | 0 <= x < 256

  type GoString = seq<byte>

  /** Go's `a < b` on strings.  Dafny's own `<` on sequences is the proper-prefix order. */
  predicate Less(a: GoString, b: GoString) {
    if b == [] then false
    else if a == [] then true
    else a[0] < b[0] || (a[0] == b[0] && Less(a[1..], b[1..]))
  }

  /** The first place where two strings part: one ends there, or the bytes differ. */
  ghost predicate PartAt(a: GoString, b: GoString, k: nat) {
    && k <= |a| && k <= |b|
    && a[..k] == b[..k]
    && (k < |a| && k < |b| ==> a[k] != b[k])
  }

  /** `Less` is decided exactly at the place where the strings part. */
  lemma {:induction false} LessMeansSmallerAtPart(a: GoString, b: GoString, k: nat)
    requires PartAt(a, b, k)
    ensures Less(a, b) <==> k < |b| && (k == |a| || a[k] < b[k])
  {
    if k > 0 {
      assert a[0] == a[..k][0] && b[0] == b[..k][0];
      assert a[1..][..k - 1] == a[..k][1..] && b[1..][..k - 1] == b[..k][1..];
      LessMeansSmallerAtPart(a[1..], b[1..], k - 1);
    }
  }

  lemma {:induction false} LessIrreflexive(a: GoString)
    ensures !Less(a, a)
  {
    if a != [] {
      LessIrreflexive(a[1..]);
    }
  }

  lemma {:induction false} LessTransitive(a: GoString, b: GoString, c: GoString)
    requires Less(a, b) && Less(b, c)
    ensures Less(a, c)
  {
    if a != [] && a[0] == b[0] == c[0] {
      LessTransitive(a[1..], b[1..], c[1..]);
    }
  }

  lemma {:induction false} LessTrichotomy(a: GoString, b: GoString)
    ensures Less(a, b) || a == b || Less(b, a)
    ensures !(Less(a, b) && Less(b, a))
  {
    if a != [] && b != [] && a[0] == b[0] {
      LessTrichotomy(a[1..], b[1..]);
      assert a == [a[0]] + a[1..] && b == [b[0]] + b[1..];
    }
  }

  /** The three laws together, for proofs that need them for many strings at once. */
  lemma LessIsStrictTotalOrder()
    ensures forall a :: !Less(a, a)
    ensures forall a, b :: Less(a, b) || a == b || Less(b, a)
    ensures forall a, b, c :: Less(a, b) && Less(b, c) ==> Less(a, c)
  {
    forall a ensures !Less(a, a) { LessIrreflexive(a); }
    forall a, b ensures Less(a, b) || a == b || Less(b, a) { LessTrichotomy(a, b); }
    forall a, b, c | Less(a, b) && Less(b, c) ensures Less(a, c) { LessTransitive(a, b, c); }
  }

  ghost predicate StrictlyAscending(s: seq<GoString>) {
    forall i, j :: 0 <= i < j < |s| ==> Less(s[i], s[j])
  }

  /** A set of strings has only one strictly ascending listing. */
  lemma {:induction false} AscendingListingIsUnique(s: seq<GoString>, t: seq<GoString>)
    requires StrictlyAscending(s) && StrictlyAscending(t)
    requires forall k :: k in s <==> k in t
    ensures s == t
  {
    EmptyTogether(s, t);
    if s != [] {
      HeadsAgree(s, t);
      TailMembers(s);
      TailMembers(t);
      forall k ensures k in s[1..] <==> k in t[1..] {
        assert k in s[1..] <==> k in s && k != s[0];
        assert k in t[1..] <==> k in t && k != t[0];
      }
      AscendingListingIsUnique(s[1..], t[1..]);
      assert s == [s[0]] + s[1..] && t == [t[0]] + t[1..];
    }
  }

  lemma EmptyTogether(s: seq<GoString>, t: seq<GoString>)
    requires forall k :: k in s <==> k in t
    ensures s == [] <==> t == []
  {
    if s != [] { assert s[0] in s; }
    if t != [] { assert t[0] in t; }
  }

  lemma HeadsAgree(s: seq<GoString>, t: seq<GoString>)
    requires s != [] && t != []
    requires StrictlyAscending(s) && StrictlyAscending(t)
    requires forall k :: k in s <==> k in t
    ensures s[0] == t[0]
  {
    assert s[0] in t && t[0] in s;
    var i :| 0 <= i < |t| && t[i] == s[0];
    var j :| 0 <= j < |s| && s[j] == t[0];
    if i > 0 && j > 0 {
      LessTrichotomy(s[0], t[0]);
    }
  }

  lemma TailMembers(s: seq<GoString>)
    requires s != [] && StrictlyAscending(s)
    ensures forall k :: k in s[1..] <==> k in s && k != s[0]
  {
    LessIrreflexive(s[0]);
    forall k | k in s[1..] ensures k in s && k != s[0] {
      var i :| 0 <= i < |s[1..]| && s[1..][i] == k;
      assert s[i + 1] == k;
    }
    forall k | k in s && k != s[0] ensures k in s[1..] {
      var i :| 0 <= i < |s| && s[i] == k;
      assert s[1..][i - 1] == k;
    }
  }
}
