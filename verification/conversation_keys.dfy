/** The keys under which `internal/client/cache.go` files a message. */
module ConversationKeys {
  import opened GoStrings

  datatype RecvMsg = RecvMsg(
    id: int, fromUser: GoString, toUser: GoString, toGroup: GoString,
    content: GoString, replyToId: int, sentAt: GoString)

  const COLON: byte := 58

  /** "group" */
  const GROUP_WORD: GoString := [103, 114, 111, 117, 112]

  function GroupKey(group: GoString): GoString {
    GROUP_WORD + [COLON] + group
  }

  function DmKey(a: GoString, b: GoString): GoString {
    if Less(b, a) then b + [COLON] + a else a + [COLON] + b
  }

  function CacheKey(msg: RecvMsg): GoString {
    if msg.toGroup != [] then GroupKey(msg.toGroup) else DmKey(msg.fromUser, msg.toUser)
  }

  /** A user name as the keys expect it: no separator in it, and not the word that marks groups. */
  predicate PlainName(name: GoString) {
    COLON !in name && name != GROUP_WORD
  }

  /** A direct message between these two users, in either direction. */
  ghost predicate IsBetween(msg: RecvMsg, a: GoString, b: GoString) {
    msg.toGroup == [] && SamePair(msg.fromUser, msg.toUser, a, b)
  }

  ghost predicate SamePair(a: GoString, b: GoString, c: GoString, d: GoString) {
    (a == c && b == d) || (a == d && b == c)
  }

  /** The user name that comes first in the key. */
  function First(a: GoString, b: GoString): GoString {
    if Less(b, a) then b else a
  }

  function Second(a: GoString, b: GoString): GoString {
    if Less(b, a) then a else b
  }

  lemma DmKeyIsSymmetric(a: GoString, b: GoString)
    ensures DmKey(a, b) == DmKey(b, a)
  {
    LessTrichotomy(a, b);
  }

  /** `key` read as a pair of names in order, with the separator at position `p`. */
  ghost predicate SplitsAt(key: GoString, p: nat) {
    p < |key| && key[p] == COLON && !Less(key[p + 1..], key[..p])
  }

  lemma DmKeySplits(a: GoString, b: GoString)
    ensures SplitsAt(DmKey(a, b), |First(a, b)|)
    ensures DmKey(a, b)[..|First(a, b)|] == First(a, b)
    ensures DmKey(a, b)[|First(a, b)| + 1..] == Second(a, b)
    ensures SamePair(a, b, First(a, b), Second(a, b))
  {
    LessTrichotomy(a, b);
    var key, p := DmKey(a, b), |First(a, b)|;
    assert key == First(a, b) + [COLON] + Second(a, b);
    assert key[..p] == First(a, b) && key[p + 1..] == Second(a, b);
    assert !Less(Second(a, b), First(a, b)) by { LessIrreflexive(a); }
  }

  lemma SplitIsADmKey(key: GoString, p: nat)
    requires SplitsAt(key, p)
    ensures DmKey(key[..p], key[p + 1..]) == key
    ensures First(key[..p], key[p + 1..]) == key[..p]
  {
    assert key == key[..p] + [key[p]] + key[p + 1..];
  }

  lemma PairsByPosition(a: GoString, b: GoString, c: GoString, d: GoString)
    requires DmKey(a, b) == DmKey(c, d)
    ensures SamePair(a, b, c, d) <==> |First(a, b)| == |First(c, d)|
  {
    DmKeySplits(a, b);
    DmKeySplits(c, d);
    if SamePair(a, b, c, d) {
      LessTrichotomy(a, b);
    }
  }

  /**
   Exactly when a pair of users shares its bucket with another pair: the key has a colon in a
   second place, with the two sides in order.
   */
  lemma KeyIsSharedExactlyWhen(a: GoString, b: GoString)
    ensures (exists c, d :: DmKey(c, d) == DmKey(a, b) && !SamePair(a, b, c, d))
            <==> exists p: nat :: p != |First(a, b)| && SplitsAt(DmKey(a, b), p)
  {
    var key := DmKey(a, b);
    if c, d :| DmKey(c, d) == key && !SamePair(a, b, c, d) {
      PairsByPosition(a, b, c, d);
      DmKeySplits(c, d);
      assert SplitsAt(key, |First(c, d)|);
    }
    if p: nat :| p != |First(a, b)| && SplitsAt(key, p) {
      SplitIsADmKey(key, p);
      PairsByPosition(a, b, key[..p], key[p + 1..]);
      assert |First(key[..p], key[p + 1..])| == p;
      assert DmKey(key[..p], key[p + 1..]) == key && !SamePair(a, b, key[..p], key[p + 1..]);
    }
  }

  lemma OnlyColon(lo: GoString, hi: GoString, i: nat)
    requires COLON !in lo && COLON !in hi && i <= |lo| + |hi|
    ensures (lo + [COLON] + hi)[i] == COLON <==> i == |lo|
  {
  }

  /** Names without a colon: one bucket for each unordered pair. */
  lemma ColonFreePairsHaveTheirOwnKey(a: GoString, b: GoString, c: GoString, d: GoString)
    requires COLON !in a && COLON !in b
    ensures DmKey(a, b) == DmKey(c, d) <==> SamePair(a, b, c, d)
  {
    if DmKey(a, b) == DmKey(c, d) {
      var key, p, q := DmKey(a, b), |First(a, b)|, |First(c, d)|;
      DmKeySplits(a, b);
      DmKeySplits(c, d);
      OnlyColon(First(a, b), Second(a, b), q);
      PairsByPosition(a, b, c, d);
    }
    if SamePair(a, b, c, d) {
      DmKeyIsSymmetric(a, b);
    }
  }

  /** With a colon in a name two conversations can fall together: "a:b" with "c", and "a" with "b:c". */
  lemma ColonNamesCanCollide()
    ensures exists a, b, c, d :: DmKey(a, b) == DmKey(c, d) && !SamePair(a, b, c, d)
  {
    var a, b, c, d: GoString := [97, COLON, 98], [99], [97], [98, COLON, 99];
    assert !Less(b, a) && !Less(d, c);
    assert DmKey(a, b) == a + [COLON] + b == c + [COLON] + d == DmKey(c, d);
    assert !SamePair(a, b, c, d);
  }

  /**
   Exactly when a direct conversation is filed in a group's bucket: the name that comes first
   is "group", or begins with "group:".
   */
  lemma DmMeetsGroupExactlyWhen(a: GoString, b: GoString)
    ensures (exists g :: g != [] && DmKey(a, b) == GroupKey(g))
            <==> First(a, b) == GROUP_WORD || GroupKey([]) <= First(a, b)
  {
    var key, lo := DmKey(a, b), First(a, b);
    DmKeySplits(a, b);
    if g :| g != [] && key == GroupKey(g) {
      assert forall i :: 0 <= i < 5 ==> key[i] == GROUP_WORD[i] != COLON;
      assert key[|lo|] == COLON;
      assert key[..5] == GROUP_WORD;
      if |lo| > 5 {
        assert lo[..6] == key[..6] == GroupKey([]);
      }
    }
    if lo == GROUP_WORD {
      var g := key[6..];
      LessTrichotomy(a, b);
      assert g != [] by { assert !Less(g, lo); }
      assert key == GroupKey(g);
    } else if GroupKey([]) <= lo {
      var g := key[6..];
      assert key == lo + [COLON] + key[|lo| + 1..];
      assert |g| >= 1 && key[..6] == lo[..6];
      assert key == GroupKey(g);
    }
  }

  lemma GroupKeysDiffer(g: GoString, h: GoString)
    ensures GroupKey(g) == GroupKey(h) <==> g == h
  {
    assert GroupKey(g)[6..] == g && GroupKey(h)[6..] == h;
  }

  // ---- where a message is filed ---------------------------------------------------------

  lemma PlainNamesMeetNoGroup(a: GoString, b: GoString, g: GoString)
    requires PlainName(a) && PlainName(b) && g != []
    ensures DmKey(a, b) != GroupKey(g)
  {
    DmMeetsGroupExactlyWhen(a, b);
    NoGroupPrefix(First(a, b));
  }

  lemma NoGroupPrefix(name: GoString)
    requires COLON !in name
    ensures !(GroupKey([]) <= name)
  {
    assert GroupKey([])[5] == COLON;
  }

  /** Under the key of two plain names are filed exactly the direct messages between them. */
  lemma FiledBetween(msg: RecvMsg, a: GoString, b: GoString)
    requires PlainName(a) && PlainName(b)
    ensures CacheKey(msg) == DmKey(a, b) <==> IsBetween(msg, a, b)
  {
    if msg.toGroup != [] {
      PlainNamesMeetNoGroup(a, b, msg.toGroup);
    } else {
      ColonFreePairsHaveTheirOwnKey(a, b, msg.fromUser, msg.toUser);
    }
  }

  /** Under the key of a group are filed its messages, and those direct messages whose first name looks like it. */
  lemma FiledInGroup(msg: RecvMsg, g: GoString)
    requires g != []
    ensures CacheKey(msg) == GroupKey(g)
            <==> msg.toGroup == g || (msg.toGroup == [] && DmKey(msg.fromUser, msg.toUser) == GroupKey(g))
    ensures PlainName(msg.fromUser) && PlainName(msg.toUser) ==> (CacheKey(msg) == GroupKey(g) <==> msg.toGroup == g)
  {
    GroupKeysDiffer(msg.toGroup, g);
    if PlainName(msg.fromUser) && PlainName(msg.toUser) {
      PlainNamesMeetNoGroup(msg.fromUser, msg.toUser, g);
    }
  }
}
