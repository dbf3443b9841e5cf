/**
 The client's message cache over Go slices: a bucket is a view into a backing array, `msgs[1:]`
 moves the view, and `append` writes in place while capacity remains.  Callers keep the views
 they were given.
 */
module MessageCaches {
  import opened GoStrings
  import opened ConversationKeys

  const NO_MSG := RecvMsg(0, [], [], [], [], 0, [])

  /** A Go slice; its capacity runs to the end of its array, as for every slice made by `append`. */
  datatype Slice = Nil | Slice(arr: array<RecvMsg>, off: nat, len: nat)

  predicate InBounds(s: Slice) {
    s.Slice? ==> s.off + s.len <= s.arr.Length
  }

  function Contents(s: Slice): seq<RecvMsg>
    requires InBounds(s)
    reads if s.Slice? then {s.arr} else {}
  {
    if s.Nil? then [] else s.arr[s.off..s.off + s.len]
  }

  function Len(s: Slice): nat {
    if s.Nil? then 0 else s.len
  }

  function End(s: Slice): nat {
    if s.Nil? then 0 else s.off + s.len
  }

  ghost function Store(s: Slice): set<array<RecvMsg>> {
    if s.Nil? then {} else {s.arr}
  }

  /** Go's `append(s, x)`; `spare` is the further capacity that the runtime chooses when it grows. */
  method Append(s: Slice, x: RecvMsg, spare: nat) returns (r: Slice)
    requires InBounds(s)
    modifies Store(s)
    ensures r.Slice? && InBounds(r) && Contents(r) == old(Contents(s)) + [x]
    ensures if s.Slice? && End(s) < s.arr.Length
            then r == Slice(s.arr, s.off, s.len + 1)
            else fresh(r.arr)
    ensures forall t | old(allocated(t)) && InBounds(t) && (Store(t) == Store(s) ==> End(t) <= End(s)) ::
              Contents(t) == old(Contents(t))
  {
    if s.Slice? && s.off + s.len < s.arr.Length {
      s.arr[s.off + s.len] := x;
      r := Slice(s.arr, s.off, s.len + 1);
    } else {
      var n := Len(s);
      var b := new RecvMsg[n + 1 + spare](_ => NO_MSG);
      if s.Slice? {
        forall i | 0 <= i < n {
          b[i] := s.arr[s.off + i];
        }
      }
      b[n] := x;
      r := Slice(b, 0, n + 1);
    }
  }

  // ---- what a bucket should hold ---------------------------------------------------

  /** The messages of the log with the given key, in the order they came. */
  function Conversation(log: seq<RecvMsg>, key: GoString): seq<RecvMsg> {
    if log == [] then []
    else
      var n := |log| - 1;
      Conversation(log[..n], key) + (if CacheKey(log[n]) == key then [log[n]] else [])
  }

  function LastOf(s: seq<RecvMsg>, limit: nat): seq<RecvMsg> {
    if |s| <= limit then s else s[|s| - limit..]
  }

  class MessageCache {
    var data: map<GoString, Slice>
    const limit: nat

    /** Every message ever added, in order. */
    ghost var log: seq<RecvMsg>

    /** Every slice ever handed out, with what it showed then. */
    ghost var lent: map<Slice, seq<RecvMsg>>

    /** The arrays behind all of these. */
    ghost var arrays: set<array<RecvMsg>>

    /** What the bucket of a key shows; a missing key shows nothing. */
    function Bucket(key: GoString): seq<RecvMsg>
      requires key in data ==> InBounds(data[key])
      reads this`data, if key in data && data[key].Slice? then {data[key].arr} else {}
    {
      if key in data then Contents(data[key]) else []
    }

    /** What a bucket should show: the last `limit` messages of its conversation. */
    function Window(log: seq<RecvMsg>, key: GoString): seq<RecvMsg> {
      LastOf(Conversation(log, key), limit)
    }

    ghost predicate Valid()
      reads this, arrays
    {
      && limit > 0
      && SlicesValid()
      && Shows(log)
    }

    ghost predicate Shows(log: seq<RecvMsg>)
      requires forall k :: k in data ==> InBounds(data[k])
      reads this`data, set k | k in data && data[k].Slice? :: data[k].arr
    {
      forall k :: Bucket(k) == Window(log, k)
    }

    ghost predicate SlicesValid()
      reads this`data, this`lent, this`arrays, arrays
    {
      && (forall k :: k in data ==> InBounds(data[k]) && Store(data[k]) <= arrays)
      && BucketsApart()
      && LentKept()
      && LentBehindFrontier()
    }

    /** No two buckets share storage. */
    ghost predicate BucketsApart()
      reads this`data
    {
      forall j, k :: j in data && k in data && j != k ==> Store(data[j]) !! Store(data[k])
    }

    /** The next cell that a bucket would write lies behind every slice handed out from its array. */
    ghost predicate LentBehindFrontier()
      reads this`data, this`lent
    {
      forall s, k :: s in lent && k in data && s.Slice? && data[k].Slice? && s.arr == data[k].arr
                     ==> End(s) <= End(data[k])
    }

    constructor (limit: int)
      ensures Valid() && log == [] && lent == map[] && arrays == {}
      ensures this.limit == if limit <= 0 then 100 else limit
    {
      this.limit := if limit <= 0 then 100 else limit;
      data := map[];
      log, lent, arrays := [], map[], {};
    }

    ghost function BucketStore(key: GoString): set<array<RecvMsg>>
      reads this`data
    {
      if key in data then Store(data[key]) else {}
    }

    /**
     Whatever the runtime's growth, the buckets stay the last `limit` messages of their
     conversations, and every slice handed out before still shows what it showed.
     */
    method Add(msg: RecvMsg, spare: nat)
      requires Valid()
      modifies this, BucketStore(CacheKey(msg))
      ensures Valid() && fresh(arrays - old(arrays))
      ensures log == old(log) + [msg]
      ensures lent == old(lent)
      ensures forall s :: s in lent ==> InBounds(s) && Contents(s) == old(lent)[s]
    {
      var key := CacheKey(msg);
      ghost var log' := log + [msg];
      ghost var shown := k => Window(log', k);
      WindowsGrow(log, msg, key, limit);
      File(key, msg, spare, shown);
      assert Shows(log');
      log := log';
    }

    /** `Add` with the key at hand; `shown` is what the buckets are to show afterwards. */
    method File(key: GoString, msg: RecvMsg, spare: nat, ghost shown: GoString -> seq<RecvMsg>)
      requires limit > 0 && SlicesValid()
      requires forall k :: shown(k) == if k == key then Slid(Bucket(k), msg, limit) else Bucket(k)
      modifies this`data, this`arrays, BucketStore(key)
      ensures SlicesValid() && fresh(arrays - old(arrays))
      ensures forall k :: Bucket(k) == shown(k)
    {
      Push(key, msg, spare);
    }

    /** `Add` on the slices alone: one bucket slides, and no other view changes. */
    method Push(key: GoString, msg: RecvMsg, spare: nat)
      requires limit > 0 && SlicesValid()
      modifies this`data, this`arrays, BucketStore(key)
      ensures SlicesValid() && fresh(arrays - old(arrays))
      ensures Bucket(key) == Slid(old(Bucket(key)), msg, limit)
      ensures forall k :: k != key ==> Bucket(k) == old(Bucket(k))
    {
      var msgs := Evicted(key);
      var grown := Grow(key, msgs, msg, spare);
      Install(key, grown);
    }

    /** `msgs[1:]` when the bucket is full: the view moves, and no cell does. */
    function Evicted(key: GoString): (msgs: Slice)
      requires limit > 0 && (key in data ==> InBounds(data[key]))
      reads this`data, if key in data && data[key].Slice? then {data[key].arr} else {}
      ensures InBounds(msgs)
      ensures if key in data then Store(msgs) == Store(data[key]) && End(msgs) == End(data[key]) else msgs.Nil?
      ensures Contents(msgs) == if |Bucket(key)| >= limit then Bucket(key)[1..] else Bucket(key)
    {
      var msgs := if key in data then data[key] else Nil;
      if Len(msgs) >= limit then Slice(msgs.arr, msgs.off + 1, msgs.len - 1) else msgs
    }

    /** The append: it may write the cell behind the bucket's view, which no one else has in view. */
    method Grow(key: GoString, msgs: Slice, msg: RecvMsg, spare: nat) returns (grown: Slice)
      requires SlicesValid() && InBounds(msgs)
      requires if key in data then Store(msgs) == Store(data[key]) && End(msgs) == End(data[key]) else msgs.Nil?
      modifies BucketStore(key)
      ensures SlicesValid()
      ensures grown.Slice? && InBounds(grown) && Contents(grown) == old(Contents(msgs)) + [msg]
      ensures forall k :: Bucket(k) == old(Bucket(k))
      ensures if grown.arr in Store(msgs) then End(grown) == End(msgs) + 1 else fresh(grown.arr) && grown.arr !in arrays
    {
      grown := Append(msgs, msg, spare);
    }

    /** The map update: the new view is in a fresh array, or extends the old view of the same bucket. */
    method Install(key: GoString, grown: Slice)
      requires grown.Slice? && InBounds(grown)
      requires SlicesValid()
      requires if key in data && grown.arr in Store(data[key])
               then End(grown) == End(data[key]) + 1
               else grown.arr !in arrays
      modifies this`data, this`arrays
      ensures SlicesValid() && data == old(data)[key := grown] && arrays == old(arrays) + {grown.arr}
    {
      data, arrays := data[key := grown], arrays + {grown.arr};
    }

    ghost predicate LentKept()
      reads this`lent, this`arrays, arrays
    {
      forall s :: s in lent ==> InBounds(s) && Store(s) <= arrays && Contents(s) == lent[s]
    }

    method Get(userA: GoString, userB: GoString) returns (msgs: Slice)
      requires Valid()
      modifies this`lent
      ensures Valid()
      ensures InBounds(msgs) && Contents(msgs) == Window(log, DmKey(userA, userB))
      ensures lent == old(lent)[msgs := Contents(msgs)]
    {
      msgs := Lend(DmKey(userA, userB));
    }

    method GetGroup(group: GoString) returns (msgs: Slice)
      requires Valid()
      modifies this`lent
      ensures Valid()
      ensures InBounds(msgs) && Contents(msgs) == Window(log, GroupKey(group))
      ensures lent == old(lent)[msgs := Contents(msgs)]
    {
      msgs := Lend(GroupKey(group));
    }

    /** The map lookup of both getters; a missing key gives the nil slice. */
    method Lend(key: GoString) returns (msgs: Slice)
      requires Valid()
      modifies this`lent
      ensures Valid()
      ensures InBounds(msgs) && Contents(msgs) == Window(log, key)
      ensures lent == old(lent)[msgs := Contents(msgs)]
    {
      msgs := if key in data then data[key] else Nil;
      lent := lent[msgs := Contents(msgs)];
    }
  }

  /**
   Any sequence of additions, with whatever growth each append chooses: the cache refines the whole log, and
   every slice handed out before the first of them still shows what it showed.
   */
  method AddAll(cache: MessageCache, msgs: seq<RecvMsg>, spares: seq<nat>)
    requires cache.Valid() && |spares| == |msgs|
    modifies cache, cache.arrays
    ensures cache.Valid() && fresh(cache.arrays - old(cache.arrays))
    ensures cache.log == old(cache.log) + msgs && cache.lent == old(cache.lent)
    ensures forall s :: s in old(cache.lent) ==> InBounds(s) && Contents(s) == old(cache.lent)[s]
    ensures forall s :: s in old(cache.lent) ==> Contents(s) == old(Contents(s))
  {
    for i := 0 to |msgs|
      invariant cache.Valid() && fresh(cache.arrays - old(cache.arrays))
      invariant cache.log == old(cache.log) + msgs[..i] && cache.lent == old(cache.lent)
    {
      assert msgs[..i + 1] == msgs[..i] + [msgs[i]];
      cache.Add(msgs[i], spares[i]);
    }
    assert msgs[..|msgs|] == msgs;
  }

  /** What a client does with its cache; `spare` is the runtime's choice in the append. */
  datatype CacheOp =
    | AddOp(msg: RecvMsg, spare: nat)
    | GetOp(userA: GoString, userB: GoString)
    | GetGroupOp(group: GoString)

  function LogAfter(log: seq<RecvMsg>, ops: seq<CacheOp>): seq<RecvMsg> {
    if ops == [] then log
    else
      var n := |ops| - 1;
      LogAfter(log, ops[..n]) + (if ops[n].AddOp? then [ops[n].msg] else [])
  }

  /** What each getter of a history is to show: the last `limit` messages of the full log at that moment. */
  function Answers(log: seq<RecvMsg>, ops: seq<CacheOp>, limit: nat): seq<seq<RecvMsg>> {
    if ops == [] then []
    else
      var n := |ops| - 1;
      Answers(log, ops[..n], limit) + Answer(LogAfter(log, ops[..n]), ops[n], limit)
  }

  function Answer(log: seq<RecvMsg>, op: CacheOp, limit: nat): seq<seq<RecvMsg>> {
    match op
    case AddOp(_, _) => []
    case GetOp(a, b) => [LastOf(Conversation(log, DmKey(a, b)), limit)]
    case GetGroupOp(g) => [LastOf(Conversation(log, GroupKey(g)), limit)]
  }

  // ---- what is asked for, in terms of the messages alone ---------------------------------

  /** The direct messages of the log between two users, in order. */
  ghost function Between(log: seq<RecvMsg>, a: GoString, b: GoString): seq<RecvMsg> {
    if log == [] then []
    else
      var n := |log| - 1;
      Between(log[..n], a, b) + (if IsBetween(log[n], a, b) then [log[n]] else [])
  }

  /** The messages of the log to a group, in order. */
  ghost function ToGroup(log: seq<RecvMsg>, g: GoString): seq<RecvMsg> {
    if log == [] then []
    else
      var n := |log| - 1;
      ToGroup(log[..n], g) + (if log[n].toGroup == g then [log[n]] else [])
  }

  ghost predicate PlainLog(log: seq<RecvMsg>) {
    forall m :: m in log ==> PlainName(m.fromUser) && PlainName(m.toUser)
  }

  /** Filed under the key of `a` and `b`, but not between them. */
  ghost predicate StraysBetween(m: RecvMsg, a: GoString, b: GoString) {
    && !IsBetween(m, a, b)
    && if m.toGroup == [] then DmKey(m.fromUser, m.toUser) == DmKey(a, b) else GroupKey(m.toGroup) == DmKey(a, b)
  }

  lemma {:induction false} BetweenIsPart(log: seq<RecvMsg>, a: GoString, b: GoString)
    ensures if exists m :: m in log && StraysBetween(m, a, b)
            then |Between(log, a, b)| < |Conversation(log, DmKey(a, b))|
            else Between(log, a, b) == Conversation(log, DmKey(a, b))
  {
    if log != [] {
      var n := |log| - 1;
      BetweenIsPart(log[..n], a, b);
      DmKeyIsSymmetric(a, b);
      assert log == log[..n] + [log[n]];
      assert StraysBetween(log[n], a, b) ==> log[n] in log;
    }
  }

  /** For any names: a lookup shows the messages between the two exactly when no other message shares their key. */
  lemma ConversationIsBetweenExactlyWhen(log: seq<RecvMsg>, a: GoString, b: GoString)
    ensures Conversation(log, DmKey(a, b)) == Between(log, a, b) <==> !exists m :: m in log && StraysBetween(m, a, b)
    ensures PlainName(a) && PlainName(b) ==> Conversation(log, DmKey(a, b)) == Between(log, a, b)
  {
    BetweenIsPart(log, a, b);
    if PlainName(a) && PlainName(b) {
      forall m | StraysBetween(m, a, b) ensures false {
        FiledBetween(m, a, b);
      }
    }
  }

  /** Filed under the key of the group, but not sent to it. */
  ghost predicate StraysToGroup(m: RecvMsg, g: GoString) {
    m.toGroup == [] && DmKey(m.fromUser, m.toUser) == GroupKey(g)
  }

  lemma {:induction false} ToGroupIsPart(log: seq<RecvMsg>, g: GoString)
    requires g != []
    ensures if exists m :: m in log && StraysToGroup(m, g)
            then |ToGroup(log, g)| < |Conversation(log, GroupKey(g))|
            else ToGroup(log, g) == Conversation(log, GroupKey(g))
  {
    if log != [] {
      var n := |log| - 1;
      ToGroupIsPart(log[..n], g);
      FiledInGroup(log[n], g);
      assert log == log[..n] + [log[n]];
      assert StraysToGroup(log[n], g) ==> log[n] in log;
    }
  }

  /** A lookup shows the messages to a group exactly when no direct message shares its key. */
  lemma ConversationIsToGroupExactlyWhen(log: seq<RecvMsg>, g: GoString)
    requires g != []
    ensures Conversation(log, GroupKey(g)) == ToGroup(log, g) <==> !exists m :: m in log && StraysToGroup(m, g)
    ensures PlainLog(log) ==> Conversation(log, GroupKey(g)) == ToGroup(log, g)
  {
    ToGroupIsPart(log, g);
    if PlainLog(log) {
      forall m | m in log && StraysToGroup(m, g) ensures false {
        PlainNamesMeetNoGroup(m.fromUser, m.toUser, g);
      }
    }
  }

  /** Every lookup asks for plain names, or for a group, and in the latter case the log bears plain names only. */
  ghost predicate PlainHistory(log: seq<RecvMsg>, ops: seq<CacheOp>) {
    forall n :: 0 <= n < |ops| ==>
      match ops[n]
      case AddOp(_, _) => true
      case GetOp(a, b) => PlainName(a) && PlainName(b)
      case GetGroupOp(g) => g != [] && PlainLog(LogAfter(log, ops[..n]))
  }

  /** What the getters of a history are asked for: the last `limit` messages between two users or to a group. */
  ghost function Asked(log: seq<RecvMsg>, ops: seq<CacheOp>, limit: nat): seq<seq<RecvMsg>> {
    if ops == [] then []
    else
      var n := |ops| - 1;
      var soFar := LogAfter(log, ops[..n]);
      Asked(log, ops[..n], limit) + match ops[n]
        case AddOp(_, _) => []
        case GetOp(a, b) => [LastOf(Between(soFar, a, b), limit)]
        case GetGroupOp(g) => [LastOf(ToGroup(soFar, g), limit)]
  }

  lemma {:induction false} AnswersAreAsked(log: seq<RecvMsg>, ops: seq<CacheOp>, limit: nat)
    requires PlainHistory(log, ops)
    ensures Answers(log, ops, limit) == Asked(log, ops, limit)
  {
    if ops != [] {
      var n := |ops| - 1;
      assert forall k :: 0 <= k <= n ==> ops[..n][..k] == ops[..k];
      assert PlainHistory(log, ops[..n]);
      AnswersAreAsked(log, ops[..n], limit);
      match ops[n] {
        case AddOp(_, _) =>
        case GetOp(a, b) => ConversationIsBetweenExactlyWhen(LogAfter(log, ops[..n]), a, b);
        case GetGroupOp(g) => ConversationIsToGroupExactlyWhen(LogAfter(log, ops[..n]), g);
      }
    }
  }

  /**
   Any history of additions and lookups: at its end every slice handed out along the way still shows what
   the full log gave when it was asked for.
   */
  method RunHistory(cache: MessageCache, ops: seq<CacheOp>) returns (slices: seq<Slice>)
    requires cache.Valid()
    modifies cache, cache.arrays
    ensures cache.Valid() && fresh(cache.arrays - old(cache.arrays))
    ensures cache.log == LogAfter(old(cache.log), ops)
    ensures |slices| == |Answers(old(cache.log), ops, cache.limit)|
    ensures forall i :: 0 <= i < |slices| ==>
              InBounds(slices[i]) && Contents(slices[i]) == Answers(old(cache.log), ops, cache.limit)[i]
    ensures forall s :: s in old(cache.lent) ==> InBounds(s) && Contents(s) == old(cache.lent)[s]
  {
    slices := [];
    for n := 0 to |ops|
      invariant cache.Valid() && fresh(cache.arrays - old(cache.arrays))
      invariant cache.log == LogAfter(old(cache.log), ops[..n])
      invariant StillLent(old(cache.lent), cache.lent)
      invariant LentAs(cache.lent, slices, Answers(old(cache.log), ops[..n], cache.limit))
    {
      assert ops[..n + 1][..n] == ops[..n];
      ghost var before := cache.lent;
      var shown := RunOp(cache, ops[n]);
      slices := slices + shown;
      assert StillLent(before, cache.lent);
    }
    assert ops[..|ops|] == ops;
  }

  /**
   The same in terms of the messages alone: a lookup of two plain names shows the last `limit` direct messages
   between them, in either direction; a lookup of a group shows the last `limit` messages to it.
   */
  method RunPlainHistory(cache: MessageCache, ops: seq<CacheOp>) returns (slices: seq<Slice>)
    requires cache.Valid() && PlainHistory(cache.log, ops)
    modifies cache, cache.arrays
    ensures cache.Valid() && fresh(cache.arrays - old(cache.arrays))
    ensures cache.log == LogAfter(old(cache.log), ops)
    ensures |slices| == |Asked(old(cache.log), ops, cache.limit)|
    ensures forall i :: 0 <= i < |slices| ==>
              InBounds(slices[i]) && Contents(slices[i]) == Asked(old(cache.log), ops, cache.limit)[i]
  {
    AnswersAreAsked(cache.log, ops, cache.limit);
    slices := RunHistory(cache, ops);
  }

  ghost predicate StillLent(was: map<Slice, seq<RecvMsg>>, now: map<Slice, seq<RecvMsg>>) {
    forall s :: s in was ==> s in now && now[s] == was[s]
  }

  /** These slices were handed out with these contents. */
  ghost predicate LentAs(lent: map<Slice, seq<RecvMsg>>, slices: seq<Slice>, answers: seq<seq<RecvMsg>>) {
    |slices| == |answers| && forall i :: 0 <= i < |slices| ==> slices[i] in lent && lent[slices[i]] == answers[i]
  }

  /** One operation of a history; a getter hands out one slice. */
  method RunOp(cache: MessageCache, op: CacheOp) returns (shown: seq<Slice>)
    requires cache.Valid()
    modifies cache, cache.arrays
    ensures cache.Valid() && fresh(cache.arrays - old(cache.arrays))
    ensures cache.log == old(cache.log) + if op.AddOp? then [op.msg] else []
    ensures StillLent(old(cache.lent), cache.lent)
    ensures LentAs(cache.lent, shown, Answer(old(cache.log), op, cache.limit))
  {
    shown := [];
    match op {
      case AddOp(msg, spare) =>
        cache.Add(msg, spare);
      case GetOp(a, b) =>
        var msgs := cache.Get(a, b);
        shown := [msgs];
      case GetGroupOp(g) =>
        var msgs := cache.GetGroup(g);
        shown := [msgs];
    }
  }

  /** One more message: its own conversation's window moves by one, and no other changes. */
  lemma WindowGrows(log: seq<RecvMsg>, msg: RecvMsg, key: GoString, limit: nat)
    requires limit > 0
    ensures LastOf(Conversation(log + [msg], key), limit)
            == if CacheKey(msg) == key then Slid(LastOf(Conversation(log, key), limit), msg, limit)
               else LastOf(Conversation(log, key), limit)
  {
    var s, t := Conversation(log, key), Conversation(log + [msg], key);
    ConversationGrows(log, msg, key);
    if CacheKey(msg) == key {
      WindowSlides(s, t, msg, limit);
    } else {
      assert t == s;
    }
  }

  lemma WindowsGrow(log: seq<RecvMsg>, msg: RecvMsg, key: GoString, limit: nat)
    requires limit > 0 && key == CacheKey(msg)
    ensures forall k :: LastOf(Conversation(log + [msg], k), limit)
              == if k == key then Slid(LastOf(Conversation(log, k), limit), msg, limit)
                 else LastOf(Conversation(log, k), limit)
  {
    forall k
      ensures LastOf(Conversation(log + [msg], k), limit)
              == if k == key then Slid(LastOf(Conversation(log, k), limit), msg, limit)
                 else LastOf(Conversation(log, k), limit)
    {
      WindowGrows(log, msg, k, limit);
    }
  }

  function Slid(w: seq<RecvMsg>, msg: RecvMsg, limit: nat): seq<RecvMsg>
    requires limit > 0
  {
    (if |w| >= limit then w[1..] else w) + [msg]
  }

  lemma ConversationGrows(log: seq<RecvMsg>, msg: RecvMsg, key: GoString)
    ensures Conversation(log + [msg], key) == Conversation(log, key) + (if CacheKey(msg) == key then [msg] else [])
  {
    assert (log + [msg])[..|log|] == log;
  }

  lemma WindowSlides(s: seq<RecvMsg>, t: seq<RecvMsg>, msg: RecvMsg, limit: nat)
    requires limit > 0 && t == s + [msg]
    ensures LastOf(t, limit) == Slid(LastOf(s, limit), msg, limit)
  {
  }
}
