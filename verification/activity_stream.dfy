/**
 * Activity streams on Aerospike (aerospike/activity_stream/all.py).
 *
 * Fan-out on write: a post is inserted at the head of the `stream` list of
 * each recipient's record in the set `msgs`, so a stream reads newest
 * first. With bucketing, each user record in `users` counts the posts the
 * user has received (`total`), and post number n goes to the head of
 * bucket `calc_bucket(n)`. A bucket is its own `msgs` record, keyed by a
 * digest of (user, bucket number); reading the buckets from the highest
 * down gives the whole inbox, newest first.
 */
module ActivityStream {
  import opened Wrappers

  datatype Post = Post(msg: string, from: string, sentTs: int)

  /** The key of a bucket record: the digest of this pair is modelled by the pair itself. */
  datatype BucketKey = BucketKey(user: string, number: int)

  datatype UserRecord = UserRecord(total: int, gen: nat)

  datatype Outcome = Done | NotFound

  /** The caller's recipient list, which the post functions append the sender to. */
  class RecipientList {
    var items: seq<string>

    constructor (items: seq<string>)
      ensures this.items == items
    {
      this.items := items;
    }
  }

  // ---------------------------------------------------------------------
  // Buckets
  // ---------------------------------------------------------------------

  /** `calc_bucket`: floor(count / 3) + 1; Dafny's `/` floors for a positive divisor, as Python's does. */
  function CalcBucket(count: int): int
  {
    count / 3 + 1
  }

  /** Bucket numbers start at 1 and go up by at most one per message. */
  lemma CalcBucketStep(n: int)
    requires 0 <= n
    ensures 1 <= CalcBucket(n) <= CalcBucket(n + 1) <= CalcBucket(n) + 1
  {
  }

  /** Bucket 1 takes messages 1 and 2; bucket b > 1 takes messages 3(b−1) to 3(b−1)+2. */
  lemma CalcBucketRange(n: int, b: int)
    requires 1 <= n && 1 <= b
    ensures CalcBucket(n) == b <==> 3 * (b - 1) <= n < 3 * b
  {
  }

  function Repeat(p: Post, n: nat): seq<Post>
  {
    if n == 0 then [] else Repeat(p, n - 1) + [p]
  }

  /** The posts of `r` (oldest first, the n-th being post number n) that land in bucket b, newest first. */
  function Bucket(r: seq<Post>, b: int): seq<Post>
    decreases |r|
  {
    if r == [] then []
    else (if CalcBucket(|r|) == b then [r[|r| - 1]] else []) + Bucket(r[..|r| - 1], b)
  }

  /** Buckets k down to 1, one after the other. */
  function Concat(r: seq<Post>, k: int): seq<Post>
    decreases k
  {
    if k <= 0 then [] else Bucket(r, k) + Concat(r, k - 1)
  }

  function Reverse<T>(s: seq<T>): seq<T>
  {
    if s == [] then [] else [s[|s| - 1]] + Reverse(s[..|s| - 1])
  }

  lemma ReversePush<T>(s: seq<T>, x: T)
    ensures Reverse(s + [x]) == [x] + Reverse(s)
  {
    assert (s + [x])[..|s|] == s;
  }

  lemma BucketPush(r: seq<Post>, p: Post, b: int)
    ensures Bucket(r + [p], b) == (if CalcBucket(|r| + 1) == b then [p] else []) + Bucket(r, b)
  {
    assert (r + [p])[..|r|] == r;
  }

  /** No post lands in a bucket above the one the current count maps to. */
  lemma {:induction false} BucketEmptyAbove(r: seq<Post>, b: int)
    requires b > CalcBucket(|r|)
    ensures Bucket(r, b) == []
    decreases |r|
  {
    if r != [] {
      CalcBucketStep(|r| - 1);
      BucketEmptyAbove(r[..|r| - 1], b);
    }
  }

  /** Every bucket from 1 to the current one holds a post, once there is any post at all. */
  lemma {:induction false} BucketNonEmpty(r: seq<Post>, b: int)
    requires |r| >= 1 && 1 <= b <= CalcBucket(|r|)
    ensures Bucket(r, b) != []
    decreases |r|
  {
    if CalcBucket(|r|) != b {
      CalcBucketStep(|r| - 1);
      assert |r| > 1;
      BucketNonEmpty(r[..|r| - 1], b);
    }
  }

  lemma {:induction false} ConcatBelow(r: seq<Post>, p: Post, k: int)
    requires k < CalcBucket(|r| + 1)
    ensures Concat(r + [p], k) == Concat(r, k)
    decreases k
  {
    if k > 0 {
      BucketPush(r, p, k);
      assert Bucket(r + [p], k) == Bucket(r, k);
      ConcatBelow(r, p, k - 1);
    }
  }

  lemma ConcatFront(r: seq<Post>, s: seq<Post>, p: Post, k: int)
    requires k >= 1
    requires Bucket(s, k) == [p] + Bucket(r, k) && Concat(s, k - 1) == Concat(r, k - 1)
    ensures Concat(s, k) == [p] + Concat(r, k)
  {
    var b, c := Bucket(r, k), Concat(r, k - 1);
    assert Concat(s, k) == ([p] + b) + c;
    assert Concat(r, k) == b + c;
    ConsAssoc(p, b, c);
  }

  lemma ConsAssoc(p: Post, x: seq<Post>, y: seq<Post>)
    ensures ([p] + x) + y == [p] + (x + y)
  {
  }

  /** Adding post number n puts it in front of the buckets read for n. */
  lemma ConcatPush(r: seq<Post>, p: Post)
    ensures Concat(r + [p], CalcBucket(|r| + 1)) == [p] + Concat(r, CalcBucket(|r| + 1))
  {
    var k := CalcBucket(|r| + 1);
    CalcBucketStep(|r|);
    BucketPush(r, p, k);
    ConcatBelow(r, p, k - 1);
    ConcatFront(r, r + [p], p, k);
  }

  /** `get_inbox_bucketing` returns every post the user received, newest first. */
  lemma {:induction false} InboxNewestFirst(r: seq<Post>)
    ensures Concat(r, CalcBucket(|r|)) == Reverse(r)
    decreases |r|
  {
    if r != [] {
      var r0, p := r[..|r| - 1], r[|r| - 1];
      assert r == r0 + [p];
      ConcatPush(r0, p);
      InboxNewestFirst(r0);
      ConcatTopUnchanged(r0, CalcBucket(|r0|), CalcBucket(|r0| + 1));
      ReversePush(r0, p);
    }
  }

  /** Reading from the bucket one more post would open reads nothing more than reading from the current one. */
  lemma ConcatTopUnchanged(r: seq<Post>, m: int, k: int)
    requires m == CalcBucket(|r|) && k == CalcBucket(|r| + 1)
    ensures Concat(r, k) == Concat(r, m)
  {
    CalcBucketStep(|r|);
    if m != k {
      BucketEmptyAbove(r, m + 1);
      ConcatEmptyTop(r, m);
    }
  }

  lemma ConcatEmptyTop(r: seq<Post>, m: int)
    requires m >= 0 && Bucket(r, m + 1) == []
    ensures Concat(r, m + 1) == Concat(r, m)
  {
    assert Concat(r, m + 1) == Bucket(r, m + 1) + Concat(r, m);
  }

  // ---------------------------------------------------------------------
  // Fan-out on write
  // ---------------------------------------------------------------------

  function StreamOf(streams: map<string, seq<Post>>, user: string): seq<Post>
  {
    if user in streams then streams[user] else []
  }

  /** One `list_insert` at index 0 per recipient, in order. */
  function FannedOut(streams: map<string, seq<Post>>, rs: seq<string>, p: Post): map<string, seq<Post>>
    decreases |rs|
  {
    if rs == [] then streams
    else FannedOut(streams[rs[0] := [p] + StreamOf(streams, rs[0])], rs[1..], p)
  }

  lemma CountFront(rs: seq<string>, u: string)
    requires rs != []
    ensures multiset(rs)[u] == multiset(rs[1..])[u] + (if rs[0] == u then 1 else 0)
  {
    assert rs == [rs[0]] + rs[1..];
  }

  /** Each recipient's stream gets the post at its head, once per time it is listed; other streams do not change. */
  lemma {:induction false} FanoutPrepends(streams: map<string, seq<Post>>, rs: seq<string>, p: Post, u: string)
    ensures StreamOf(FannedOut(streams, rs, p), u) == Repeat(p, multiset(rs)[u]) + StreamOf(streams, u)
    decreases |rs|
  {
    if rs != [] {
      var s1 := streams[rs[0] := [p] + StreamOf(streams, rs[0])];
      FanoutPrepends(s1, rs[1..], p, u);
      CountFront(rs, u);
      if rs[0] == u {
        var n, rest := multiset(rs[1..])[u], StreamOf(streams, u);
        assert StreamOf(s1, u) == [p] + rest;
        assert Repeat(p, n + 1) == Repeat(p, n) + [p];
        SnocAssoc(Repeat(p, n), p, rest);
      } else {
        assert StreamOf(s1, u) == StreamOf(streams, u);
      }
    }
  }

  lemma SnocAssoc(x: seq<Post>, p: Post, y: seq<Post>)
    ensures (x + [p]) + y == x + ([p] + y)
  {
  }

  /** A stream record exists afterwards exactly for the users who had one or were listed. */
  lemma {:induction false} FanoutKeys(streams: map<string, seq<Post>>, rs: seq<string>, p: Post, u: string)
    ensures u in FannedOut(streams, rs, p) <==> u in streams || u in rs
    decreases |rs|
  {
    if rs != [] {
      FanoutKeys(streams[rs[0] := [p] + StreamOf(streams, rs[0])], rs[1..], p, u);
      assert u in rs <==> u == rs[0] || u in rs[1..];
    }
  }

  // ---------------------------------------------------------------------
  // Bucketing: the state the store keeps
  // ---------------------------------------------------------------------

  function BucketOf(buckets: map<BucketKey, seq<Post>>, k: BucketKey): seq<Post>
  {
    if k in buckets then buckets[k] else []
  }

  /**
   * Each user's total counts the posts delivered to them, each bucket
   * holds exactly the posts of that number, newest first, and a bucket
   * record exists only once it holds a post.
   */
  ghost predicate Filed(users: map<string, UserRecord>, buckets: map<BucketKey, seq<Post>>, received: map<string, seq<Post>>)
  {
    && (forall u :: u in users <==> u in received)
    && (forall u :: u in users ==> users[u].total == |received[u]|)
    && (forall k :: k in buckets ==> k.user in received && buckets[k] != [])
    && (forall u, b :: u in received ==> BucketOf(buckets, BucketKey(u, b)) == Bucket(received[u], b))
  }

  lemma FiledBucket(users: map<string, UserRecord>, buckets: map<BucketKey, seq<Post>>, received: map<string, seq<Post>>,
                    u: string, b: int)
    requires Filed(users, buckets, received) && u in users
    ensures BucketOf(buckets, BucketKey(u, b)) == Bucket(received[u], b)
    ensures BucketKey(u, b) in buckets <==> Bucket(received[u], b) != []
    ensures users[u].total == |received[u]|
  {
  }

  function Delivered(users: map<string, UserRecord>, r: string): map<string, UserRecord>
    requires r in users
  {
    users[r := UserRecord(users[r].total + 1, users[r].gen + 1)]
  }

  function Filing(users: map<string, UserRecord>, r: string): BucketKey
    requires r in users
  {
    BucketKey(r, CalcBucket(users[r].total + 1))
  }

  /** Delivering one post to one recipient: bump the total, insert at the head of the bucket for the new count. */
  lemma DeliverOne(users: map<string, UserRecord>, buckets: map<BucketKey, seq<Post>>, received: map<string, seq<Post>>,
                   r: string, p: Post)
    requires Filed(users, buckets, received) && r in users
    ensures var k := Filing(users, r);
      Filed(Delivered(users, r), buckets[k := [p] + BucketOf(buckets, k)], received[r := received[r] + [p]])
  {
    var k := Filing(users, r);
    var users', buckets', received' := Delivered(users, r), buckets[k := [p] + BucketOf(buckets, k)], received[r := received[r] + [p]];
    forall u, b | u in received'
      ensures BucketOf(buckets', BucketKey(u, b)) == Bucket(received'[u], b)
    {
      if u == r {
        BucketPush(received[r], p, b);
      }
    }
  }

  /** What each user has received once `post` is delivered to each of `rs` in turn; a user without a record is skipped. */
  ghost function Tally(received: map<string, seq<Post>>, rs: seq<string>, post: Post): map<string, seq<Post>>
    decreases |rs|
  {
    if rs == [] then received
    else Tally(if rs[0] in received then received[rs[0] := received[rs[0]] + [post]] else received, rs[1..], post)
  }

  /** Every user gets one copy of the post, at the end, per time they are listed, and no user is added. */
  lemma {:induction false} TallyCounts(received: map<string, seq<Post>>, rs: seq<string>, post: Post, u: string)
    ensures u in Tally(received, rs, post) <==> u in received
    ensures u in received ==> Tally(received, rs, post)[u] == received[u] + Repeat(post, multiset(rs)[u])
    decreases |rs|
  {
    if rs != [] {
      var received1 := if rs[0] in received then received[rs[0] := received[rs[0]] + [post]] else received;
      TallyCounts(received1, rs[1..], post, u);
      CountFront(rs, u);
      if rs[0] == u && u in received {
        RepeatFront(post, multiset(rs[1..])[u]);
      }
    }
  }

  lemma {:induction false} RepeatFront(p: Post, n: nat)
    ensures [p] + Repeat(p, n) == Repeat(p, n + 1)
    decreases n
  {
    if n > 0 {
      RepeatFront(p, n - 1);
    }
  }

  /**
   * The loop of `post_msg_bucketing` over the recipients: for each, read
   * the user record (a missing one raises, after the deliveries already
   * made), increment the total under the generation just read, and insert
   * the post at the head of the bucket for the new total.
   */
  method DeliverAll(users0: map<string, UserRecord>, buckets0: map<BucketKey, seq<Post>>, ghost received0: map<string, seq<Post>>,
                    rs: seq<string>, post: Post)
    returns (outcome: Outcome, users: map<string, UserRecord>, buckets: map<BucketKey, seq<Post>>, ghost received: map<string, seq<Post>>)
    requires Filed(users0, buckets0, received0)
    ensures Filed(users, buckets, received)
    ensures users.Keys == users0.Keys
    ensures outcome == Done <==> forall r :: r in rs ==> r in users0
    ensures outcome == Done ==> received == Tally(received0, rs, post)
  {
    users, buckets, received := users0, buckets0, received0;
    var i := 0;
    while i < |rs|
      invariant 0 <= i <= |rs|
      invariant Filed(users, buckets, received)
      invariant forall u :: u in users <==> u in users0
      invariant forall j :: 0 <= j < i ==> rs[j] in users0
      invariant Tally(received, rs[i..], post) == Tally(received0, rs, post)
    {
      var r := rs[i];
      if r !in users {
        // client.get raises RecordNotFound
        return NotFound, users, buckets, received;
      }
      assert r in users0;
      DeliverOne(users, buckets, received, r, post);
      assert rs[i..][0] == r && rs[i..][1..] == rs[i + 1..];
      var k := Filing(users, r);
      // increment(key, "total", 1, meta, gen-equal): the generation just read matches
      users := Delivered(users, r);
      buckets := buckets[k := [post] + BucketOf(buckets, k)];
      received := received[r := received[r] + [post]];
      i := i + 1;
    }
    assert rs[|rs|..] == [];
    outcome := Done;
  }

  class ActivityStore {
    var streams: map<string, seq<Post>>          // msgs:<user> of fan-out on write
    var users: map<string, UserRecord>           // users:<user>
    var buckets: map<BucketKey, seq<Post>>       // msgs:<digest of the bucket key>
    ghost var received: map<string, seq<Post>>   // the posts delivered to each user, oldest first

    ghost predicate Valid()
      reads this
    {
      Filed(users, buckets, received)
    }

    constructor ()
      ensures streams == map[] && users == map[] && buckets == map[] && received == map[]
      ensures Valid()
    {
      streams, users, buckets := map[], map[], map[];
      received := map[];
    }

    /** `post_msg_fanout`: the sender joins the caller's list, then each listed user gets the post at the head of their stream. */
    method PostMsgFanout(sentBy: string, to: RecipientList, msg: string, now: int)
      modifies this, to
      ensures to.items == old(to.items) + [sentBy]
      ensures streams == FannedOut(old(streams), to.items, Post(msg, sentBy, now))
      ensures users == old(users) && buckets == old(buckets) && received == old(received)
    {
      to.items := to.items + [sentBy];
      var rs := to.items;
      var post := Post(msg, sentBy, now);
      ghost var s0 := streams;
      var i := 0;
      while i < |rs|
        invariant 0 <= i <= |rs|
        invariant FannedOut(streams, rs[i..], post) == FannedOut(s0, rs, post)
        invariant users == old(users) && buckets == old(buckets) && received == old(received)
        invariant to.items == rs
      {
        assert rs[i..][0] == rs[i] && rs[i..][1..] == rs[i + 1..];
        streams := streams[rs[i] := [post] + StreamOf(streams, rs[i])];
        i := i + 1;
      }
      assert rs[|rs|..] == [];
    }

    /** `get_inbox_fanout`: the user's stream; a user without a record is NotFound. */
    method GetInboxFanout(user: string) returns (outcome: Outcome, messages: seq<Post>)
      ensures user in streams ==> outcome == Done && messages == streams[user]
      ensures user !in streams ==> outcome == NotFound && messages == []
    {
      if user !in streams {
        return NotFound, [];
      }
      return Done, streams[user];
    }

    /** `create_user`: a put of total 0 (which resets the count of an existing user). */
    method CreateUser(user: string)
      modifies this
      ensures users == old(users)[user := UserRecord(0, if user in old(users) then old(users)[user].gen + 1 else 1)]
      ensures user !in old(users) && old(Valid()) ==> Valid() && received == old(received)[user := []]
      ensures streams == old(streams) && buckets == old(buckets)
    {
      users := users[user := UserRecord(0, if user in users then users[user].gen + 1 else 1)];
      if user !in received {
        received := received[user := []];
        assert forall b :: Bucket([], b) == [];
      }
    }

    /**
     * `post_msg_bucketing`: the sender joins the caller's list; for each
     * listed user, read the record (NotFound stops the loop, after the
     * deliveries already made), increment the total under the generation
     * just read, and insert the post at the head of the bucket for the
     * new total.
     */
    method PostMsgBucketing(sentBy: string, to: RecipientList, msg: string, now: int) returns (outcome: Outcome)
      requires Valid()
      modifies this, to
      ensures Valid()
      ensures to.items == old(to.items) + [sentBy]
      ensures outcome == Done <==> forall r :: r in to.items ==> r in old(users)
      ensures users.Keys == old(users).Keys
      ensures outcome == Done ==> received == Tally(old(received), to.items, Post(msg, sentBy, now))
      ensures streams == old(streams)
    {
      to.items := to.items + [sentBy];
      outcome, users, buckets, received := DeliverAll(users, buckets, received, to.items, Post(msg, sentBy, now));
    }

    /**
     * `get_inbox_bucketing`, as written: reads buckets calc_bucket(total)
     * down to 1. A user who has received nothing still has bucket 1 read,
     * and that record was never written, so the read raises.
     */
    method GetInboxBucketingAsWritten(user: string) returns (outcome: Outcome, messages: seq<Post>)
      requires Valid()
      ensures outcome == Done <==> user in users && users[user].total >= 1
      ensures outcome == Done ==> messages == Reverse(received[user])
    {
      if user !in users {
        return NotFound, [];
      }
      ghost var r := received[user];
      var top := Filed1(user);
      outcome, messages := ReadBucketsAsWritten(buckets, user, top, r);
      if |r| >= 1 {
        forall b | 1 <= b <= top
          ensures BucketKey(user, b) in buckets
        {
          BucketNonEmpty(r, b);
        }
      } else {
        assert BucketKey(user, 1) !in buckets;
      }
      InboxNewestFirst(r);
    }

    /** `get_inbox_bucketing`, reading a bucket never written as an empty stream. */
    method GetInboxBucketing(user: string) returns (outcome: Outcome, messages: seq<Post>)
      requires Valid()
      ensures outcome == Done <==> user in users
      ensures outcome == Done ==> messages == Reverse(received[user])
    {
      if user !in users {
        return NotFound, [];
      }
      var top := Filed1(user);
      messages := ReadBuckets(buckets, user, top, received[user]);
      InboxNewestFirst(received[user]);
      outcome := Done;
    }

    /** The bucket the user's total maps to, with what the buckets up to it hold. */
    method Filed1(user: string) returns (top: int)
      requires Valid() && user in users
      ensures top == CalcBucket(|received[user]|) >= 1
      ensures forall b :: 1 <= b <= top ==>
        BucketOf(buckets, BucketKey(user, b)) == Bucket(received[user], b) &&
        (BucketKey(user, b) in buckets <==> Bucket(received[user], b) != [])
    {
      FiledBucket(users, buckets, received, user, 1);
      top := CalcBucket(users[user].total);
      forall b | 1 <= b <= top
        ensures BucketOf(buckets, BucketKey(user, b)) == Bucket(received[user], b)
        ensures BucketKey(user, b) in buckets <==> Bucket(received[user], b) != []
      {
        FiledBucket(users, buckets, received, user, b);
      }
    }
  }

  /** The loop of `get_inbox_bucketing`, as written: buckets top down to 1, raising at the first one never written. */
  method ReadBucketsAsWritten(buckets: map<BucketKey, seq<Post>>, user: string, top: int, ghost r: seq<Post>)
    returns (outcome: Outcome, messages: seq<Post>)
    requires top >= 0
    requires forall b :: 1 <= b <= top ==> BucketOf(buckets, BucketKey(user, b)) == Bucket(r, b)
    ensures outcome == Done <==> forall b :: 1 <= b <= top ==> BucketKey(user, b) in buckets
    ensures outcome == Done ==> messages == Concat(r, top)
  {
    var i := top;
    messages := [];
    while i > 0
      invariant 0 <= i <= top
      invariant messages + Concat(r, i) == Concat(r, top)
      invariant forall b :: i < b <= top ==> BucketKey(user, b) in buckets
    {
      var k := BucketKey(user, i);
      if k !in buckets {
        // client.get raises RecordNotFound
        return NotFound, [];
      }
      assert Concat(r, i) == buckets[k] + Concat(r, i - 1);
      messages := messages + buckets[k];
      i := i - 1;
    }
    outcome := Done;
  }

  /** The loop of `get_inbox_bucketing`, with a bucket never written read as empty. */
  method ReadBuckets(buckets: map<BucketKey, seq<Post>>, user: string, top: int, ghost r: seq<Post>)
    returns (messages: seq<Post>)
    requires top >= 0
    requires forall b :: 1 <= b <= top ==> BucketOf(buckets, BucketKey(user, b)) == Bucket(r, b)
    ensures messages == Concat(r, top)
  {
    var i := top;
    messages := [];
    while i > 0
      invariant 0 <= i <= top
      invariant messages + Concat(r, i) == Concat(r, top)
    {
      assert Concat(r, i) == BucketOf(buckets, BucketKey(user, i)) + Concat(r, i - 1);
      messages := messages + BucketOf(buckets, BucketKey(user, i));
      i := i - 1;
    }
  }

  // ---------------------------------------------------------------------
  // The script's runs
  // ---------------------------------------------------------------------

  /** Part two: Joe posts to Bob and Jane, then Jane posts to Bob; Jane's inbox holds both, newest first. */
  method FanoutRun(now: int) returns (inbox: seq<Post>)
    ensures inbox == [Post("My 1st message...", "Jane", now), Post("Silly message...", "Joe", now)]
  {
    var s := new ActivityStore();
    var to1 := new RecipientList(["Bob", "Jane"]);
    s.PostMsgFanout("Joe", to1, "Silly message...", now);
    FanoutPrepends(map[], ["Bob", "Jane", "Joe"], Post("Silly message...", "Joe", now), "Jane");
    assert multiset(["Bob", "Jane", "Joe"])["Jane"] == 1;
    var to2 := new RecipientList(["Bob"]);
    ghost var before := s.streams;
    s.PostMsgFanout("Jane", to2, "My 1st message...", now);
    FanoutPrepends(before, ["Bob", "Jane"], Post("My 1st message...", "Jane", now), "Jane");
    assert multiset(["Bob", "Jane"])["Jane"] == 1;
    var outcome;
    outcome, inbox := s.GetInboxFanout("Jane");
  }

  /** Reusing one recipient list: the sender is appended again, so the second post reaches them twice. */
  method ReusedListRun(now: int) returns (to: RecipientList)
    ensures to.items == ["Bob", "Joe", "Joe"]
  {
    var s := new ActivityStore();
    to := new RecipientList(["Bob"]);
    s.PostMsgFanout("Joe", to, "first", now);
    s.PostMsgFanout("Joe", to, "second", now);
  }

  /**
   * Part three: Joe posts to Bob and Jane, then Jane posts three times to
   * Joe. Jane has received four posts, in buckets 1 and 2, and her inbox
   * lists them newest first.
   */
  method BucketingRun(now: int) returns (inbox: seq<Post>)
    ensures inbox == [Post("My 3rd message...", "Jane", now), Post("My 2nd message...", "Jane", now),
                      Post("My 1st message...", "Jane", now), Post("Silly message...", "Joe", now)]
  {
    var s := JoePostsRun(now);
    var p1, p2, p3, p4 := Post("Silly message...", "Joe", now), Post("My 1st message...", "Jane", now),
                          Post("My 2nd message...", "Jane", now), Post("My 3rd message...", "Jane", now);
    PostToJoe(s, "My 1st message...", now);
    PostToJoe(s, "My 2nd message...", now);
    PostToJoe(s, "My 3rd message...", now);
    assert s.received["Jane"] == [p1, p2, p3, p4];
    var outcome;
    outcome, inbox := s.GetInboxBucketing("Jane");
    ReverseFour(p1, p2, p3, p4);
  }

  lemma ReverseFour(p1: Post, p2: Post, p3: Post, p4: Post)
    ensures Reverse([p1, p2, p3, p4]) == [p4, p3, p2, p1]
  {
    ReversePush([p1, p2, p3], p4);
    ReversePush([p1, p2], p3);
    ReversePush([p1], p2);
    assert [p1, p2, p3] + [p4] == [p1, p2, p3, p4] && [p1, p2] + [p3] == [p1, p2, p3] && [p1] + [p2] == [p1, p2];
  }

  /** Joe, Bob and Jane get user records, then Joe posts to Bob and Jane. */
  method JoePostsRun(now: int) returns (s: ActivityStore)
    ensures fresh(s) && s.Valid() && s.users.Keys == {"Joe", "Bob", "Jane"}
    ensures s.received["Jane"] == [Post("Silly message...", "Joe", now)]
  {
    s := CreateUsersRun();
    ghost var before := s.received;
    var to := new RecipientList(["Bob", "Jane"]);
    var o := s.PostMsgBucketing("Joe", to, "Silly message...", now);
    assert to.items == ["Bob", "Jane", "Joe"];
    assert multiset(to.items)["Jane"] == 1;
    TallyCounts(before, to.items, Post("Silly message...", "Joe", now), "Jane");
  }

  /** `create_user` for Joe, Bob and Jane. */
  method CreateUsersRun() returns (s: ActivityStore)
    ensures fresh(s) && s.Valid() && s.users.Keys == {"Joe", "Bob", "Jane"} && s.received["Jane"] == []
  {
    s := new ActivityStore();
    s.CreateUser("Joe");
    s.CreateUser("Bob");
    s.CreateUser("Jane");
  }

  /** Jane posts to Joe: the three users stay registered, and Jane has one more post. */
  method PostToJoe(s: ActivityStore, msg: string, now: int)
    requires s.Valid() && s.users.Keys == {"Joe", "Bob", "Jane"}
    modifies s
    ensures s.Valid() && s.users.Keys == {"Joe", "Bob", "Jane"}
    ensures s.received["Jane"] == old(s.received["Jane"]) + [Post(msg, "Jane", now)]
  {
    ghost var before := s.received;
    assert "Jane" in before && "Joe" in s.users;
    var to := new RecipientList(["Joe"]);
    var o := s.PostMsgBucketing("Jane", to, msg, now);
    assert to.items == ["Joe", "Jane"];
    assert multiset(to.items)["Jane"] == 1;
    TallyCounts(before, to.items, Post(msg, "Jane", now), "Jane");
  }

  /** A user who has received nothing: as written the inbox read raises, corrected it is empty. */
  method EmptyInboxRun() returns (asWritten: Outcome, corrected: Outcome, inbox: seq<Post>)
    ensures asWritten == NotFound && corrected == Done && inbox == []
  {
    var s := new ActivityStore();
    s.CreateUser("Bob");
    var m;
    asWritten, m := s.GetInboxBucketingAsWritten("Bob");
    corrected, inbox := s.GetInboxBucketing("Bob");
  }
}
