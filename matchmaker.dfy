/**
 * mm.server.game.Matchmaker: NUM_BUCKETS sets of usernames. Bucket b holds
 * the waiting players whose integer rank is MIN_RANK + b or MIN_RANK + b + 1,
 * so an inner rank sits in two adjacent buckets and an extreme rank in one.
 * The first bucket to reach LOBBY_SIZE names is drained: its names form a
 * lobby and leave matchmaking altogether.
 */
module Matchmaking {
  import opened Wrappers
  import opened Config
  import opened Validation

  /** Bucket b is one of those a player of this rank waits in. */
  predicate Covers(b: int, rank: int) {
    0 <= b < NUM_BUCKETS && MIN_RANK + b <= rank <= MIN_RANK + b + 1
  }

  /**
   * getAppropriateBucketIndices: the buckets covering the rank, lower
   * first; MIN_RANK is in bucket 0 only, MAX_RANK in the last bucket only.
   */
  function BucketIndices(rank: int): (bs: seq<int>)
    requires IsIntegerRank(rank)
    ensures 1 <= |bs| <= 2 && (|bs| == 2 ==> bs[0] + 1 == bs[1])
    ensures forall b :: b in bs <==> Covers(b, rank)
    ensures (rank == MIN_RANK || rank == MAX_RANK) <==> |bs| == 1
  {
    if rank == MIN_RANK then [0]
    else if rank == MAX_RANK then [NUM_BUCKETS - 1]
    else
      var i := rank - MIN_RANK;
      [i - 1, i]
  }

  /** A player waiting in bucket b waits only in b and its neighbours. */
  lemma CoveringBucketsAreAdjacent(b: int, rank: int, c: int)
    requires Covers(b, rank) && Covers(c, rank)
    ensures b - 1 <= c <= b + 1
  {
  }

  /** Every rank in range has a bucket. */
  lemma SomeBucketCovers(rank: int)
    requires IsIntegerRank(rank)
    ensures Covers(if rank == MAX_RANK then NUM_BUCKETS - 1 else rank - MIN_RANK, rank)
  {
  }

  /** All names in the buckets. */
  ghost function Names(buckets: seq<set<string>>): set<string> {
    set b, u | 0 <= b < |buckets| && u in buckets[b] :: u
  }

  /** Every name in a bucket is waiting, with a rank that bucket covers. */
  ghost predicate Sound(buckets: seq<set<string>>, waiting: map<string, int>) {
    forall b, u {:trigger u in buckets[b]} :: 0 <= b < |buckets| && u in buckets[b] ==> u in waiting && Covers(b, waiting[u])
  }

  /** Every waiting player outside the group g is in every bucket covering its rank. */
  ghost predicate CompleteBut(buckets: seq<set<string>>, waiting: map<string, int>, g: set<string>) {
    forall u, b {:trigger u in buckets[b]} :: u in waiting && u !in g && 0 <= b < |buckets| && Covers(b, waiting[u]) ==> u in buckets[b]
  }

  /** No bucket other than i is full. */
  ghost predicate SmallBut(buckets: seq<set<string>>, i: int) {
    forall b :: 0 <= b < |buckets| && b != i ==> |buckets[b]| < LOBBY_SIZE
  }

  ghost predicate WellFormed(waiting: map<string, int>) {
    forall u :: u in waiting ==> IsValidUsername(u) && IsIntegerRank(waiting[u])
  }

  /**
   * The matchmaker's invariant, with the waiting players and their ranks
   * made explicit: every waiting player is in exactly the buckets covering
   * its rank, nobody else is in a bucket, the counter is the number of
   * waiting players, and no bucket is full between calls.
   */
  ghost predicate Inv(buckets: seq<set<string>>, waiting: map<string, int>, count: int) {
    && |buckets| == NUM_BUCKETS
    && count == |waiting|
    && WellFormed(waiting)
    && Sound(buckets, waiting)
    && CompleteBut(buckets, waiting, {})
    && SmallBut(buckets, -1)
  }

  /** Under the invariant the names in the buckets are the waiting players. */
  lemma NamesAreWaiting(buckets: seq<set<string>>, waiting: map<string, int>, count: int)
    requires Inv(buckets, waiting, count)
    ensures Names(buckets) == waiting.Keys
  {
    forall u | u in waiting ensures u in Names(buckets) {
      var r := waiting[u];
      var b := if r == MAX_RANK then NUM_BUCKETS - 1 else r - MIN_RANK;
      SomeBucketCovers(r);
      assert u in buckets[b];
    }
  }

  /** The counter is the number of distinct usernames across all buckets. */
  lemma CountIsDistinctNames(buckets: seq<set<string>>, waiting: map<string, int>, count: int)
    requires Inv(buckets, waiting, count)
    ensures count == |Names(buckets)|
  {
    NamesAreWaiting(buckets, waiting, count);
    assert |waiting.Keys| == |waiting|;
  }

  /** The buckets with u added to each of the listed ones. */
  ghost function Insert(buckets: seq<set<string>>, bs: seq<int>, u: string): (r: seq<set<string>>)
    ensures |r| == |buckets|
  {
    seq(|buckets|, b requires 0 <= b < |buckets| => if b in bs then buckets[b] + {u} else buckets[b])
  }

  /** Bucket i cleared and the group g taken out of its two neighbours. */
  ghost function Drain(buckets: seq<set<string>>, i: int, g: set<string>): (r: seq<set<string>>)
    ensures |r| == |buckets|
  {
    seq(|buckets|, b requires 0 <= b < |buckets| =>
      if b == i then {} else if b == i - 1 || b == i + 1 then buckets[b] - g else buckets[b])
  }

  /** The buckets with u taken out of each of them. */
  ghost function Without(buckets: seq<set<string>>, u: string): (r: seq<set<string>>)
    ensures |r| == |buckets|
  {
    seq(|buckets|, b requires 0 <= b < |buckets| => buckets[b] - {u})
  }

  /** The first position k of bs whose bucket fills once u is added, if any. */
  ghost function Filling(buckets: seq<set<string>>, bs: seq<int>, k: nat): (f: Option<nat>)
    requires forall j :: 0 <= j < |bs| ==> 0 <= bs[j] < |buckets|
    requires k <= |bs|
    ensures f.Some? ==> k <= f.value < |bs| && |buckets[bs[f.value]]| + 1 == LOBBY_SIZE
    ensures f.Some? ==> forall j :: k <= j < f.value ==> |buckets[bs[j]]| + 1 != LOBBY_SIZE
    ensures f.None? ==> forall j :: k <= j < |bs| ==> |buckets[bs[j]]| + 1 != LOBBY_SIZE
    decreases |bs| - k
  {
    if k == |bs| then None
    else if |buckets[bs[k]]| + 1 == LOBBY_SIZE then Some(k)
    else Filling(buckets, bs, k + 1)
  }

  /**
   * Adding a new player keeps the invariant when no bucket fills: the
   * player is in exactly its buckets and the counter grew by one.
   */
  lemma InsertKeepsInv(buckets: seq<set<string>>, waiting: map<string, int>, count: int, u: string, rank: int)
    requires Inv(buckets, waiting, count) && IsValidUsername(u) && IsIntegerRank(rank) && u !in waiting
    requires forall b :: Covers(b, rank) ==> |buckets[b]| + 1 < LOBBY_SIZE
    ensures Inv(Insert(buckets, BucketIndices(rank), u), waiting[u := rank], count + 1)
  {
    var bs := BucketIndices(rank);
    var nb := Insert(buckets, bs, u);
    var nw := waiting[u := rank];
    forall b, v | 0 <= b < |nb| && v in nb[b] ensures v in nw && Covers(b, nw[v]) {
      if v != u {
        assert v in buckets[b];
      }
    }
    assert Sound(nb, nw);
    forall v, b | v in nw && 0 <= b < |nb| && Covers(b, nw[v]) ensures v in nb[b] {
      if v != u {
        assert v in buckets[b];
      }
    }
    assert CompleteBut(nb, nw, {});
    forall b | 0 <= b < |nb| ensures |nb[b]| < LOBBY_SIZE {
      if b in bs {
        assert |nb[b]| <= |buckets[b]| + 1;
      }
    }
  }

  /**
   * Draining bucket i, whose members all have ranks bucket i covers: they
   * were in no bucket but i and its neighbours, so afterwards they are in
   * none, and everybody else stays where they were.
   */
  lemma DrainGroup(bk: seq<set<string>>, w: map<string, int>, g: set<string>, i: int)
    requires Sound(bk, w) && CompleteBut(bk, w, g) && SmallBut(bk, i)
    requires forall v :: v in g ==> v in w && Covers(i, w[v])
    requires 0 <= i < |bk| && bk[i] <= g
    ensures Sound(Drain(bk, i, g), w - g)
    ensures CompleteBut(Drain(bk, i, g), w - g, {})
    ensures SmallBut(Drain(bk, i, g), -1)
    ensures forall b, v :: 0 <= b < |bk| && v in g ==> v !in Drain(bk, i, g)[b]
  {
    var nb := Drain(bk, i, g);
    forall b, v | 0 <= b < |nb| && v in nb[b] ensures v in w - g && Covers(b, (w - g)[v]) {
      assert v in bk[b];
      if v in g {
        CoveringBucketsAreAdjacent(i, w[v], b);
      }
    }
    forall v, b | v in w - g && 0 <= b < |nb| && Covers(b, (w - g)[v]) ensures v in nb[b] {
      assert v in bk[b];
    }
    forall b, v | 0 <= b < |bk| && v in g ensures v !in nb[b] {
      if v in bk[b] {
        CoveringBucketsAreAdjacent(i, w[v], b);
      }
    }
    forall b | 0 <= b < |nb| ensures |nb[b]| < LOBBY_SIZE {
      if b != i {
        assert nb[b] <= bk[b];
      }
    }
  }

  /** The buckets after u went into the first k + 1 of its buckets, the last of which filled. */
  lemma InsertPrefix(buckets: seq<set<string>>, waiting: map<string, int>, count: int, u: string, rank: int, k: nat)
    requires Inv(buckets, waiting, count) && IsValidUsername(u) && IsIntegerRank(rank) && u !in waiting
    requires k < |BucketIndices(rank)| && |buckets[BucketIndices(rank)[k]]| + 1 == LOBBY_SIZE
    requires forall j :: 0 <= j < k ==> |buckets[BucketIndices(rank)[j]]| + 1 < LOBBY_SIZE
    ensures var bs := BucketIndices(rank);
            var ins := Insert(buckets, bs[..k + 1], u);
            var g := buckets[bs[k]] + {u};
            && Sound(ins, waiting[u := rank]) && CompleteBut(ins, waiting[u := rank], g) && SmallBut(ins, bs[k])
            && (forall v :: v in g ==> v in waiting[u := rank] && Covers(bs[k], waiting[u := rank][v]))
  {
    var bs := BucketIndices(rank);
    var i := bs[k];
    var w := waiting[u := rank];
    var ins := Insert(buckets, bs[..k + 1], u);
    var g := buckets[i] + {u};
    forall b, v | 0 <= b < |ins| && v in ins[b] ensures v in w && Covers(b, w[v]) {
      if v == u && v !in buckets[b] {
        assert b in bs[..k + 1];
      }
    }
    forall v | v in g ensures v in w && Covers(i, w[v]) {
      if v != u {
        assert v in buckets[i];
      }
    }
    forall b | 0 <= b < |ins| && b != i ensures |ins[b]| < LOBBY_SIZE {
      if b in bs[..k + 1] {
        var j :| 0 <= j < k + 1 && bs[j] == b;
        assert j < k;
      }
    }
  }

  /**
   * Draining the bucket that filled keeps the invariant: its names leave
   * every bucket and the counter drops by LOBBY_SIZE.
   */
  lemma DrainKeepsInv(buckets: seq<set<string>>, waiting: map<string, int>, count: int, u: string, rank: int, k: nat)
    requires Inv(buckets, waiting, count) && IsValidUsername(u) && IsIntegerRank(rank) && u !in waiting
    requires k < |BucketIndices(rank)| && |buckets[BucketIndices(rank)[k]]| + 1 == LOBBY_SIZE
    requires forall j :: 0 <= j < k ==> |buckets[BucketIndices(rank)[j]]| + 1 < LOBBY_SIZE
    ensures var bs := BucketIndices(rank);
            var g := buckets[bs[k]] + {u};
            var nb := Drain(Insert(buckets, bs[..k + 1], u), bs[k], g);
            && |g| == LOBBY_SIZE && g <= waiting.Keys + {u}
            && Inv(nb, waiting[u := rank] - g, count + 1 - LOBBY_SIZE)
            && (forall b, v :: 0 <= b < |nb| && v in g ==> v !in nb[b])
  {
    var bs := BucketIndices(rank);
    var i := bs[k];
    var g := buckets[i] + {u};
    var w := waiting[u := rank];
    assert u !in buckets[i];
    InsertPrefix(buckets, waiting, count, u, rank, k);
    DrainGroup(Insert(buckets, bs[..k + 1], u), w, g, i);
    assert g <= w.Keys;
    assert |(w - g).Keys| == |w.Keys| - |g| by {
      assert (w - g).Keys == w.Keys - g;
    }
  }

  /** Taking a waiting player out of every bucket keeps the invariant, with the counter one less. */
  lemma RemoveKeepsInv(buckets: seq<set<string>>, waiting: map<string, int>, count: int, u: string)
    requires Inv(buckets, waiting, count) && u in waiting
    ensures Inv(Without(buckets, u), waiting - {u}, count - 1)
  {
    RemoveKeepsSound(buckets, waiting, u);
    RemoveKeepsComplete(buckets, waiting, u);
    RemoveKeepsSmall(buckets, u);
    MapMinusSize(waiting, {u});
  }

  lemma RemoveKeepsSound(buckets: seq<set<string>>, waiting: map<string, int>, u: string)
    requires Sound(buckets, waiting)
    ensures Sound(Without(buckets, u), waiting - {u})
  {
    var nb := Without(buckets, u);
    forall b, v | 0 <= b < |nb| && v in nb[b] ensures v in waiting - {u} && Covers(b, (waiting - {u})[v]) {
      assert v in buckets[b];
    }
  }

  lemma RemoveKeepsComplete(buckets: seq<set<string>>, waiting: map<string, int>, u: string)
    requires CompleteBut(buckets, waiting, {})
    ensures CompleteBut(Without(buckets, u), waiting - {u}, {})
  {
    var nb := Without(buckets, u);
    forall v, b | v in waiting - {u} && 0 <= b < |nb| && Covers(b, (waiting - {u})[v]) ensures v in nb[b] {
      assert v in buckets[b];
    }
  }

  lemma RemoveKeepsSmall(buckets: seq<set<string>>, u: string)
    requires SmallBut(buckets, -1)
    ensures SmallBut(Without(buckets, u), -1)
  {
    var nb := Without(buckets, u);
    forall b | 0 <= b < |nb| ensures |nb[b]| < LOBBY_SIZE {
      assert nb[b] <= buckets[b];
    }
  }

  /** Taking a set of present keys out of a map shrinks it by that many entries. */
  lemma MapMinusSize(w: map<string, int>, g: set<string>)
    requires g <= w.Keys
    ensures |w - g| == |w| - |g|
  {
    assert (w - g).Keys == w.Keys - g;
    assert |w.Keys - g| == |w.Keys| - |g|;
  }

  class Matchmaker {
    var buckets: seq<set<string>>
    var playerCount: int
    /** The waiting players and the rank each was added with. */
    ghost var waiting: map<string, int>

    ghost predicate Valid()
      reads this
    {
      Inv(buckets, waiting, playerCount)
    }

    /** NUM_BUCKETS empty buckets and a zero counter. */
    constructor ()
      ensures Valid() && waiting == map[] && playerCount == 0
      ensures buckets == seq(NUM_BUCKETS, _ => {})
    {
      var bs: seq<set<string>> := [];
      var i := 0;
      while i < NUM_BUCKETS
        invariant 0 <= i <= NUM_BUCKETS
        invariant bs == seq(i, _ => {})
      {
        bs := bs + [{}];
        i := i + 1;
      }
      buckets := bs;
      playerCount := 0;
      waiting := map[];
    }

    /** getPlayerCount. */
    function PlayerCount(): (n: int)
      reads this
      requires Valid()
      ensures n == |Names(buckets)|
    {
      CountIsDistinctNames(buckets, waiting, playerCount);
      playerCount
    }

    /**
     * addPlayer. An invalid username or rank throws IllegalArgumentException,
     * a player already waiting IllegalStateException, and neither changes
     * anything. Otherwise the player goes into its buckets in order; the
     * first bucket that fills ends the call: its LOBBY_SIZE names are
     * returned and leave matchmaking, and a later bucket of the player's is
     * never reached.
     *
     * A player already waiting has to be added with the rank it is waiting
     * with; the Java code assumes this of its callers without checking it.
     */
    method AddPlayer(username: string, rank: int) returns (r: Result<Option<set<string>>>)
      requires Valid()
      requires username in waiting ==> waiting[username] == rank
      modifies this
      ensures Valid()
      ensures !IsValidUsername(username) || !IsIntegerRank(rank) ==> r == Fail(IllegalArgument)
      ensures IsValidUsername(username) && IsIntegerRank(rank) && username in old(waiting) ==> r == Fail(IllegalState)
      ensures r.Fail? ==> buckets == old(buckets) && waiting == old(waiting) && playerCount == old(playerCount)
      ensures r.Ok? <==> IsValidUsername(username) && IsIntegerRank(rank) && username !in old(waiting)
      ensures r.Ok? ==> (r.value.None? <==> Filling(old(buckets), BucketIndices(rank), 0).None?)
      ensures r == Ok(None) ==>
        && buckets == Insert(old(buckets), BucketIndices(rank), username)
        && waiting == old(waiting)[username := rank]
        && playerCount == old(playerCount) + 1
      ensures r.Ok? && r.value.Some? ==> Added(old(buckets), old(waiting), old(playerCount), username, rank, r.value.value)
      ensures r.Ok? && r.value.Some? ==>
        waiting == old(waiting)[username := rank] - r.value.value && playerCount == old(playerCount) + 1 - LOBBY_SIZE
    {
      var vu := ValidateUsername(username);
      if vu.Fail? {
        return Fail(vu.exc);
      }
      var vr := ValidateIntegerRank(rank);
      if vr.Fail? {
        return Fail(vr.exc);
      }
      var bs := BucketIndices(rank);
      var j := 0;
      while j < |bs|
        invariant 0 <= j <= |bs|
        invariant !InSome(buckets, bs[..j], username)
        invariant buckets == old(buckets) && waiting == old(waiting) && playerCount == old(playerCount)
      {
        RemoveStep(buckets, bs, j, username);
        if username in buckets[bs[j]] {
          RemoveFromBuckets(buckets, waiting, playerCount, username, rank);
          InSomePrefix(buckets, bs, j + 1, username);
          return Fail(IllegalState);
        }
        j := j + 1;
      }
      assert bs[..j] == bs;
      RemoveFromBuckets(buckets, waiting, playerCount, username, rank);
      playerCount := playerCount + 1;
      var g := FillBuckets(username, rank);
      r := Ok(g);
    }

    /**
     * The second loop of addPlayer, after the counter went up: the player
     * goes into its buckets in order until one of them fills.
     */
    method FillBuckets(username: string, rank: int) returns (g: Option<set<string>>)
      requires Inv(buckets, waiting, playerCount - 1)
      requires IsValidUsername(username) && IsIntegerRank(rank) && username !in waiting
      modifies this
      ensures Valid()
      ensures g.None? <==> Filling(old(buckets), BucketIndices(rank), 0).None?
      ensures g.None? ==>
        && buckets == Insert(old(buckets), BucketIndices(rank), username)
        && waiting == old(waiting)[username := rank]
        && playerCount == old(playerCount)
      ensures g.Some? ==> Added(old(buckets), old(waiting), old(playerCount) - 1, username, rank, g.value)
      ensures g.Some? ==> waiting == old(waiting)[username := rank] - g.value && playerCount == old(playerCount) - LOBBY_SIZE
    {
      var bs := BucketIndices(rank);
      ghost var b0, w0, c0 := buckets, waiting, playerCount - 1;
      var j := 0;
      while j < |bs|
        invariant 0 <= j <= |bs|
        invariant buckets == Insert(b0, bs[..j], username)
        invariant forall l :: 0 <= l < j ==> |b0[bs[l]]| + 1 < LOBBY_SIZE
        invariant Filling(b0, bs, 0) == Filling(b0, bs, j)
        invariant playerCount == c0 + 1 && waiting == w0
        invariant Inv(b0, w0, c0) && b0 == old(buckets) && w0 == old(waiting) && c0 == old(playerCount) - 1
      {
        var i := bs[j];
        InsertStep(b0, bs, j, username);
        NewInBucket(b0, w0, c0, username, i);
        buckets := buckets[i := buckets[i] + {username}];
        if |buckets[i]| == LOBBY_SIZE {
          var usernames := DrainFilled(username, rank, j, b0);
          return Some(usernames);
        }
        j := j + 1;
      }
      NoneFills(b0, w0, c0, username, rank);
      waiting := w0[username := rank];
      g := None;
    }

    /**
     * The branch of addPlayer's second loop where bs[j], the first of the
     * player's buckets to fill, has just received the player: the bucket
     * is drained and its names leave the waiting players.
     */
    method DrainFilled(username: string, rank: int, j: nat, ghost b0: seq<set<string>>) returns (g: set<string>)
      requires Inv(b0, waiting, playerCount - 1) && IsValidUsername(username) && IsIntegerRank(rank)
      requires username !in waiting && j < |BucketIndices(rank)|
      requires Filling(b0, BucketIndices(rank), 0) == Filling(b0, BucketIndices(rank), j)
      requires buckets == Insert(b0, BucketIndices(rank)[..j + 1], username)
      requires |buckets[BucketIndices(rank)[j]]| == LOBBY_SIZE
      modifies this
      ensures Valid()
      ensures Filling(b0, BucketIndices(rank), 0).Some?
      ensures Added(b0, old(waiting), old(playerCount) - 1, username, rank, g)
      ensures waiting == old(waiting)[username := rank] - g && playerCount == old(playerCount) - LOBBY_SIZE
    {
      var bs := BucketIndices(rank);
      var i := bs[j];
      ghost var w0, c0, ins := waiting, playerCount - 1, buckets;
      assert i in bs[..j + 1];
      NewInBucket(b0, w0, c0, username, i);
      FilledAdds(b0, w0, c0, username, rank, j);
      g := DrainBucket(i);
      assert g == b0[i] + {username};
      waiting := w0[username := rank] - g;
      assert buckets == Drain(Insert(b0, bs[..j + 1], username), i, g);
      assert playerCount == c0 + 1 - LOBBY_SIZE;
    }

    /**
     * The full bucket i of addPlayer: its names leave both neighbours, a
     * copy of it is taken, it is cleared and the counter drops by
     * LOBBY_SIZE.
     */
    method DrainBucket(i: int) returns (usernames: set<string>)
      requires 0 <= i < |buckets| == NUM_BUCKETS
      modifies this
      ensures usernames == old(buckets)[i]
      ensures buckets == Drain(old(buckets), i, usernames)
      ensures playerCount == old(playerCount) - LOBBY_SIZE && waiting == old(waiting)
    {
      ghost var ins := buckets;
      var bucket := buckets[i];
      if i - 1 >= 0 {
        buckets := buckets[i - 1 := buckets[i - 1] - bucket];
      }
      if i + 1 < NUM_BUCKETS {
        buckets := buckets[i + 1 := buckets[i + 1] - bucket];
      }
      usernames := bucket;
      buckets := buckets[i := {}];
      DrainIsUpdates(ins, i, bucket);
      playerCount := playerCount - LOBBY_SIZE;
    }

    /**
     * removePlayer: an invalid username or rank throws
     * IllegalArgumentException; a player in none of its buckets
     * IllegalStateException. Otherwise the name leaves its buckets and the
     * counter drops by one.
     */
    method RemovePlayer(username: string, rank: int) returns (o: Outcome)
      requires Valid()
      requires username in waiting ==> waiting[username] == rank
      modifies this
      ensures Valid()
      ensures !IsValidUsername(username) || !IsIntegerRank(rank) ==> o == Throw(IllegalArgument)
      ensures IsValidUsername(username) && IsIntegerRank(rank) ==> (o == Pass <==> username in old(waiting))
      ensures IsValidUsername(username) && IsIntegerRank(rank) && o.Throw? ==> o == Throw(IllegalState)
      ensures o.Throw? ==> buckets == old(buckets) && waiting == old(waiting) && playerCount == old(playerCount)
      ensures o == Pass ==>
        && buckets == Without(old(buckets), username)
        && waiting == old(waiting) - {username}
        && playerCount == old(playerCount) - 1
    {
      var vu := ValidateUsername(username);
      if vu.Fail? {
        return Throw(vu.exc);
      }
      var vr := ValidateIntegerRank(rank);
      if vr.Fail? {
        return Throw(vr.exc);
      }
      var bs := BucketIndices(rank);
      ghost var b0, w0, c0 := buckets, waiting, playerCount;
      var removedPlayers := false;
      var j := 0;
      while j < |bs|
        invariant 0 <= j <= |bs|
        invariant buckets == Remove(b0, bs[..j], username)
        invariant removedPlayers <==> InSome(b0, bs[..j], username)
        invariant waiting == w0 && playerCount == c0
        invariant Inv(b0, w0, c0) && b0 == old(buckets) && w0 == old(waiting) && c0 == old(playerCount)
      {
        var i := bs[j];
        RemoveStep(b0, bs, j, username);
        var removed := username in buckets[i];
        buckets := buckets[i := buckets[i] - {username}];
        removedPlayers := removedPlayers || removed;
        j := j + 1;
      }
      assert bs[..j] == bs;
      RemoveFromBuckets(b0, w0, c0, username, rank);
      if !removedPlayers {
        return Throw(IllegalState);
      }
      RemoveKeepsInv(b0, w0, c0, username);
      playerCount := playerCount - 1;
      waiting := waiting - {username};
      o := Pass;
    }
  }

  /** The buckets with u taken out of each of the listed ones. */
  ghost function Remove(buckets: seq<set<string>>, bs: seq<int>, u: string): (r: seq<set<string>>)
    ensures |r| == |buckets|
  {
    seq(|buckets|, b requires 0 <= b < |buckets| => if b in bs then buckets[b] - {u} else buckets[b])
  }

  /** u is in one of the listed buckets. */
  ghost predicate InSome(buckets: seq<set<string>>, bs: seq<int>, u: string) {
    exists j :: 0 <= j < |bs| && 0 <= bs[j] < |buckets| && u in buckets[bs[j]]
  }

  /** The loop of removePlayer, one bucket further. */
  lemma RemoveStep(b0: seq<set<string>>, bs: seq<int>, j: nat, u: string)
    requires j < |bs| && 0 <= bs[j] < |b0| && (j == 1 ==> bs[0] != bs[1]) && |bs| <= 2
    ensures Remove(b0, bs[..j], u)[bs[j] := Remove(b0, bs[..j], u)[bs[j]] - {u}] == Remove(b0, bs[..j + 1], u)
    ensures Remove(b0, bs[..j], u)[bs[j]] == b0[bs[j]]
    ensures InSome(b0, bs[..j + 1], u) <==> InSome(b0, bs[..j], u) || u in b0[bs[j]]
  {
    assert bs[j] !in bs[..j];
    assert bs[..j + 1] == bs[..j] + [bs[j]];
    if InSome(b0, bs[..j + 1], u) && !(u in b0[bs[j]]) {
      var l :| 0 <= l < j + 1 && u in b0[bs[..j + 1][l]];
      assert l < j && bs[..j][l] == bs[..j + 1][l];
    }
    if InSome(b0, bs[..j], u) {
      var l :| 0 <= l < j && u in b0[bs[..j][l]];
      assert bs[..j + 1][l] == bs[..j][l];
    }
  }

  /**
   * Under the invariant, taking u out of the buckets of its rank takes it
   * out of every bucket, and u was in one of them iff it was waiting.
   */
  lemma RemoveFromBuckets(buckets: seq<set<string>>, waiting: map<string, int>, count: int, u: string, rank: int)
    requires Inv(buckets, waiting, count) && IsIntegerRank(rank)
    requires u in waiting ==> waiting[u] == rank
    ensures InSome(buckets, BucketIndices(rank), u) <==> u in waiting
    ensures u in waiting ==> Remove(buckets, BucketIndices(rank), u) == Without(buckets, u)
    ensures u !in waiting ==> Remove(buckets, BucketIndices(rank), u) == buckets
  {
    var bs := BucketIndices(rank);
    if u in waiting {
      assert u in buckets[bs[0]];
      forall b | 0 <= b < |buckets| ensures Remove(buckets, bs, u)[b] == Without(buckets, u)[b] {
        if u in buckets[b] {
          assert b in bs;
        }
      }
    } else {
      assert !InSome(buckets, bs, u);
      forall b | 0 <= b < |buckets| ensures Remove(buckets, bs, u)[b] == buckets[b] {
      }
    }
  }

  /**
   * A successful addPlayer that formed a group g: the first of the
   * player's buckets that fills is the one drained, g is its LOBBY_SIZE
   * names (the player among them), g's names leave every bucket and the
   * counter, and nobody else moves.
   */
  ghost predicate Added(buckets: seq<set<string>>, waiting: map<string, int>, count: int,
                        u: string, rank: int, g: set<string>)
  {
    && IsIntegerRank(rank) && |buckets| == NUM_BUCKETS
    && var bs := BucketIndices(rank);
    var f := Filling(buckets, bs, 0);
    && f.Some?
    && g == buckets[bs[f.value]] + {u} && u in g && |g| == LOBBY_SIZE && g <= waiting.Keys + {u}
    && var nb := Drain(Insert(buckets, bs[..f.value + 1], u), bs[f.value], g);
    && Inv(nb, waiting[u := rank] - g, count + 1 - LOBBY_SIZE)
    && (forall b, v :: 0 <= b < |nb| && v in g ==> v !in nb[b])
  }

  /**
   * The first of the player's buckets to fill is bs[j]: the group is that
   * bucket and the player, and draining it leaves the invariant intact.
   */
  lemma FilledAdds(b0: seq<set<string>>, waiting: map<string, int>, count: int, u: string, rank: int, j: nat)
    requires Inv(b0, waiting, count) && IsValidUsername(u) && IsIntegerRank(rank) && u !in waiting
    requires j < |BucketIndices(rank)| && |b0[BucketIndices(rank)[j]]| + 1 == LOBBY_SIZE
    requires Filling(b0, BucketIndices(rank), 0) == Filling(b0, BucketIndices(rank), j)
    ensures Filling(b0, BucketIndices(rank), 0) == Some(j)
    ensures Added(b0, waiting, count, u, rank, b0[BucketIndices(rank)[j]] + {u})
    ensures var bs := BucketIndices(rank);
      var g := b0[bs[j]] + {u};
      Inv(Drain(Insert(b0, bs[..j + 1], u), bs[j], g), waiting[u := rank] - g, count + 1 - LOBBY_SIZE)
  {
    var bs := BucketIndices(rank);
    forall l | 0 <= l < j ensures |b0[bs[l]]| + 1 < LOBBY_SIZE {
      assert |b0[bs[l]]| < LOBBY_SIZE;
    }
    DrainKeepsInv(b0, waiting, count, u, rank, j);
  }

  /** None of the player's buckets fills: the player is simply added. */
  lemma NoneFills(b0: seq<set<string>>, waiting: map<string, int>, count: int, u: string, rank: int)
    requires Inv(b0, waiting, count) && IsValidUsername(u) && IsIntegerRank(rank) && u !in waiting
    requires var bs := BucketIndices(rank); forall l :: 0 <= l < |bs| ==> |b0[bs[l]]| + 1 < LOBBY_SIZE
    ensures BucketIndices(rank)[..|BucketIndices(rank)|] == BucketIndices(rank)
    ensures Filling(b0, BucketIndices(rank), 0).None?
    ensures Inv(Insert(b0, BucketIndices(rank), u), waiting[u := rank], count + 1)
  {
    var bs := BucketIndices(rank);
    assert bs[..|bs|] == bs;
    forall b | Covers(b, rank) ensures |b0[b]| + 1 < LOBBY_SIZE {
      assert b in bs;
    }
    InsertKeepsInv(b0, waiting, count, u, rank);
  }

  /** A player who is not waiting is in no bucket, and no bucket is full. */
  lemma NewInBucket(b0: seq<set<string>>, waiting: map<string, int>, count: int, u: string, i: int)
    requires Inv(b0, waiting, count) && u !in waiting && 0 <= i < |b0|
    ensures u !in b0[i] && |b0[i] + {u}| == |b0[i]| + 1 && |b0[i]| < LOBBY_SIZE
  {
  }

  /** A bucket within the first j of bs is one of bs. */
  lemma InSomePrefix(buckets: seq<set<string>>, bs: seq<int>, j: nat, u: string)
    requires j <= |bs| && InSome(buckets, bs[..j], u)
    ensures InSome(buckets, bs, u)
  {
    var l :| 0 <= l < j && 0 <= bs[..j][l] < |buckets| && u in buckets[bs[..j][l]];
    assert bs[l] == bs[..j][l];
  }

  /** The drain of addPlayer, written as the three updates it makes. */
  lemma DrainIsUpdates(ins: seq<set<string>>, i: int, g: set<string>)
    requires 0 <= i < |ins| == NUM_BUCKETS
    ensures var d1 := if i - 1 >= 0 then ins[i - 1 := ins[i - 1] - g] else ins;
            var d2 := if i + 1 < NUM_BUCKETS then d1[i + 1 := d1[i + 1] - g] else d1;
            d2[i := {}] == Drain(ins, i, g)
  {
  }

  /** The loop of addPlayer, one bucket further. */
  lemma InsertStep(b0: seq<set<string>>, bs: seq<int>, j: nat, u: string)
    requires j < |bs| && 0 <= bs[j] < |b0| && (j == 1 ==> bs[0] != bs[1]) && |bs| <= 2
    ensures Insert(b0, bs[..j], u)[bs[j] := Insert(b0, bs[..j], u)[bs[j]] + {u}] == Insert(b0, bs[..j + 1], u)
    ensures Insert(b0, bs[..j], u)[bs[j]] == b0[bs[j]]
  {
    assert bs[j] !in bs[..j];
  }
}
