/**
 The sharded mempool of bins/ego-node/src/mempool.rs: heaps with lazy deletion, one per shard,
 a nonce index and a counter, proved to be one map from hash to transaction. The assignment of
 hashes to shards is a parameter, and a hash is taken to determine its transaction.
 */
module Mempool {
  import opened Common

  const SHARD_COUNT: nat := 64
  const MAX_TOTAL: nat := 50_000
  const MAX_TX_AGE_SECS := 3_600
  const BASE_FEE_PER_RU := 10

  type Hash = nat
  type Key = (nat, U64)

  datatype Tx = Tx(hash: Hash, from: nat, nonce: U64, ruLimit: U64, burnCredits: U64, priority: nat, millis: U64)

  function KeyOf(tx: Tx): Key {
    (tx.from, tx.nonce)
  }

  function EffectiveFee(tx: Tx): nat {
    Max(0, tx.ruLimit * BASE_FEE_PER_RU - tx.burnCredits) + tx.priority
  }

  function Secs(tx: Tx): nat {
    tx.millis / 1000
  }

  /** Higher fee first; on ties the older transaction. */
  predicate Above(a: Tx, b: Tx) {
    EffectiveFee(a) > EffectiveFee(b) || (EffectiveFee(a) == EffectiveFee(b) && Secs(a) < Secs(b))
  }

  predicate OutOfDate(tx: Tx, now: nat) {
    var age: int := now - Secs(tx);
    age > MAX_TX_AGE_SECS || age < -30
  }

  // ----- the pool as one map

  type Pool = map<Hash, Tx>

  /** Another live transaction has the same sender and nonce. */
  predicate Conflicts(pool: Pool, tx: Tx) {
    exists h :: h in pool && h != tx.hash && KeyOf(pool[h]) == KeyOf(tx)
  }

  datatype Refusal = Expired | NonceConflict | Full | Duplicate

  function Verdict(pool: Pool, tx: Tx, now: nat): Result<(), Refusal> {
    if OutOfDate(tx, now) then Err(Refusal.Expired)
    else if Conflicts(pool, tx) then Err(NonceConflict)
    else if |pool| >= MAX_TOTAL then Err(Full)
    else if tx.hash in pool then Err(Duplicate)
    else Ok(())
  }

  function Hashes(list: seq<Tx>): set<Hash> {
    set tx | tx in list :: tx.hash
  }

  predicate DistinctHashes(list: seq<Tx>) {
    forall j, k :: 0 <= j < k < |list| ==> list[j].hash != list[k].hash
  }

  // ----- a shard

  /** The heap may hold entries whose hash is no longer live. */
  datatype Shard = Shard(heap: multiset<Tx>, live: set<Hash>)

  type Bodies = Hash -> Tx

  predicate Genuine(body: Bodies, tx: Tx) {
    body(tx.hash) == tx
  }

  ghost predicate ShardOk(body: Bodies, s: Shard) {
    && (forall tx :: tx in s.heap ==> Genuine(body, tx))
    && (forall h :: h in s.live ==> body(h).hash == h && body(h) in s.heap)
  }

  predicate IsBest(heap: multiset<Tx>, tx: Tx) {
    tx in heap && forall y :: y in heap ==> !Above(y, tx)
  }

  lemma {:induction false} BestExists(heap: multiset<Tx>) returns (best: Tx)
    requires heap != multiset{}
    ensures IsBest(heap, best)
    decreases |heap|
  {
    var x :| x in heap;
    var rest := heap - multiset{x};
    best := x;
    if rest != multiset{} {
      var y := BestExists(rest);
      best := if Above(x, y) then x else y;
    }
    forall z | z in heap ensures !Above(z, best) {
      assert z == x || z in rest;
    }
  }

  function Push(s: Shard, tx: Tx): Shard {
    Shard(s.heap + multiset{tx}, s.live + {tx.hash})
  }

  /** Popping the best entry leaves a shard in order, whether or not the entry was live. */
  lemma PoppedOk(body: Bodies, s: Shard, entry: Tx)
    requires ShardOk(body, s) && IsBest(s.heap, entry)
    ensures |s.heap - multiset{entry}| < |s.heap|
    ensures Genuine(body, entry) && forall h :: h in s.live ==> !Above(body(h), entry)
    ensures ShardOk(body, Shard(s.heap - multiset{entry}, s.live - {entry.hash}))
  {
    var rest := s.heap - multiset{entry};
    assert s.heap == rest + multiset{entry};
    forall h | h in s.live && h != entry.hash ensures body(h).hash == h && body(h) in rest {
      assert body(h) in s.heap;
    }
    assert forall tx :: tx in rest ==> tx in s.heap;
  }

  /** The live transaction that ranks highest is gone; None if nothing was live. */
  ghost predicate Popped(body: Bodies, s: Shard, t: Shard, best: Option<Tx>) {
    ShardOk(body, t) &&
    match best
    case None => s.live == t.live == {}
    case Some(tx) =>
      && Genuine(body, tx) && tx.hash in s.live && t.live == s.live - {tx.hash}
      && forall h :: h in s.live ==> !Above(body(h), tx)
  }

  /** Pops until a live entry comes up. */
  method PopBest(ghost body: Bodies, s: Shard) returns (best: Option<Tx>, t: Shard)
    requires ShardOk(body, s)
    ensures Popped(body, s, t, best)
  {
    t := s;
    while t.heap != multiset{}
      invariant ShardOk(body, t) && t.live == s.live
      decreases |t.heap|
    {
      ghost var top := BestExists(t.heap);
      var entry :| IsBest(t.heap, entry);
      PoppedOk(body, t, entry);
      var wasLive := entry.hash in t.live;
      assert !wasLive ==> t.live - {entry.hash} == t.live;
      t := Shard(t.heap - multiset{entry}, t.live - {entry.hash});
      if wasLive {
        return Some(entry), t;
      }
    }
    return None, t;
  }

  // ----- the pool

  ghost predicate ShardsOk(shardOf: Hash -> nat, body: Bodies, shards: seq<Shard>, pool: Pool) {
    && |shards| == SHARD_COUNT
    && (forall i :: 0 <= i < |shards| ==> ShardOk(body, shards[i]))
    && (forall i, h :: 0 <= i < |shards| ==> (h in shards[i].live <==> h in pool && shardOf(h) == i))
    && (forall h :: h in pool ==> shardOf(h) < SHARD_COUNT && pool[h] == body(h) && body(h).hash == h)
  }

  /** The nonce index and the pool are the same pairs seen from both sides. */
  ghost predicate IndexOk(index: map<Key, Hash>, pool: Pool) {
    && (forall h :: h in pool ==> KeyOf(pool[h]) in index && index[KeyOf(pool[h])] == h)
    && (forall k :: k in index ==> index[k] in pool && KeyOf(pool[index[k]]) == k)
  }

  /** Shards, counter and nonce index all stand for the same map. */
  ghost predicate Agree(
    shardOf: Hash -> nat, body: Bodies, shards: seq<Shard>, total: nat, index: map<Key, Hash>, pool: Pool)
  {
    ShardsOk(shardOf, body, shards, pool) && IndexOk(index, pool) && total == |pool| <= MAX_TOTAL
  }

  lemma ShardGains(shardOf: Hash -> nat, body: Bodies, shards: seq<Shard>, pool: Pool, tx: Tx)
    requires ShardsOk(shardOf, body, shards, pool) && Genuine(body, tx) && shardOf(tx.hash) < SHARD_COUNT
    ensures ShardsOk(shardOf, body, shards[shardOf(tx.hash) := Push(shards[shardOf(tx.hash)], tx)], pool[tx.hash := tx])
  {
    var i := shardOf(tx.hash);
    var after := shards[i := Push(shards[i], tx)];
    forall j | 0 <= j < |after|
      ensures ShardOk(body, after[j]) && forall h :: h in after[j].live <==> h in pool[tx.hash := tx] && shardOf(h) == j
    {
      OneShardGains(shardOf, body, shards, pool, tx, j);
    }
  }

  lemma OneShardGains(shardOf: Hash -> nat, body: Bodies, shards: seq<Shard>, pool: Pool, tx: Tx, j: nat)
    requires ShardsOk(shardOf, body, shards, pool) && Genuine(body, tx)
    requires shardOf(tx.hash) < SHARD_COUNT && j < |shards|
    ensures var s := if j == shardOf(tx.hash) then Push(shards[j], tx) else shards[j];
            ShardOk(body, s) && forall h :: h in s.live <==> h in pool[tx.hash := tx] && shardOf(h) == j
  {
    PushedOk(body, shards[j], tx);
  }

  lemma PushedOk(body: Bodies, s: Shard, tx: Tx)
    requires ShardOk(body, s) && Genuine(body, tx)
    ensures ShardOk(body, Push(s, tx)) && Push(s, tx).live == s.live + {tx.hash}
  {
  }

  lemma ShardLoses(shardOf: Hash -> nat, body: Bodies, shards: seq<Shard>, pool: Pool, i: nat, s: Shard, h: Hash)
    requires ShardsOk(shardOf, body, shards, pool) && i < |shards| && h in pool && shardOf(h) == i
    requires ShardOk(body, s) && s.live == shards[i].live - {h}
    ensures ShardsOk(shardOf, body, shards[i := s], pool - {h})
  {
  }

  lemma IndexLoses(index: map<Key, Hash>, pool: Pool, h: Hash)
    requires IndexOk(index, pool) && h in pool
    ensures IndexOk(index - {KeyOf(pool[h])}, pool - {h})
  {
  }

  function Swept(index: map<Key, Hash>, h: Hash): map<Key, Hash> {
    map k | k in index && index[k] != h :: index[k]
  }

  lemma SweepIsDelete(index: map<Key, Hash>, pool: Pool, h: Hash)
    requires IndexOk(index, pool) && h in pool
    ensures Swept(index, h) == index - {KeyOf(pool[h])}
  {
  }

  lemma OneLess(pool: Pool, h: Hash)
    requires h in pool
    ensures |pool - {h}| == |pool| - 1
  {
    assert (pool - {h}).Keys == pool.Keys - {h};
    assert |pool.Keys| == |pool| && |(pool - {h}).Keys| == |pool - {h}|;
  }

  lemma OneMore(pool: Pool, tx: Tx)
    requires tx.hash !in pool
    ensures |pool[tx.hash := tx]| == |pool| + 1
  {
    assert pool[tx.hash := tx].Keys == pool.Keys + {tx.hash};
    assert |pool.Keys| == |pool| && |pool[tx.hash := tx].Keys| == |pool[tx.hash := tx]|;
  }

  lemma Enters(
    shardOf: Hash -> nat, body: Bodies, shards: seq<Shard>, total: nat, index: map<Key, Hash>, pool: Pool, tx: Tx)
    requires Agree(shardOf, body, shards, total, index, pool) && Genuine(body, tx) && shardOf(tx.hash) < SHARD_COUNT
    requires tx.hash !in pool && !Conflicts(pool, tx) && total < MAX_TOTAL
    ensures Agree(shardOf, body, shards[shardOf(tx.hash) := Push(shards[shardOf(tx.hash)], tx)], total + 1,
                  index[KeyOf(tx) := tx.hash], pool[tx.hash := tx])
  {
    ShardGains(shardOf, body, shards, pool, tx);
    IndexGains(index, pool, tx);
    OneMore(pool, tx);
  }

  lemma IndexGains(index: map<Key, Hash>, pool: Pool, tx: Tx)
    requires IndexOk(index, pool) && tx.hash !in pool && !Conflicts(pool, tx)
    ensures IndexOk(index[KeyOf(tx) := tx.hash], pool[tx.hash := tx])
  {
    TakenKeyConflicts(index, pool, tx);
  }

  lemma TakenKeyConflicts(index: map<Key, Hash>, pool: Pool, tx: Tx)
    requires IndexOk(index, pool)
    ensures KeyOf(tx) in index && index[KeyOf(tx)] != tx.hash <==> Conflicts(pool, tx)
  {
    if KeyOf(tx) in index && index[KeyOf(tx)] != tx.hash {
      var h := index[KeyOf(tx)];
      assert h in pool && h != tx.hash && KeyOf(pool[h]) == KeyOf(tx);
    }
  }

  lemma Leaves(
    shardOf: Hash -> nat, body: Bodies, shards: seq<Shard>, total: nat, index: map<Key, Hash>, pool: Pool,
    i: nat, s: Shard, h: Hash)
    requires Agree(shardOf, body, shards, total, index, pool) && i < |shards| && h in shards[i].live
    requires ShardOk(body, s) && s.live == shards[i].live - {h}
    ensures h in pool && shardOf(h) == i && pool[h] == body(h)
    ensures total > 0 && Agree(shardOf, body, shards[i := s], total - 1, index - {KeyOf(body(h))}, pool - {h})
  {
    ShardLoses(shardOf, body, shards, pool, i, s, h);
    IndexLoses(index, pool, h);
    OneLess(pool, h);
  }

  /** The live transactions of a shard. */
  function InShard(shardOf: Hash -> nat, pool: Pool, i: nat): set<Hash> {
    set h | h in pool && shardOf(h) == i
  }

  /** How many transactions a drain has taken when it is done with the first `i` shards. */
  function Taken(shardOf: Hash -> nat, pool: Pool, n: nat, per: nat, i: nat): (t: nat)
    ensures t <= n
  {
    if i == 0 then 0
    else
      var before := Taken(shardOf, pool, n, per, i - 1);
      before + Min(Min(per, n - before), |InShard(shardOf, pool, i - 1)|)
  }

  function PerShard(n: nat): nat {
    Max((n + SHARD_COUNT - 1) / SHARD_COUNT, 1)
  }

  /** `out` was taken from `before`, and `after` is what remains. */
  ghost predicate TakenFrom(before: Pool, after: Pool, out: seq<Tx>) {
    && DistinctHashes(out)
    && (forall k :: 0 <= k < |out| ==> out[k].hash in before && before[out[k].hash] == out[k])
    && after == before - Hashes(out)
  }

  /** Shard by shard, the best of each first, and nothing left behind in a shard that was
      drawn from ranks above what was taken there. */
  ghost predicate ByBestFee(shardOf: Hash -> nat, after: Pool, out: seq<Tx>) {
    && (forall j, k :: 0 <= j < k < |out| ==>
          && shardOf(out[j].hash) <= shardOf(out[k].hash)
          && (shardOf(out[j].hash) == shardOf(out[k].hash) ==> !Above(out[k], out[j])))
    && (forall k, h :: 0 <= k < |out| && h in after && shardOf(h) == shardOf(out[k].hash) ==> !Above(after[h], out[k]))
  }

  /** A drain that has not come to shard `i` yet: what it took, it took from the shards below,
      each exactly once, best first. */
  ghost predicate Draining(shardOf: Hash -> nat, before: Pool, after: Pool, out: seq<Tx>, i: nat) {
    TakenFrom(before, after, out) && ByBestFee(shardOf, after, out) &&
    forall k :: 0 <= k < |out| ==> shardOf(out[k].hash) < i
  }

  lemma TakesOneMore(shardOf: Hash -> nat, before: Pool, after: Pool, out: seq<Tx>, tx: Tx, i: nat)
    requires Draining(shardOf, before, after, out, i + 1) && shardOf(tx.hash) == i
    requires tx.hash in after && after[tx.hash] == tx
    requires forall h :: h in after && shardOf(h) == i ==> !Above(after[h], tx)
    ensures Draining(shardOf, before, after - {tx.hash}, out + [tx], i + 1)
  {
    var rest := after - {tx.hash};
    assert TakenFrom(before, rest, out + [tx]) by { TakenPlusOne(before, after, out, tx); }
    assert ByBestFee(shardOf, rest, out + [tx]);
  }

  lemma TakenPlusOne(before: Pool, after: Pool, out: seq<Tx>, tx: Tx)
    requires TakenFrom(before, after, out) && tx.hash in after && after[tx.hash] == tx
    ensures TakenFrom(before, after - {tx.hash}, out + [tx])
  {
    assert Hashes(out + [tx]) == Hashes(out) + {tx.hash};
    assert forall k :: 0 <= k < |out| ==> out[k] in out;
  }

  /** The best live transaction of shard `i` has left the pool; None if there was none. */
  ghost predicate BestTaken(shardOf: Hash -> nat, before: Pool, after: Pool, i: nat, best: Option<Tx>) {
    match best
    case None => after == before && InShard(shardOf, before, i) == {}
    case Some(tx) =>
      && tx.hash in before && before[tx.hash] == tx && shardOf(tx.hash) == i && after == before - {tx.hash}
      && forall h :: h in before && shardOf(h) == i ==> !Above(before[h], tx)
  }

  // What is left once the best transaction, if there is one, is taken.

  function TotalAfter(total: nat, best: Option<Tx>): nat {
    if best.Some? && total > 0 then total - 1 else total
  }

  function IndexAfter(index: map<Key, Hash>, best: Option<Tx>): map<Key, Hash> {
    if best.Some? then index - {KeyOf(best.value)} else index
  }

  function PoolAfter(pool: Pool, best: Option<Tx>): Pool {
    if best.Some? then pool - {best.value.hash} else pool
  }

  lemma AfterPop(
    shardOf: Hash -> nat, body: Bodies, shards: seq<Shard>, total: nat, index: map<Key, Hash>, pool: Pool,
    i: nat, s: Shard, best: Option<Tx>)
    requires Agree(shardOf, body, shards, total, index, pool) && i < |shards| && Popped(body, shards[i], s, best)
    ensures best.Some? ==> total > 0
    ensures Agree(shardOf, body, shards[i := s],
                  TotalAfter(total, best), IndexAfter(index, best), PoolAfter(pool, best))
    ensures BestTaken(shardOf, pool, PoolAfter(pool, best), i, best)
  {
    if best.Some? {
      Leaves(shardOf, body, shards, total, index, pool, i, s, best.value.hash);
      BestOfShard(shardOf, body, shards, pool, i, best.value);
    } else {
      EmptyShard(shardOf, body, shards, pool, i, s);
    }
  }

  lemma Removing(
    shardOf: Hash -> nat, body: Bodies, shards: seq<Shard>, total: nat, index: map<Key, Hash>, pool: Pool,
    i: nat, s: Shard, h: Hash)
    requires Agree(shardOf, body, shards, total, index, pool) && i < |shards| && h in shards[i].live
    requires s == shards[i].(live := shards[i].live - {h})
    ensures total > 0 && Agree(shardOf, body, shards[i := s], total - 1, Swept(index, h), pool - {h})
  {
    Leaves(shardOf, body, shards, total, index, pool, i, s, h);
    SweepIsDelete(index, pool, h);
  }

  class ShardedMempool {
    const shardOf: Hash -> nat
    ghost const body: Bodies
    var shards: seq<Shard>
    var total: nat
    var nonceIndex: map<Key, Hash>
    /** The map all of the above stands for. */
    ghost var pool: Pool

    ghost predicate Valid()
      reads this
    {
      && (forall h :: shardOf(h) < SHARD_COUNT)
      && Agree(shardOf, body, shards, total, nonceIndex, pool)
    }

    constructor (shardOf: Hash -> nat, ghost body: Bodies)
      requires forall h :: shardOf(h) < SHARD_COUNT
      ensures Valid() && pool == map[] && this.shardOf == shardOf && this.body == body
    {
      this.shardOf, this.body := shardOf, body;
      shards, total, nonceIndex, pool := seq(SHARD_COUNT, _ => Shard(multiset{}, {})), 0, map[], map[];
    }

    method Insert(tx: Tx, now: nat) returns (r: Result<(), Refusal>)
      requires Valid() && Genuine(body, tx)
      modifies this
      ensures Valid()
      ensures r == Verdict(old(pool), tx, now)
      ensures pool == if r.Ok? then old(pool)[tx.hash := tx] else old(pool)
    {
      if OutOfDate(tx, now) {
        return Err(Refusal.Expired);
      }
      TakenKeyConflicts(nonceIndex, pool, tx);
      if KeyOf(tx) in nonceIndex && nonceIndex[KeyOf(tx)] != tx.hash {
        return Err(NonceConflict);
      }
      if total >= MAX_TOTAL {
        return Err(Full);
      }
      var i := shardOf(tx.hash);
      if tx.hash in shards[i].live {
        return Err(Duplicate);
      }
      Enters(shardOf, body, shards, total, nonceIndex, pool, tx);
      shards, total, nonceIndex, pool :=
        shards[i := Push(shards[i], tx)], total + 1, nonceIndex[KeyOf(tx) := tx.hash], pool[tx.hash := tx];
      return Ok(());
    }

    method Contains(h: Hash) returns (yes: bool)
      requires Valid()
      ensures yes <==> h in pool
    {
      yes := h in shards[shardOf(h)].live;
    }

    method Remove(h: Hash)
      requires Valid()
      modifies this
      ensures Valid() && pool == old(pool) - {h}
    {
      var i := shardOf(h);
      if h in shards[i].live {
        var s := shards[i].(live := shards[i].live - {h});
        Removing(shardOf, body, shards, total, nonceIndex, pool, i, s, h);
        shards, total, nonceIndex, pool :=
          shards[i := s], total - 1, Swept(nonceIndex, h), pool - {h};
        assert Agree(shardOf, body, shards, total, nonceIndex, pool);
      } else {
        NotThere(pool, h);
      }
    }

    /** Takes the best live transaction of a shard out of the pool. */
    method TakeBest(i: nat) returns (best: Option<Tx>)
      requires Valid() && i < SHARD_COUNT
      modifies this
      ensures Valid() && BestTaken(shardOf, old(pool), pool, i, best)
    {
      var s: Shard;
      best, s := PopBest(body, shards[i]);
      AfterPop(shardOf, body, shards, total, nonceIndex, pool, i, s, best);
      pool := PoolAfter(pool, best);
      shards := shards[i := s];
      Forget(best);
    }

    /** What was taken leaves the index and the counter. */
    method Forget(best: Option<Tx>)
      requires best.Some? ==> total > 0
      modifies `total, `nonceIndex
      ensures total == TotalAfter(old(total), best) && nonceIndex == IndexAfter(old(nonceIndex), best)
    {
      if best.Some? {
        nonceIndex := nonceIndex - {KeyOf(best.value)};
        total := total - 1;
      }
    }

    /** Takes from one shard up to its share, best first. */
    method DrainShard(i: nat, n: nat, per: nat, ghost start: Pool, done: seq<Tx>) returns (out: seq<Tx>)
      requires Valid() && i < SHARD_COUNT
      requires Draining(shardOf, start, pool, done, i) && |done| == Taken(shardOf, start, n, per, i)
      modifies this
      ensures Valid()
      ensures Draining(shardOf, start, pool, out, i + 1) && |out| == Taken(shardOf, start, n, per, i + 1)
    {
      var take := Min(per, n - |done|);
      UntouchedShard(shardOf, start, pool, done, i);
      out := done;
      if shards[i].live == {} {
        NothingIn(shardOf, body, shards, pool, i);
        return;
      }
      for j := 0 to take
        invariant Valid()
        invariant Draining(shardOf, start, pool, out, i + 1)
        invariant |out| == |done| + j && |InShard(shardOf, pool, i)| == |InShard(shardOf, start, i)| - j
      {
        ghost var before := pool;
        var best := TakeBest(i);
        if best.None? {
          break;
        }
        TakesOneMore(shardOf, start, before, out, best.value, i);
        OneFewer(shardOf, before, i, best.value.hash);
        out := out + [best.value];
      }
    }

    method DrainN(n: nat) returns (out: seq<Tx>)
      requires Valid()
      modifies this
      ensures Valid()
      ensures Draining(shardOf, old(pool), pool, out, SHARD_COUNT)
      ensures |out| == Taken(shardOf, old(pool), n, PerShard(n), SHARD_COUNT)
    {
      out := [];
      var per := PerShard(n);
      ghost var start := pool;
      NothingTaken(shardOf, start);
      for i := 0 to SHARD_COUNT
        invariant Valid()
        invariant Draining(shardOf, start, pool, out, i) && |out| == Taken(shardOf, start, n, per, i)
      {
        if |out| >= n {
          StopsEarly(shardOf, start, pool, out, n, per, i);
          return;
        }
        out := DrainShard(i, n, per, start, out);
      }
    }
  }

  lemma NotThere(pool: Pool, h: Hash)
    requires h !in pool
    ensures pool - {h} == pool
  {
  }

  lemma BestOfShard(shardOf: Hash -> nat, body: Bodies, shards: seq<Shard>, pool: Pool, i: nat, tx: Tx)
    requires ShardsOk(shardOf, body, shards, pool) && i < |shards|
    requires forall h :: h in shards[i].live ==> !Above(body(h), tx)
    ensures forall h :: h in pool && shardOf(h) == i ==> !Above(pool[h], tx)
  {
  }

  lemma NothingIn(shardOf: Hash -> nat, body: Bodies, shards: seq<Shard>, pool: Pool, i: nat)
    requires ShardsOk(shardOf, body, shards, pool) && i < |shards| && shards[i].live == {}
    ensures InShard(shardOf, pool, i) == {}
  {
    forall h | h in pool ensures shardOf(h) != i {
      assert h !in shards[i].live;
    }
  }

  lemma EmptyShard(shardOf: Hash -> nat, body: Bodies, shards: seq<Shard>, pool: Pool, i: nat, s: Shard)
    requires ShardsOk(shardOf, body, shards, pool) && i < |shards| && ShardOk(body, s) && s.live == shards[i].live == {}
    ensures ShardsOk(shardOf, body, shards[i := s], pool) && InShard(shardOf, pool, i) == {}
  {
    NothingIn(shardOf, body, shards, pool, i);
  }

  lemma StopsEarly(shardOf: Hash -> nat, before: Pool, after: Pool, out: seq<Tx>, n: nat, per: nat, i: nat)
    requires Draining(shardOf, before, after, out, i) && i <= SHARD_COUNT
    requires n <= |out| == Taken(shardOf, before, n, per, i)
    ensures Draining(shardOf, before, after, out, SHARD_COUNT)
    ensures |out| == Taken(shardOf, before, n, per, SHARD_COUNT)
  {
    TakenGrows(shardOf, before, n, per, i, SHARD_COUNT);
  }

  lemma NothingTaken(shardOf: Hash -> nat, pool: Pool)
    ensures Draining(shardOf, pool, pool, [], 0)
  {
    assert Hashes([]) == {};
    assert pool - {} == pool;
  }

  lemma UntouchedShard(shardOf: Hash -> nat, before: Pool, after: Pool, out: seq<Tx>, i: nat)
    requires Draining(shardOf, before, after, out, i)
    ensures InShard(shardOf, after, i) == InShard(shardOf, before, i)
  {
  }

  lemma OneFewer(shardOf: Hash -> nat, pool: Pool, i: nat, h: Hash)
    requires h in pool && shardOf(h) == i
    ensures |InShard(shardOf, pool - {h}, i)| == |InShard(shardOf, pool, i)| - 1
  {
    assert InShard(shardOf, pool - {h}, i) == InShard(shardOf, pool, i) - {h};
  }

  /** A drain of a non-empty pool takes something unless nothing is asked for. */
  lemma DrainTakes(shardOf: Hash -> nat, pool: Pool, n: nat)
    requires n > 0 && pool != map[] && forall h :: h in pool ==> shardOf(h) < SHARD_COUNT
    ensures Taken(shardOf, pool, n, PerShard(n), SHARD_COUNT) > 0
  {
    var h :| h in pool;
    var i := shardOf(h);
    assert h in InShard(shardOf, pool, i);
    assert Taken(shardOf, pool, n, PerShard(n), i + 1) > 0;
    TakenGrows(shardOf, pool, n, PerShard(n), i + 1, SHARD_COUNT);
  }

  lemma {:induction false} TakenGrows(shardOf: Hash -> nat, pool: Pool, n: nat, per: nat, i: nat, j: nat)
    requires i <= j
    ensures Taken(shardOf, pool, n, per, i) <= Taken(shardOf, pool, n, per, j)
  {
    if i < j {
      TakenGrows(shardOf, pool, n, per, i, j - 1);
    }
  }

  // ----- every run of the pool

  datatype Op = Insert(tx: Tx, now: nat) | Remove(hash: Hash) | Drain(out: seq<Tx>)

  /** The effect of each method on the map, as proved above. */
  ghost predicate Step(s: Pool, op: Op, t: Pool) {
    match op
    case Insert(tx, now) => t == if Verdict(s, tx, now).Ok? then s[tx.hash := tx] else s
    case Remove(h) => t == s - {h}
    case Drain(out) => TakenFrom(s, t, out)
  }

  ghost predicate Run(states: seq<Pool>, ops: seq<Op>) {
    && |states| == |ops| + 1
    && if ops == [] then states[0] == map[]
       else
         var k := |ops| - 1;
         Run(states[..k + 1], ops[..k]) && Step(states[k], ops[k], states[k + 1])
  }

  ghost predicate PoolOk(pool: Pool) {
    && |pool| <= MAX_TOTAL && (forall h :: h in pool ==> pool[h].hash == h)
    && (forall g, h :: g in pool && h in pool && KeyOf(pool[g]) == KeyOf(pool[h]) ==> g == h)
  }

  /** How often a step puts the hash in, and how often it takes it out. */
  function Ins(s: Pool, op: Op, h: Hash): nat {
    if op.Insert? && op.tx.hash == h && Verdict(s, op.tx, op.now).Ok? then 1 else 0
  }

  function Outs(s: Pool, op: Op, h: Hash): nat {
    match op
    case Insert(_, _) => 0
    case Remove(g) => if g == h && h in s then 1 else 0
    case Drain(out) => Occurrences(out, h)
  }

  function Occurrences(out: seq<Tx>, h: Hash): nat {
    if out == [] then 0 else Occurrences(out[..|out| - 1], h) + if out[|out| - 1].hash == h then 1 else 0
  }

  function AllIns(states: seq<Pool>, ops: seq<Op>, h: Hash): nat
    requires |states| > |ops|
  {
    if ops == [] then 0
    else var k := |ops| - 1; AllIns(states[..k + 1], ops[..k], h) + Ins(states[k], ops[k], h)
  }

  function AllOuts(states: seq<Pool>, ops: seq<Op>, h: Hash): nat
    requires |states| > |ops|
  {
    if ops == [] then 0
    else var k := |ops| - 1; AllOuts(states[..k + 1], ops[..k], h) + Outs(states[k], ops[k], h)
  }

  function Present(pool: Pool, h: Hash): nat {
    if h in pool then 1 else 0
  }

  lemma {:induction false} DistinctOccurs(out: seq<Tx>, h: Hash)
    requires DistinctHashes(out)
    ensures Occurrences(out, h) == if h in Hashes(out) then 1 else 0
  {
    if out != [] {
      var k := |out| - 1;
      DistinctOccurs(out[..k], h);
      assert out == out[..k] + [out[k]];
      assert Hashes(out) == Hashes(out[..k]) + {out[k].hash};
      assert out[k].hash !in Hashes(out[..k]);
    }
  }

  lemma StepBalances(s: Pool, op: Op, t: Pool, h: Hash)
    requires Step(s, op, t)
    ensures Present(t, h) == Present(s, h) + Ins(s, op, h) - Outs(s, op, h)
  {
    if op.Drain? {
      DistinctOccurs(op.out, h);
    }
  }

  /** Over every run a transaction comes out, drained or removed, exactly as often as it went
      in, less one while it is live: stale heap entries never bring one back. */
  lemma {:induction false} InsAndOutsBalance(states: seq<Pool>, ops: seq<Op>, h: Hash)
    requires Run(states, ops)
    ensures AllIns(states, ops, h) == AllOuts(states, ops, h) + Present(states[|ops|], h)
  {
    if ops != [] {
      var k := |ops| - 1;
      InsAndOutsBalance(states[..k + 1], ops[..k], h);
      StepBalances(states[k], ops[k], states[k + 1], h);
    }
  }

  lemma StepKeepsPool(s: Pool, op: Op, t: Pool)
    requires PoolOk(s) && Step(s, op, t)
    ensures PoolOk(t)
  {
    if op.Insert? {
      if Verdict(s, op.tx, op.now).Ok? {
        LargerPool(s, op.tx);
      }
    } else {
      SmallerPool(s, t);
    }
  }

  lemma LargerPool(s: Pool, tx: Tx)
    requires PoolOk(s) && !Conflicts(s, tx) && |s| < MAX_TOTAL && tx.hash !in s
    ensures PoolOk(s[tx.hash := tx])
  {
    OneMore(s, tx);
    assert forall g :: g in s && KeyOf(s[g]) == KeyOf(tx) ==> g == tx.hash;
  }

  lemma SmallerPool(s: Pool, t: Pool)
    requires PoolOk(s) && t.Keys <= s.Keys && forall h :: h in t ==> t[h] == s[h]
    ensures PoolOk(t)
  {
    SubsetSize(t.Keys, s.Keys);
    assert |t.Keys| == |t| && |s.Keys| == |s|;
  }

  /** Over every run: at most 50,000 live transactions, one per sender and nonce. */
  lemma {:induction false} RunKeepsPool(states: seq<Pool>, ops: seq<Op>)
    requires Run(states, ops)
    ensures PoolOk(states[|ops|])
  {
    if ops != [] {
      var k := |ops| - 1;
      RunKeepsPool(states[..k + 1], ops[..k]);
      StepKeepsPool(states[k], ops[k], states[k + 1]);
    }
  }
}
