/**
 * The sharding pallet: four shards with validator sets, one FIFO queue of
 * cross-shard transactions per destination shard, a per-shard processing load
 * and network-wide performance metrics.
 */
module Sharding {
  import opened Common
  import opened Ledger

  type ShardId = u8

  const SHARD_COUNT: nat := 4
  /** Runtime configuration of the pallet. */
  const MAX_VALIDATORS_PER_SHARD: nat := 25
  const TARGET_TPS_PER_SHARD: u32 := 25_000
  const CROSS_SHARD_FEE: Balance := 10

  datatype ShardInfo = ShardInfo(shardId: ShardId, validators: seq<AccountId>, totalStake: u128, txCount: u32,
                                 capacity: u32)

  datatype CrossShardTx = CrossShardTx(fromShard: ShardId, toShard: ShardId, sender: AccountId,
                                       recipient: AccountId, amount: u128, nonce: u64)

  datatype PerformanceMetrics = PerformanceMetrics(totalTransactions: u64, currentTps: u32, avgBlockTime: u64,
                                                   crossShardTxs: u32, parallelUtilization: u8)

  datatype Error =
    | ShardNotFound
    | ShardAtCapacity
    | InvalidCrossShardTx
    | InsufficientBalance
    | AccountNotFound
    | ParallelProcessingError
    | InvalidShardConfig

  const DEFAULT_METRICS := PerformanceMetrics(0, 0, 0, 0, 0)

  /** A shard as `initialize_sharding` creates it. */
  function NewShard(id: ShardId, validators: seq<AccountId>): ShardInfo {
    ShardInfo(id, validators, 0, 0, TARGET_TPS_PER_SHARD)
  }

  /** `get_account_shard`, given the first byte of the account's hash. */
  function AccountShard(hashByte: u8): (s: ShardId)
    ensures s < SHARD_COUNT
    ensures hashByte < SHARD_COUNT ==> s == hashByte
  {
    hashByte % SHARD_COUNT
  }

  /** How many of the hash bytes below `n` send an account to `shard`. */
  function HitsBelow(shard: ShardId, n: nat): nat
    requires n <= U8_MAX + 1
  {
    if n == 0 then 0 else HitsBelow(shard, n - 1) + (if AccountShard(n - 1) == shard then 1 else 0)
  }

  lemma {:induction false} HitsBelowBlocks(shard: ShardId, k: nat)
    requires shard < SHARD_COUNT && k <= 64
    ensures HitsBelow(shard, 4 * k) == k
  {
    if k > 0 {
      var b := 4 * (k - 1);
      HitsBelowBlocks(shard, k - 1);
      HitsBelowBlock(shard, b);
    }
  }

  /** Four consecutive hash bytes starting at a multiple of four hit every shard once. */
  lemma HitsBelowBlock(shard: ShardId, b: nat)
    requires shard < SHARD_COUNT && b % 4 == 0 && b + 4 <= U8_MAX + 1
    ensures HitsBelow(shard, b + 4) == HitsBelow(shard, b) + 1
  {
    assert AccountShard(b) == 0 && AccountShard(b + 1) == 1;
    assert AccountShard(b + 2) == 2 && AccountShard(b + 3) == 3;
    assert HitsBelow(shard, b + 2) == HitsBelow(shard, b) + (if shard < 2 then 1 else 0);
  }

  /** Each shard receives exactly a quarter of the 256 possible hash bytes. */
  lemma AccountShardUniform(shard: ShardId)
    requires shard < SHARD_COUNT
    ensures HitsBelow(shard, U8_MAX + 1) == 64
  {
    HitsBelowBlocks(shard, 64);
  }

  /** The network-wide utilisation stored by `update_performance_metrics`. */
  function ParallelUtilization(currentTps: u32): (p: u8)
    ensures currentTps <= SHARD_COUNT * TARGET_TPS_PER_SHARD ==> p == currentTps / 1000 && p <= 100
  {
    Percent(currentTps, SHARD_COUNT * TARGET_TPS_PER_SHARD)
  }

  /** `Joined`: the validator list after `who` joins; a present member is not added twice. */
  function Joined(validators: seq<AccountId>, who: AccountId): (r: seq<AccountId>)
    ensures who in r
    ensures forall v :: v in r <==> v in validators || v == who
    ensures |validators| <= |r| <= |validators| + 1 && r[..|validators|] == validators
    ensures NoDup(validators) ==> NoDup(r)
  {
    if who in validators then validators else validators + [who]
  }

  /** Joining twice is joining once. */
  lemma JoinedIdempotent(validators: seq<AccountId>, who: AccountId)
    ensures Joined(Joined(validators, who), who) == Joined(validators, who)
  {
  }

  /** A queue under the `ValueQuery` default: a shard without an entry has an empty queue. */
  function QueueOf(queues: map<ShardId, seq<CrossShardTx>>, id: ShardId): seq<CrossShardTx> {
    if id in queues then queues[id] else []
  }

  function LoadOf(loads: map<ShardId, u32>, id: ShardId): u32 {
    if id in loads then loads[id] else 0
  }

  /** `process_cross_shard_queue`'s count: the queue length cast to `u32`, capped by the caller's limit. */
  function ProcessCount(queueLength: nat, maxTransactions: u32): (n: u32)
    ensures n <= queueLength && n <= maxTransactions
    ensures queueLength <= U32_MAX ==> n == Min(queueLength, maxTransactions)
  {
    Min(TruncU32(queueLength), maxTransactions)
  }

  /**
   * The queue is first in, first out: an entry appended behind a queue is
   * still behind everything left after draining any prefix of it.
   */
  lemma {:induction false} DrainThenAppend(queue: seq<CrossShardTx>, tx: CrossShardTx, n: nat)
    requires n <= |queue|
    ensures (queue + [tx])[n..] == queue[n..] + [tx]
    ensures (queue + [tx])[..n] == queue[..n]
  {
    assert forall i | 0 <= i < |queue| - n + 1 :: (queue + [tx])[n..][i] == (queue[n..] + [tx])[i];
  }

  /**
   * Table `after` is `before` with the first `n` shards re-created from `seeds`
   * and every other shard left as it was.
   */
  ghost predicate Seeded<V>(before: map<ShardId, V>, after: map<ShardId, V>, n: nat, seeds: seq<V>)
    requires n <= |seeds|
  {
    && (forall id: ShardId :: id in after <==> id in before || id < n)
    && (forall id: ShardId | id < n :: id in after && after[id] == seeds[id])
    && (forall id: ShardId | id in before && id >= n :: after[id] == before[id])
  }

  /** The shards `initialize_sharding` creates, the i-th under id `i as u8`. */
  function NewShards(lists: seq<seq<AccountId>>): (s: seq<ShardInfo>)
    ensures |s| == |lists|
  {
    seq(|lists|, i requires 0 <= i < |lists| => NewShard(TruncU8(i), lists[i]))
  }

  function Repeat<V>(v: V, n: nat): (s: seq<V>)
    ensures |s| == n && forall i | 0 <= i < n :: s[i] == v
  {
    seq(n, _ => v)
  }

  lemma SeededStep<V>(before: map<ShardId, V>, after: map<ShardId, V>, n: nat, seeds: seq<V>)
    requires n < |seeds| && n <= U8_MAX && Seeded(before, after, n, seeds)
    ensures Seeded(before, after[n := seeds[n]], n + 1, seeds)
  {
  }

  /** Every shard sits under its own id below `SHARD_COUNT` with the configured capacity. */
  ghost predicate ShardsValid(infos: map<ShardId, ShardInfo>) {
    forall id | id in infos :: id < SHARD_COUNT && infos[id].shardId == id && infos[id].capacity == TARGET_TPS_PER_SHARD
  }

  /** Queues exist only for shards, and every queued transaction crosses into the shard whose queue holds it. */
  ghost predicate QueuesValid(queues: map<ShardId, seq<CrossShardTx>>, infos: map<ShardId, ShardInfo>) {
    forall id | id in queues ::
      id in infos && forall tx | tx in queues[id] :: tx.toShard == id && tx.fromShard != id && tx.fromShard < SHARD_COUNT
  }

  /** Re-creating a shard with an empty queue keeps both table invariants. */
  lemma SeedKeepsValid(infos: map<ShardId, ShardInfo>, queues: map<ShardId, seq<CrossShardTx>>, id: ShardId,
                       validators: seq<AccountId>)
    requires ShardsValid(infos) && QueuesValid(queues, infos) && id < SHARD_COUNT
    ensures ShardsValid(infos[id := NewShard(id, validators)])
    ensures QueuesValid(queues[id := []], infos[id := NewShard(id, validators)])
  {
  }

  class ShardingPallet {
    var shardInfos: map<ShardId, ShardInfo>
    var crossShardQueue: map<ShardId, seq<CrossShardTx>>
    var metrics: PerformanceMetrics
    var processingState: map<ShardId, u32>
    var balances: Balances
    /** The first byte of `BlakeTwo256::hash_of` an account. */
    const accountHash: AccountId -> u8

    ghost predicate Valid()
      reads this
    {
      ShardsValid(shardInfos) && QueuesValid(crossShardQueue, shardInfos)
    }

    constructor (initialBalances: Balances, hashByte: AccountId -> u8)
      ensures shardInfos == map[] && crossShardQueue == map[] && processingState == map[]
      ensures metrics == DEFAULT_METRICS && balances == initialBalances && accountHash == hashByte
      ensures Valid()
    {
      shardInfos, crossShardQueue, processingState := map[], map[], map[];
      metrics := DEFAULT_METRICS;
      balances := initialBalances;
      accountHash := hashByte;
    }

    /**
     * `initialize_sharding`: shard i is (re)created from the i-th list with an
     * empty queue and no load. A fifth list fails the whole call.
     */
    method InitializeSharding(lists: seq<seq<AccountId>>) returns (r: Outcome<Error>)
      requires Valid()
      modifies this
      ensures Valid()
      ensures r.Fail? <==> |lists| > SHARD_COUNT
      ensures r.Fail? ==> r.error == InvalidShardConfig && unchanged(this)
      ensures r.Pass? ==>
                && Seeded(old(shardInfos), shardInfos, |lists|, NewShards(lists))
                && Seeded(old(crossShardQueue), crossShardQueue, |lists|, Repeat([], |lists|))
                && Seeded(old(processingState), processingState, |lists|, Repeat(0, |lists|))
                && metrics == DEFAULT_METRICS && balances == old(balances)
    {
      var infos: map<ShardId, ShardInfo> := shardInfos;
      var queues: map<ShardId, seq<CrossShardTx>> := crossShardQueue;
      var loads: map<ShardId, u32> := processingState;
      var i := 0;
      r := Pass;
      while i < |lists| && r.Pass?
        modifies {}
        decreases |lists| - i, if r.Pass? then 1 else 0
        invariant i <= |lists| && i <= SHARD_COUNT
        invariant r.Fail? ==> r == Fail(InvalidShardConfig) && i == SHARD_COUNT < |lists|
        invariant r.Pass? ==> i <= SHARD_COUNT
        invariant Seeded(shardInfos, infos, i, NewShards(lists))
        invariant Seeded(crossShardQueue, queues, i, Repeat([], |lists|))
        invariant Seeded(processingState, loads, i, Repeat(0, |lists|))
        invariant ShardsValid(infos) && QueuesValid(queues, infos)
      {
        var shardId := TruncU8(i);
        SmallMod(i, U8_MAX + 1);
        if shardId >= SHARD_COUNT {
          r := Fail(InvalidShardConfig);
        } else {
          SeededStep(shardInfos, infos, i, NewShards(lists));
          SeededStep(crossShardQueue, queues, i, Repeat([], |lists|));
          SeededStep(processingState, loads, i, Repeat(0, |lists|));
          var shard := NewShard(shardId, lists[i]);
          SeedKeepsValid(infos, queues, shardId, lists[i]);
          assert shard == NewShards(lists)[i];
          infos := infos[shardId := shard];
          queues := queues[shardId := []];
          loads := loads[shardId := 0];
          i := i + 1;
        }
      }
      if r.Pass? {
        shardInfos, crossShardQueue, processingState := infos, queues, loads;
        metrics := DEFAULT_METRICS;
      }
    }

    /**
     * `join_shard`: the shard must exist and have room (even for a present
     * member); the caller is appended only if absent.
     */
    method JoinShard(who: AccountId, shardId: ShardId) returns (r: Outcome<Error>)
      requires Valid()
      modifies this
      ensures Valid()
      ensures r == Fail(ShardNotFound) <==> shardId !in old(shardInfos)
      ensures r == Fail(ShardAtCapacity) <==>
                shardId in old(shardInfos) && |old(shardInfos)[shardId].validators| >= MAX_VALIDATORS_PER_SHARD
      ensures r.Pass? <==>
                shardId in old(shardInfos) && |old(shardInfos)[shardId].validators| < MAX_VALIDATORS_PER_SHARD
      ensures r.Fail? ==> unchanged(this)
      ensures r.Pass? ==>
                && shardInfos == old(shardInfos)[shardId := old(shardInfos)[shardId].(
                                   validators := Joined(old(shardInfos)[shardId].validators, who))]
                && |shardInfos[shardId].validators| <= MAX_VALIDATORS_PER_SHARD
                && crossShardQueue == old(crossShardQueue) && metrics == old(metrics)
                && processingState == old(processingState) && balances == old(balances)
    {
      if shardId !in shardInfos {
        r := Fail(ShardNotFound);
      } else if |shardInfos[shardId].validators| >= MAX_VALIDATORS_PER_SHARD {
        r := Fail(ShardAtCapacity);
      } else {
        var info := shardInfos[shardId];
        if who !in info.validators {
          info := info.(validators := info.validators + [who]);
        }
        shardInfos := shardInfos[shardId := info];
        r := Pass;
      }
    }

    /**
     * `execute_cross_shard_tx`: the sender's shard must differ from an existing
     * destination; the fee is burnt and the transaction queued at the back of
     * the destination's queue.
     */
    method ExecuteCrossShardTx(sender: AccountId, toShard: ShardId, recipient: AccountId, amount: u128,
                               nonce: u64)
      returns (r: Outcome<Error>)
      requires Valid()
      modifies this
      ensures Valid()
      ensures r == Fail(InvalidCrossShardTx) <==> AccountShard(accountHash(sender)) == toShard
      ensures r == Fail(ShardNotFound) <==>
                AccountShard(accountHash(sender)) != toShard && toShard !in old(shardInfos)
      ensures r == Fail(InsufficientBalance) <==>
                && AccountShard(accountHash(sender)) != toShard && toShard in old(shardInfos)
                && BalanceOf(old(balances), sender) < CROSS_SHARD_FEE
      ensures r.Pass? <==>
                && AccountShard(accountHash(sender)) != toShard && toShard in old(shardInfos)
                && BalanceOf(old(balances), sender) >= CROSS_SHARD_FEE
      ensures r.Fail? ==> unchanged(this)
      ensures r.Pass? ==>
                && var tx := CrossShardTx(AccountShard(accountHash(sender)), toShard, sender, recipient, amount, nonce);
                && crossShardQueue == old(crossShardQueue)[toShard := QueueOf(old(crossShardQueue), toShard) + [tx]]
                && metrics == old(metrics).(crossShardTxs := SatAdd32(old(metrics).crossShardTxs, 1))
                && balances == Withdraw(old(balances), sender, CROSS_SHARD_FEE).value
                && shardInfos == old(shardInfos) && processingState == old(processingState)
    {
      var fromShard := AccountShard(accountHash(sender));
      if fromShard == toShard {
        r := Fail(InvalidCrossShardTx);
      } else if toShard !in shardInfos {
        r := Fail(ShardNotFound);
      } else {
        var paid := Withdraw(balances, sender, CROSS_SHARD_FEE);
        if paid.None? {
          r := Fail(InsufficientBalance);
        } else {
          balances := paid.value;
          var tx := CrossShardTx(fromShard, toShard, sender, recipient, amount, nonce);
          crossShardQueue := crossShardQueue[toShard := QueueOf(crossShardQueue, toShard) + [tx]];
          metrics := metrics.(crossShardTxs := SatAdd32(metrics.crossShardTxs, 1));
          r := Pass;
        }
      }
    }

    /**
     * `process_cross_shard_queue`: takes up to `maxTransactions` entries from
     * the front of the queue, counting them one by one, and drains them.
     * `processed` is the batch size the call reports.
     */
    method ProcessCrossShardQueue(shardId: ShardId, maxTransactions: u32) returns (processed: u32)
      requires Valid()
      modifies this
      ensures Valid()
      ensures processed == ProcessCount(|QueueOf(old(crossShardQueue), shardId)|, maxTransactions)
      ensures processed == 0 ==> unchanged(this)
      ensures processed > 0 ==>
                && crossShardQueue == old(crossShardQueue)[shardId := old(crossShardQueue)[shardId][processed..]]
                && shardInfos == old(shardInfos) && metrics == old(metrics)
                && processingState == old(processingState) && balances == old(balances)
      ensures old(QueueOf(crossShardQueue, shardId)) == old(QueueOf(crossShardQueue, shardId))[..processed] +
                                                      QueueOf(crossShardQueue, shardId)
    {
      var queue := QueueOf(crossShardQueue, shardId);
      var count := ProcessCount(|queue|, maxTransactions);
      processed := 0;
      if count > 0 {
        var i := 0;
        while i < count
          modifies {}
          invariant i <= count && processed == i
        {
          processed := SatAdd32(processed, 1);
          i := i + 1;
        }
        crossShardQueue := crossShardQueue[shardId := queue[count..]];
        assert queue == queue[..count] + queue[count..];
      }
    }

    /** `update_performance_metrics`: stores the figures and the derived utilisation. */
    method UpdatePerformanceMetrics(totalTransactions: u64, currentTps: u32, avgBlockTime: u64)
      requires Valid()
      modifies this`metrics
      ensures Valid()
      ensures metrics == PerformanceMetrics(totalTransactions, currentTps, avgBlockTime, old(metrics).crossShardTxs,
                                            ParallelUtilization(currentTps))
    {
      metrics := metrics.(totalTransactions := totalTransactions, currentTps := currentTps,
                          avgBlockTime := avgBlockTime, parallelUtilization := ParallelUtilization(currentTps));
    }

    /**
     * `rebalance_shards`: sorting the four shards stably by load, the first is
     * the least loaded (lowest id among ties) and the last the most loaded
     * (highest id among ties). Storage is not changed.
     */
    method RebalanceShards() returns (fromShard: ShardId, toShard: ShardId)
      ensures fromShard < SHARD_COUNT && toShard < SHARD_COUNT
      ensures forall id: ShardId | id < SHARD_COUNT :: LoadOf(processingState, toShard) <= LoadOf(processingState, id)
      ensures forall id: ShardId | id < toShard :: LoadOf(processingState, id) > LoadOf(processingState, toShard)
      ensures forall id: ShardId | id < SHARD_COUNT :: LoadOf(processingState, fromShard) >= LoadOf(processingState, id)
      ensures forall id: ShardId | fromShard < id < SHARD_COUNT ::
                LoadOf(processingState, id) < LoadOf(processingState, fromShard)
    {
      fromShard, toShard := 0, 0;
      var id: ShardId := 1;
      while id < SHARD_COUNT
        invariant 1 <= id <= SHARD_COUNT && fromShard < id && toShard < id
        invariant forall k: ShardId | k < id :: LoadOf(processingState, toShard) <= LoadOf(processingState, k)
        invariant forall k: ShardId | k < toShard :: LoadOf(processingState, k) > LoadOf(processingState, toShard)
        invariant forall k: ShardId | k < id :: LoadOf(processingState, fromShard) >= LoadOf(processingState, k)
        invariant forall k: ShardId | fromShard < k < id :: LoadOf(processingState, k) < LoadOf(processingState, fromShard)
      {
        var load := LoadOf(processingState, id);
        if load < LoadOf(processingState, toShard) {
          toShard := id;
        }
        if load >= LoadOf(processingState, fromShard) {
          fromShard := id;
        }
        id := id + 1;
      }
    }

    /** `get_account_shard`. */
    function GetAccountShard(account: AccountId): (s: ShardId)
      ensures s < SHARD_COUNT
    {
      AccountShard(accountHash(account))
    }

    /** `shard_utilization`: the load as a percentage of the shard's capacity. */
    function ShardUtilization(shardId: ShardId): (u: Option<u8>)
      requires Valid()
      reads this
      ensures u.Some? <==> shardId in shardInfos
      ensures u.Some? && LoadOf(processingState, shardId) <= TARGET_TPS_PER_SHARD ==>
                u.value == LoadOf(processingState, shardId) / 250 && u.value <= 100
    {
      if shardId in shardInfos then Some(Percent(LoadOf(processingState, shardId), shardInfos[shardId].capacity))
      else None
    }
  }
}
