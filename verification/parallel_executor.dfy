/**
 * The on-chain part of the parallel-executor pallet: a worker count kept
 * within `MAX_WORKERS`, a table of pending transaction batches keyed by block
 * number, recorded execution results and conflicts, and execution metrics.
 */
module ParallelExecutor {
  import opened Common
  import opened Ledger

  /** `T::Hash` of a transaction. */
  type TxHash = nat

  /** The pallet's `MaxWorkers`, taken from its `MAX_WORKERS` constant. */
  const MAX_WORKERS: nat := 16

  datatype ExecutionResult = ExecutionResult(txHash: TxHash, success: bool, gasUsed: u64, error: Option<Bytes>)

  datatype ParallelMetrics = ParallelMetrics(totalProcessed: u64, parallelEfficiency: u8, avgBatchTime: u64,
                                             activeWorkers: u32, conflictsResolved: u32)

  datatype ConflictType = ReadWrite | WriteWrite | NonceConflict | BalanceConflict

  datatype ConflictResolution = Sequential | RetryWithDelay | Reject | Optimistic

  datatype ConflictInfo = ConflictInfo(conflictingAccounts: seq<AccountId>, conflictType: ConflictType,
                                       resolution: ConflictResolution)

  datatype Error =
    | TooManyWorkers
    | BatchProcessingFailed
    | UnresolvableConflict
    | WorkerPoolExhausted
    | InvalidBatchConfig
    | ExecutionTimeout

  const DEFAULT_METRICS := ParallelMetrics(0, 0, 0, 0, 0)

  /** `next_batch_id`: the block number saturated into a `u32`. */
  function NextBatchId(blockNumber: nat): (id: u32)
    ensures id <= blockNumber
    ensures blockNumber <= U32_MAX ==> id == blockNumber
    ensures blockNumber > U32_MAX ==> id == U32_MAX
  {
    SatU32(blockNumber)
  }

  /** `simulate_transaction_execution`: every transaction succeeds. */
  function SimulateTransaction(txHash: TxHash): (ok: bool)
    ensures ok
  {
    true
  }

  /**
   * `calculate_efficiency` for a worker count: `(800 w * 100) / max(1000 w, 1)`
   * on wrapping `u32`, cast to `u8`. Whenever no product wraps it is 80.
   */
  function Efficiency(workers: u32): (e: u8)
    ensures workers == 0 ==> e == 0
    ensures 0 < workers <= 53_687 ==> e == 80
  {
    if workers == 0 then 0
    else
      var theoreticalMax := WrapMul32(workers, 1000);
      var actual := WrapMul32(800, workers);
      if workers <= 53_687 then
        NoWrap(workers, 1000);
        NoWrap(800, workers);
        EightyPercent(workers * 1000);
        Percent(actual, theoreticalMax)
      else
        Percent(actual, theoreticalMax)
  }

  lemma NoWrap(a: u32, b: u32)
    requires a * b <= U32_MAX
    ensures WrapMul32(a, b) == a * b
  {
  }

  lemma EightyPercent(d: nat)
    requires d > 0
    ensures (80 * d) / d == 80
  {
  }

  /** The sum, over the batches handled in `order`, of each batch's processed count. */
  function ProcessedSum(batches: map<u32, seq<TxHash>>, order: seq<u32>): nat
    requires forall k | k in order :: k in batches
  {
    if order == [] then 0
    else ProcessedSum(batches, order[..|order| - 1]) + SatU32(|batches[order[|order| - 1]]|)
  }

  /** `avg_batch_time` after `n` batches that each took no time: halved `n` times. */
  function Halved(avg: u64, n: nat): u64 {
    if n == 0 then avg else Halved(avg, n - 1) / 2
  }

  /** The batches of `batches` not handled in `order`. */
  function Unhandled(batches: map<u32, seq<TxHash>>, order: seq<u32>): map<u32, seq<TxHash>> {
    map k | k in batches && k !in order :: batches[k]
  }

  /** Handling one more pending batch removes it and adds its processed count. */
  lemma HandleStep(batches: map<u32, seq<TxHash>>, order: seq<u32>, batchId: u32)
    requires NoDup(order) && (forall k | k in order :: k in batches)
    requires batchId in Unhandled(batches, order)
    ensures NoDup(order + [batchId]) && forall k | k in order + [batchId] :: k in batches
    ensures Unhandled(batches, order + [batchId]) == Unhandled(batches, order) - {batchId}
    ensures ProcessedSum(batches, order + [batchId]) == ProcessedSum(batches, order) + SatU32(|batches[batchId]|)
  {
    assert (order + [batchId])[..|order|] == order;
  }

  /** The metrics after the batches in `order` were each executed and counted, in no time. */
  function Accounted(m: ParallelMetrics, batches: map<u32, seq<TxHash>>, order: seq<u32>): ParallelMetrics
    requires forall k | k in order :: k in batches
  {
    m.(totalProcessed := SatU64(m.totalProcessed + ProcessedSum(batches, order)),
       avgBatchTime := Halved(m.avgBatchTime, |order|))
  }

  /** Counting one more batch, one saturating addition and one halving at a time. */
  lemma AccountedStep(m: ParallelMetrics, batches: map<u32, seq<TxHash>>, order: seq<u32>, batchId: u32)
    requires NoDup(order) && (forall k | k in order :: k in batches)
    requires batchId in Unhandled(batches, order)
    ensures forall k | k in order + [batchId] :: k in batches
    ensures var before := Accounted(m, batches, order);
            Accounted(m, batches, order + [batchId]) ==
              before.(totalProcessed := SatAdd64(before.totalProcessed, SatU32(|batches[batchId]|)),
                      avgBatchTime := (before.avgBatchTime + 0) / 2)
  {
    HandleStep(batches, order, batchId);
    SatAdd64OfSat(m.totalProcessed + ProcessedSum(batches, order), SatU32(|batches[batchId]|));
  }

  class ParallelExecutorPallet {
    var metrics: ParallelMetrics
    var activeWorkers: u32
    var executionResults: map<TxHash, ExecutionResult>
    var pendingBatches: map<u32, seq<TxHash>>
    var conflicts: map<TxHash, ConflictInfo>

    /**
     * The worker count is within bounds and mirrored in the metrics, and no
     * pending batch is empty.
     */
    ghost predicate Valid()
      reads this
    {
      && activeWorkers <= MAX_WORKERS
      && metrics.activeWorkers == activeWorkers
      && forall id | id in pendingBatches :: |pendingBatches[id]| > 0
    }

    constructor ()
      ensures metrics == DEFAULT_METRICS && activeWorkers == 0
      ensures executionResults == map[] && pendingBatches == map[] && conflicts == map[]
      ensures Valid()
    {
      metrics := DEFAULT_METRICS;
      activeWorkers := 0;
      executionResults, pendingBatches, conflicts := map[], map[], map[];
    }

    /** `initialize_parallel_execution`: sets the worker count and resets the metrics. */
    method InitializeParallelExecution(workerCount: u32) returns (r: Outcome<Error>)
      requires Valid()
      modifies this
      ensures Valid()
      ensures r.Fail? <==> workerCount > MAX_WORKERS
      ensures r.Fail? ==> r.error == TooManyWorkers && unchanged(this)
      ensures r.Pass? ==>
                && activeWorkers == workerCount && metrics == DEFAULT_METRICS.(activeWorkers := workerCount)
                && executionResults == old(executionResults) && pendingBatches == old(pendingBatches)
                && conflicts == old(conflicts)
    {
      if workerCount > MAX_WORKERS {
        r := Fail(TooManyWorkers);
      } else {
        activeWorkers := workerCount;
        metrics := DEFAULT_METRICS.(activeWorkers := workerCount);
        r := Pass;
      }
    }

    /**
     * `submit_batch`: a non-empty batch (its length cast to `u32` must be
     * non-zero) is stored under the block number while some worker is active.
     * A second batch in the same block replaces the first.
     */
    method SubmitBatch(transactions: seq<TxHash>, blockNumber: nat) returns (r: Outcome<Error>)
      requires Valid()
      modifies this
      ensures Valid()
      ensures r == Fail(InvalidBatchConfig) <==> TruncU32(|transactions|) == 0
      ensures r == Fail(WorkerPoolExhausted) <==> TruncU32(|transactions|) > 0 && old(activeWorkers) == 0
      ensures r.Pass? <==> TruncU32(|transactions|) > 0 && old(activeWorkers) > 0
      ensures r.Fail? ==> unchanged(this)
      ensures r.Pass? ==>
                && transactions != []
                && pendingBatches == old(pendingBatches)[NextBatchId(blockNumber) := transactions]
                && metrics == old(metrics) && activeWorkers == old(activeWorkers)
                && executionResults == old(executionResults) && conflicts == old(conflicts)
    {
      var batchId := NextBatchId(blockNumber);
      var txCount := TruncU32(|transactions|);
      if txCount == 0 {
        r := Fail(InvalidBatchConfig);
      } else if activeWorkers == 0 {
        r := Fail(WorkerPoolExhausted);
      } else {
        pendingBatches := pendingBatches[batchId := transactions];
        r := Pass;
      }
    }

    /**
     * `execute_batch_parallel`: runs the batch chunk by chunk, one chunk per
     * worker, counting successes and failures. Storage is not changed.
     */
    method ExecuteBatchParallel(batchId: u32, transactions: seq<TxHash>) returns (processed: u32, failed: u32)
      ensures processed + failed == SatU32(|transactions|)
      ensures failed == 0
    {
      var batchSize := TruncU32(|transactions|);
      var chunkSize := Max(batchSize / Max(activeWorkers, 1), 1);
      processed, failed := 0, 0;
      var one: u32 := 1;
      var start := 0;
      while start < |transactions|
        invariant start <= |transactions| && processed == SatU32(start) && failed == 0
      {
        var end := Min(start + chunkSize, |transactions|);
        var j := start;
        while j < end
          invariant start <= j <= end && processed == SatU32(j) && failed == 0
        {
          if SimulateTransaction(transactions[j]) {
            SatAdd32OfSat(j, 1);
            processed := SatAdd32(processed, 1);
          } else {
            failed := SatAdd32(failed, one);
          }
          j := j + 1;
        }
        start := end;
      }
    }

    /**
     * `process_pending_batches`: handles pending batches in storage order
     * (returned as `order`) until `maxBatches` are done or none is left; each
     * handled batch is executed, counted into the metrics and removed.
     */
    method ProcessPendingBatches(maxBatches: u32, blockNumber: nat) returns (ghost order: seq<u32>)
      requires Valid()
      modifies this
      ensures Valid()
      ensures NoDup(order) && |order| <= maxBatches
      ensures forall k | k in order :: k in old(pendingBatches)
      ensures |order| < maxBatches ==> pendingBatches == map[]
      ensures pendingBatches == Unhandled(old(pendingBatches), order)
      ensures metrics == Accounted(old(metrics), old(pendingBatches), order)
      ensures activeWorkers == old(activeWorkers) && executionResults == old(executionResults)
      ensures conflicts == old(conflicts)
    {
      var pending, m;
      pending, m, order := HandleBatches(pendingBatches, metrics, maxBatches, blockNumber);
      pendingBatches, metrics := pending, m;
    }

    /**
     * The loop of `process_pending_batches` on the pending table `batches` and
     * the metrics `m0`: it returns the table and metrics it leaves behind.
     */
    method HandleBatches(batches: map<u32, seq<TxHash>>, m0: ParallelMetrics, maxBatches: u32, blockNumber: nat)
      returns (pending: map<u32, seq<TxHash>>, m: ParallelMetrics, ghost order: seq<u32>)
      ensures NoDup(order) && |order| <= maxBatches
      ensures forall k | k in order :: k in batches
      ensures |order| < maxBatches ==> pending == map[]
      ensures pending == Unhandled(batches, order)
      ensures m == Accounted(m0, batches, order)
    {
      pending, m := batches, m0;
      var processedBatches: u32 := 0;
      order := [];
      while pending != map[] && processedBatches < maxBatches
        invariant NoDup(order) && |order| == processedBatches <= maxBatches
        invariant forall k | k in order :: k in batches
        invariant pending == Unhandled(batches, order)
        invariant m == Accounted(m0, batches, order)
        decreases |pending|
      {
        var batchId :| batchId in pending;
        var transactions := pending[batchId];
        var processed, failed := ExecuteBatchParallel(batchId, transactions);
        var executionTime := SatU64(SatSub(blockNumber, blockNumber));
        HandleStep(batches, order, batchId);
        AccountedStep(m0, batches, order, batchId);
        m := m.(totalProcessed := SatAdd64(m.totalProcessed, processed), avgBatchTime := (m.avgBatchTime + executionTime) / 2);
        pending := pending - {batchId};
        order := order + [batchId];
        processedBatches := processedBatches + 1;
      }
    }

    /** `scale_workers`: sets the worker count, a no-op when it is already the target. */
    method ScaleWorkers(targetWorkers: u32) returns (r: Outcome<Error>)
      requires Valid()
      modifies this
      ensures Valid()
      ensures r.Fail? <==> targetWorkers > MAX_WORKERS
      ensures r.Fail? ==> r.error == TooManyWorkers && unchanged(this)
      ensures r.Pass? ==> activeWorkers == targetWorkers && metrics == old(metrics).(activeWorkers := targetWorkers)
      ensures r.Pass? && targetWorkers == old(activeWorkers) ==> unchanged(this)
      ensures executionResults == old(executionResults) && pendingBatches == old(pendingBatches)
      ensures conflicts == old(conflicts)
    {
      if targetWorkers > MAX_WORKERS {
        r := Fail(TooManyWorkers);
      } else {
        if targetWorkers != activeWorkers {
          activeWorkers := targetWorkers;
          metrics := metrics.(activeWorkers := targetWorkers);
        }
        r := Pass;
      }
    }

    /** `report_execution_result`: records the result under the transaction hash. */
    method ReportExecutionResult(txHash: TxHash, success: bool, gasUsed: u64, error: Option<Bytes>)
      requires Valid()
      modifies this`executionResults
      ensures Valid()
      ensures executionResults == old(executionResults)[txHash := ExecutionResult(txHash, success, gasUsed, error)]
    {
      executionResults := executionResults[txHash := ExecutionResult(txHash, success, gasUsed, error)];
    }

    /** `handle_conflict`: records the conflict and counts one more resolution. */
    method HandleConflict(txHash: TxHash, conflictingAccounts: seq<AccountId>, conflictType: ConflictType,
                          resolution: ConflictResolution)
      requires Valid()
      modifies this`conflicts, this`metrics
      ensures Valid()
      ensures conflicts == old(conflicts)[txHash := ConflictInfo(conflictingAccounts, conflictType, resolution)]
      ensures metrics == old(metrics).(conflictsResolved := SatAdd32(old(metrics).conflictsResolved, 1))
    {
      conflicts := conflicts[txHash := ConflictInfo(conflictingAccounts, conflictType, resolution)];
      metrics := metrics.(conflictsResolved := SatAdd32(metrics.conflictsResolved, 1));
    }

    /** `calculate_efficiency`: 0 without workers, 80 otherwise. */
    function CalculateEfficiency(): (e: u8)
      requires Valid()
      reads this
      ensures e == if metrics.activeWorkers == 0 then 0 else 80
    {
      Efficiency(metrics.activeWorkers)
    }
  }
}
