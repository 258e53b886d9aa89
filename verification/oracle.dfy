/**
 * The oracle pallet: registered data sources, a (data key, source) table of
 * submitted values, per-key aggregates built once enough sources reported,
 * paid data requests (one at a time or in a batch), and expiry of old
 * aggregates. Block numbers are given to each call; the storage iteration
 * order the pallet relies on is left unspecified (a nondeterministic choice).
 */
module Oracle {
  import opened Common
  import opened Ledger

  type DataKey = Bytes
  type SourceId = Bytes
  type DataValue = Bytes
  type RequestId = u64
  /** The runtime's block number type. */
  type BlockNumber = u32

  // Runtime configuration of the pallet.
  const MAX_DATA_SOURCES: nat := 10
  const MAX_DATA_SIZE: nat := 1024
  const ORACLE_QUERY_FEE: Balance := 2
  const PREMIUM_QUERY_FEE: Balance := 5
  const ORACLE_REWARD: Balance := 1
  const MAX_DATA_AGE: nat := 1200
  const MIN_AGGREGATION_SOURCES: nat := 3

  /** Confidence above which only a trusted provider may submit. */
  const TRUSTED_CONFIDENCE: nat := 80

  datatype OracleRequest = OracleRequest(
    requester: AccountId,
    dataKey: DataKey,
    sources: seq<SourceId>,
    requestedAt: BlockNumber,
    premium: bool,
    callback: Option<Bytes>)

  datatype OracleData = OracleData(
    value: DataValue,
    provider: AccountId,
    timestamp: BlockNumber,
    source: SourceId,
    confidence: u8,
    signature: Option<Bytes>)

  datatype AggregatedData = AggregatedData(
    value: DataValue,
    sourceCount: u32,
    confidence: u8,
    aggregatedAt: BlockNumber,
    dataPoints: seq<DataValue>)

  datatype DataSource = DataSource(
    id: SourceId,
    name: Bytes,
    endpoint: Bytes,
    reliability: u8,
    active: bool)

  datatype Error =
    | RequestNotFound | DataKeyNotFound | SourceNotFound | InvalidSource | DataTooLarge
    | InsufficientBalance | DataTooOld | InsufficientSources | InvalidConfidence
    | ProviderNotTrusted | TooManySources | InvalidSignature

  /** One entry of `batch_requests`: the key, its sources, and whether it is premium. */
  datatype BatchEntry = BatchEntry(dataKey: DataKey, sources: seq<SourceId>, premium: bool)

  type DataTable = map<(DataKey, SourceId), OracleData>

  /** The fee of one request. */
  function QueryFee(premium: bool): (fee: Balance)
    ensures fee == PREMIUM_QUERY_FEE <==> premium
    ensures ORACLE_QUERY_FEE <= fee <= PREMIUM_QUERY_FEE
  {
    if premium then PREMIUM_QUERY_FEE else ORACLE_QUERY_FEE
  }

  /** The fee `batch_requests` charges: the saturating `u128` sum of the entries' fees, in order. */
  function BatchFee(entries: seq<BatchEntry>): (fee: u128)
    ensures fee <= FeeSum(entries)
    ensures fee == FeeSum(entries) || fee == U128_MAX
  {
    if entries == [] then 0
    else SatAdd128(BatchFee(entries[..|entries| - 1]), QueryFee(entries[|entries| - 1].premium))
  }

  /** The plain sum of the entries' fees. */
  function FeeSum(entries: seq<BatchEntry>): nat {
    if entries == [] then 0 else FeeSum(entries[..|entries| - 1]) + QueryFee(entries[|entries| - 1].premium)
  }

  /** Saturating step by step is saturating the total once. */
  lemma {:induction false} BatchFeeIsSaturatedSum(entries: seq<BatchEntry>)
    ensures BatchFee(entries) == SatU128(FeeSum(entries))
  {
    if entries != [] {
      BatchFeeIsSaturatedSum(entries[..|entries| - 1]);
    }
  }

  /** The sources that reported a value for `key`. */
  function SourcesOf(data: DataTable, key: DataKey): set<SourceId> {
    set k | k in data && k.0 == key :: k.1
  }

  /** The values the sources in `order` reported for `key`, in that order. */
  function Values(data: DataTable, key: DataKey, order: seq<SourceId>): (values: seq<DataValue>)
    requires forall s | s in order :: (key, s) in data
    ensures |values| == |order|
    ensures forall i | 0 <= i < |order| :: values[i] == data[(key, order[i])].value
  {
    if order == [] then []
    else Values(data, key, order[..|order| - 1]) + [data[(key, order[|order| - 1])].value]
  }

  /** The sum of the confidences the sources in `order` reported for `key`. */
  function ConfidenceSum(data: DataTable, key: DataKey, order: seq<SourceId>): nat
    requires forall s | s in order :: (key, s) in data
  {
    if order == [] then 0
    else ConfidenceSum(data, key, order[..|order| - 1]) + data[(key, order[|order| - 1])].confidence
  }

  /** Visiting one more source appends its value and adds its confidence. */
  lemma VisitSource(data: DataTable, key: DataKey, order: seq<SourceId>, s: SourceId)
    requires forall x | x in order :: (key, x) in data
    requires (key, s) in data
    ensures Values(data, key, order + [s]) == Values(data, key, order) + [data[(key, s)].value]
    ensures ConfidenceSum(data, key, order + [s]) == ConfidenceSum(data, key, order) + data[(key, s)].confidence
  {
    assert (order + [s])[..|order|] == order;
  }

  /** Confidences within 0..100 sum to at most 100 per source. */
  lemma {:induction false} ConfidenceSumBound(data: DataTable, key: DataKey, order: seq<SourceId>)
    requires forall s | s in order :: (key, s) in data
    requires forall k | k in data :: data[k].confidence <= 100
    ensures ConfidenceSum(data, key, order) <= 100 * |order|
  {
    if order != [] {
      ConfidenceSumBound(data, key, order[..|order| - 1]);
    }
  }

  /** `(total_confidence / source_count) as u8`. */
  function AverageConfidence(total: u32, count: u32): u8
    requires count > 0
  {
    TruncU8(total / count)
  }

  /**
   * The floor of the mean of confidences within 0..100 is within 0..100, even
   * when the `u32` sum and count saturate, so the cast to `u8` loses nothing.
   */
  lemma AverageWithinPercent(sum: nat, n: nat)
    requires n >= 1 && sum <= 100 * n
    ensures SatU32(sum) / SatU32(n) <= 100
    ensures AverageConfidence(SatU32(sum), SatU32(n)) == SatU32(sum) / SatU32(n)
  {
    var t, c := SatU32(sum), SatU32(n);
    if n >= U32_MAX {
      assert c == U32_MAX && t <= c;
      assert t <= 100 * c;
    } else {
      assert c == n && t <= sum;
    }
    DivAtMost(t, c, 100);
    var q := t / c;
    SmallMod(q, U8_MAX + 1);
  }

  /** A source reported for `key` exactly when the table holds an entry for the pair. */
  lemma SourcesOfMembers(data: DataTable, key: DataKey)
    ensures forall s :: s in SourcesOf(data, key) <==> (key, s) in data
  {
    forall s | (key, s) in data ensures s in SourcesOf(data, key) {
      var k := (key, s);
      assert k in data && k.0 == key;
    }
  }

  /** `order` lists every source of `key` exactly once. */
  ghost predicate Enumerates(order: seq<SourceId>, data: DataTable, key: DataKey) {
    && NoDup(order)
    && (forall s | s in order :: (key, s) in data)
    && (forall s | s in SourcesOf(data, key) :: s in order)
  }

  /** An enumeration has one entry per source. */
  lemma EnumerationSize(order: seq<SourceId>, data: DataTable, key: DataKey)
    requires Enumerates(order, data, key)
    ensures |order| == |SourcesOf(data, key)|
  {
    DistinctSize(order);
    assert (set x | x in order) == SourcesOf(data, key);
  }

  /**
   * What `try_aggregate_data` stores for `key` when the sources are visited in
   * `order`: the first value, the saturated count, the mean confidence, and
   * every value in visiting order.
   */
  function Aggregate(data: DataTable, key: DataKey, order: seq<SourceId>, now: BlockNumber): (a: AggregatedData)
    requires Enumerates(order, data, key) && |SourcesOf(data, key)| >= MIN_AGGREGATION_SOURCES
    requires DataValid(data)
    ensures a.sourceCount == SatU32(|SourcesOf(data, key)|) >= MIN_AGGREGATION_SOURCES
    ensures a.dataPoints == Values(data, key, order) && |a.dataPoints| == |SourcesOf(data, key)|
    ensures a.value == data[(key, order[0])].value
    ensures a.confidence == SatU32(ConfidenceSum(data, key, order)) / SatU32(|order|) <= 100
    ensures ConfidenceSum(data, key, order) <= U32_MAX && |order| <= U32_MAX ==>
              a.confidence == ConfidenceSum(data, key, order) / |order|
    ensures a.aggregatedAt == now
  {
    EnumerationSize(order, data, key);
    var values := Values(data, key, order);
    assert forall k | k in data :: data[k].confidence <= 100;
    ConfidenceSumBound(data, key, order);
    AverageWithinPercent(ConfidenceSum(data, key, order), |order|);
    AggregatedData(values[0], SatU32(|order|),
                   AverageConfidence(SatU32(ConfidenceSum(data, key, order)), SatU32(|order|)), now, values)
  }

  /** An aggregate is older than `MaxDataAge` blocks. */
  function Expired(a: AggregatedData, now: BlockNumber): (e: bool)
    ensures e <==> now > a.aggregatedAt + MAX_DATA_AGE
  {
    SatU64(SatSub(now, a.aggregatedAt)) > MAX_DATA_AGE
  }

  /** Every submitted value is within the size limit, its confidence within 0..100, under its own source. */
  ghost predicate DataValid(data: DataTable) {
    forall k | k in data :: data[k].confidence <= 100 && |data[k].value| <= MAX_DATA_SIZE && data[k].source == k.1
  }

  /** Storing a submission that passed validation under its own source keeps the table valid. */
  lemma StoreKeepsDataValid(data: DataTable, key: DataKey, d: OracleData)
    requires DataValid(data) && d.confidence <= 100 && |d.value| <= MAX_DATA_SIZE
    ensures DataValid(data[(key, d.source) := d])
  {
  }

  /** Every aggregate counts at least the minimum number of sources, one data point each, with a percentage confidence. */
  ghost predicate AggregatesValid(aggregated: map<DataKey, AggregatedData>) {
    forall key | key in aggregated ::
      && aggregated[key].confidence <= 100
      && aggregated[key].sourceCount >= MIN_AGGREGATION_SOURCES
      && aggregated[key].sourceCount == SatU32(|aggregated[key].dataPoints|)
  }

  /** Every request is within the source limit and below the counter (or at it, once it saturated). */
  ghost predicate RequestsValid(requests: map<RequestId, OracleRequest>, next: RequestId) {
    forall id | id in requests :: |requests[id].sources| <= MAX_DATA_SOURCES && (id < next || id == next == U64_MAX)
  }

  /** Every source sits under its own id with a percentage reliability. */
  ghost predicate SourcesValid(sources: map<SourceId, DataSource>) {
    forall s | s in sources :: sources[s].reliability <= 100 && sources[s].id == s
  }

  /** `DataSources::get`. */
  function Registered(sources: map<SourceId, DataSource>, id: SourceId): Option<DataSource> {
    if id in sources then Some(sources[id]) else None
  }

  /**
   * The checks of `provide_data`, in order, given the source's registration
   * and whether the caller is a trusted provider.
   */
  function SubmissionError(value: DataValue, confidence: u8, source: Option<DataSource>, trusted: bool)
    : (e: Option<Error>)
    ensures e == Some(DataTooLarge) <==> |value| > MAX_DATA_SIZE
    ensures e == Some(InvalidConfidence) <==> |value| <= MAX_DATA_SIZE && confidence > 100
    ensures e == Some(SourceNotFound) <==> |value| <= MAX_DATA_SIZE && confidence <= 100 && source.None?
    ensures e == Some(InvalidSource) <==>
              |value| <= MAX_DATA_SIZE && confidence <= 100 && source.Some? && !source.value.active
    ensures e == Some(ProviderNotTrusted) <==>
              && |value| <= MAX_DATA_SIZE && confidence <= 100 && source.Some? && source.value.active
              && confidence > TRUSTED_CONFIDENCE && !trusted
    ensures e.None? <==>
              && |value| <= MAX_DATA_SIZE && confidence <= 100 && source.Some? && source.value.active
              && (confidence > TRUSTED_CONFIDENCE ==> trusted)
  {
    if |value| > MAX_DATA_SIZE then Some(DataTooLarge)
    else if confidence > 100 then Some(InvalidConfidence)
    else if source.None? then Some(SourceNotFound)
    else if !source.value.active then Some(InvalidSource)
    else if confidence > TRUSTED_CONFIDENCE && !trusted then Some(ProviderNotTrusted)
    else None
  }

  /**
   * The loop of `batch_requests`: queues one request per entry, numbering them
   * from `next`, and sums the fees; it stops at the first entry naming too many
   * sources.
   */
  method QueueBatch(requests: map<RequestId, OracleRequest>, next: RequestId, who: AccountId,
                    entries: seq<BatchEntry>, now: BlockNumber)
    returns (queued: bool, pending: map<RequestId, OracleRequest>, last: RequestId, requestCount: u32, totalFee: u128)
    ensures !queued <==> exists i | 0 <= i < |entries| :: |entries[i].sources| > MAX_DATA_SOURCES
    ensures queued ==>
              && (pending, last) == Enqueue(requests, next, who, entries, now)
              && requestCount == SatU32(|entries|)
              && totalFee == BatchFee(entries)
  {
    pending, last := requests, next;
    totalFee := 0;
    requestCount := 0;
    var i := 0;
    while i < |entries|
      invariant 0 <= i <= |entries|
      invariant forall j | 0 <= j < i :: |entries[j].sources| <= MAX_DATA_SOURCES
      invariant (pending, last) == Enqueue(requests, next, who, entries[..i], now)
      invariant totalFee == BatchFee(entries[..i])
      invariant requestCount == SatU32(i)
    {
      var entry := entries[i];
      if |entry.sources| > MAX_DATA_SOURCES {
        return false, pending, last, requestCount, totalFee;
      }
      assert entries[..i + 1][..i] == entries[..i];
      totalFee := SatAdd128(totalFee, QueryFee(entry.premium));
      var requestId := last;
      last := SatAdd64(requestId, 1);
      pending := pending[requestId := OracleRequest(who, entry.dataKey, entry.sources, now, entry.premium, None)];
      SatAdd32OfSat(i, 1);
      requestCount := SatAdd32(requestCount, 1);
      i := i + 1;
    }
    assert entries[..i] == entries;
    queued := true;
  }

  class OraclePallet {
    var requests: map<RequestId, OracleRequest>
    var data: DataTable
    var aggregated: map<DataKey, AggregatedData>
    var sources: map<SourceId, DataSource>
    var trustedProviders: map<AccountId, u8>
    var nextRequestId: RequestId
    var balances: Balances
    /** The pallet account that collects fees and pays rewards. */
    const account: AccountId

    /**
     * Scores are percentages, every stored value respects the size limit and
     * sits under its own source, aggregates have at least the minimum number
     * of sources, requests are within the source limit and below the counter.
     */
    ghost predicate Valid()
      reads this
    {
      && DataValid(data)
      && AggregatesValid(aggregated)
      && RequestsValid(requests, nextRequestId)
      && SourcesValid(sources)
      && (forall p | p in trustedProviders :: trustedProviders[p] <= 100)
    }

    constructor (initialBalances: Balances, palletAccount: AccountId)
      ensures requests == map[] && data == map[] && aggregated == map[]
      ensures sources == map[] && trustedProviders == map[] && nextRequestId == 0
      ensures balances == initialBalances && account == palletAccount
      ensures Valid()
    {
      requests, data, aggregated := map[], map[], map[];
      sources, trustedProviders := map[], map[];
      nextRequestId := 0;
      balances := initialBalances;
      account := palletAccount;
    }

    /** `request_data`: checks the source limit, charges the fee, stores the request under the next id. */
    method RequestData(who: AccountId, dataKey: DataKey, requestSources: seq<SourceId>, premium: bool,
                       callback: Option<Bytes>, now: BlockNumber)
      returns (r: Outcome<Error>)
      requires Valid()
      modifies this
      ensures Valid()
      ensures r == Fail(TooManySources) <==> |requestSources| > MAX_DATA_SOURCES
      ensures r == Fail(InsufficientBalance) <==>
                |requestSources| <= MAX_DATA_SOURCES && BalanceOf(old(balances), who) < QueryFee(premium)
      ensures r.Pass? <==>
                |requestSources| <= MAX_DATA_SOURCES && BalanceOf(old(balances), who) >= QueryFee(premium)
      ensures r.Fail? ==> unchanged(this)
      ensures r.Pass? ==>
                && requests == old(requests)[old(nextRequestId) :=
                                               OracleRequest(who, dataKey, requestSources, now, premium, callback)]
                && nextRequestId == SatAdd64(old(nextRequestId), 1)
                && balances == Transfer(old(balances), who, account, QueryFee(premium)).value
                && data == old(data) && aggregated == old(aggregated)
                && sources == old(sources) && trustedProviders == old(trustedProviders)
    {
      if |requestSources| > MAX_DATA_SOURCES {
        return Fail(TooManySources);
      }
      var paid := Transfer(balances, who, account, QueryFee(premium));
      if paid.None? {
        return Fail(InsufficientBalance);
      }
      balances := paid.value;
      var requestId := nextRequestId;
      nextRequestId := SatAdd64(requestId, 1);
      requests := requests[requestId := OracleRequest(who, dataKey, requestSources, now, premium, callback)];
      r := Pass;
    }

    /**
     * `provide_data`: validates the submission, stores it under (key, source)
     * replacing any earlier one, pays the reward when the pallet account can,
     * and re-aggregates the key.
     */
    method ProvideData(who: AccountId, dataKey: DataKey, source: SourceId, value: DataValue, confidence: u8,
                       signature: Option<Bytes>, now: BlockNumber)
      returns (r: Outcome<Error>)
      requires Valid()
      modifies this`data, this`balances, this`aggregated
      ensures Valid()
      ensures var e := SubmissionError(value, confidence, Registered(old(sources), source), who in old(trustedProviders));
        (r.Fail? <==> e.Some?) && (r.Fail? ==> r.error == e.value && unchanged(this))
      ensures r.Pass? ==>
                && data == old(data)[(dataKey, source) := OracleData(value, who, now, source, confidence, signature)]
                && balances == (match Transfer(old(balances), account, who, ORACLE_REWARD)
                                case None => old(balances)
                                case Some(b) => b)
                && (|SourcesOf(data, dataKey)| < MIN_AGGREGATION_SOURCES ==> aggregated == old(aggregated))
                && (|SourcesOf(data, dataKey)| >= MIN_AGGREGATION_SOURCES ==>
                      exists order | Enumerates(order, data, dataKey) ::
                        aggregated == old(aggregated)[dataKey := Aggregate(data, dataKey, order, now)])
    {
      var error := SubmissionError(value, confidence, Registered(sources, source), who in trustedProviders);
      if error.Some? {
        return Fail(error.value);
      }
      var submitted := OracleData(value, who, now, source, confidence, signature);
      StoreKeepsDataValid(data, dataKey, submitted);
      data := data[(dataKey, source) := submitted];
      var rewarded := Transfer(balances, account, who, ORACLE_REWARD);
      if rewarded.Some? {
        balances := rewarded.value;
      }
      TryAggregate(dataKey, now);
      r := Pass;
    }

    /**
     * `try_aggregate_data`: visits the key's sources in storage order, and
     * stores an aggregate only when at least `MinAggregationSources` reported.
     */
    method TryAggregate(dataKey: DataKey, now: BlockNumber)
      requires DataValid(data) && AggregatesValid(aggregated)
      modifies this`aggregated
      ensures AggregatesValid(aggregated)
      ensures |SourcesOf(data, dataKey)| < MIN_AGGREGATION_SOURCES ==> aggregated == old(aggregated)
      ensures |SourcesOf(data, dataKey)| >= MIN_AGGREGATION_SOURCES ==>
                exists order | Enumerates(order, data, dataKey) ::
                  aggregated == old(aggregated)[dataKey := Aggregate(data, dataKey, order, now)]
    {
      var dataPoints, totalConfidence, sourceCount, order := CollectData(dataKey);
      EnumerationSize(order, data, dataKey);
      if sourceCount >= MIN_AGGREGATION_SOURCES {
        var aggregatedValue := dataPoints[0];
        var averageConfidence := AverageConfidence(totalConfidence, sourceCount);
        aggregated := aggregated[dataKey := AggregatedData(aggregatedValue, sourceCount, averageConfidence, now,
                                                           dataPoints)];
        assert aggregated == old(aggregated)[dataKey := Aggregate(data, dataKey, order, now)];
      }
    }

    /**
     * The loop of `try_aggregate_data` over the key's entries: their values in
     * visiting order, and the saturating `u32` sum of confidences and count.
     */
    method CollectData(dataKey: DataKey)
      returns (dataPoints: seq<DataValue>, totalConfidence: u32, sourceCount: u32, ghost order: seq<SourceId>)
      ensures Enumerates(order, data, dataKey)
      ensures dataPoints == Values(data, dataKey, order)
      ensures totalConfidence == SatU32(ConfidenceSum(data, dataKey, order))
      ensures sourceCount == SatU32(|order|)
    {
      var remaining := SourcesOf(data, dataKey);
      ghost var all := remaining;
      SourcesOfMembers(data, dataKey);
      order := [];
      dataPoints := [];
      totalConfidence := 0;
      sourceCount := 0;
      while remaining != {}
        invariant remaining <= all
        invariant NoDup(order)
        invariant forall s | s in order :: s in all && s !in remaining
        invariant forall s | s in all :: s in order || s in remaining
        invariant dataPoints == Values(data, dataKey, order)
        invariant totalConfidence == SatU32(ConfidenceSum(data, dataKey, order))
        invariant sourceCount == SatU32(|order|)
        decreases remaining
      {
        var sourceId :| sourceId in remaining;
        var entry := data[(dataKey, sourceId)];
        VisitSource(data, dataKey, order, sourceId);
        dataPoints := dataPoints + [entry.value];
        SatAdd32OfSat(ConfidenceSum(data, dataKey, order), entry.confidence);
        totalConfidence := SatAdd32(totalConfidence, entry.confidence);
        SatAdd32OfSat(|order|, 1);
        sourceCount := SatAdd32(sourceCount, 1);
        order := order + [sourceId];
        remaining := remaining - {sourceId};
      }
    }

    /** `register_source` (root only): a reliability within 0..100 registers an active source. */
    method RegisterSource(sourceId: SourceId, name: Bytes, endpoint: Bytes, reliability: u8)
      returns (r: Outcome<Error>)
      requires Valid()
      modifies this
      ensures Valid()
      ensures r.Fail? <==> reliability > 100
      ensures r.Fail? ==> r.error == InvalidConfidence && unchanged(this)
      ensures r.Pass? ==>
                && sources == old(sources)[sourceId := DataSource(sourceId, name, endpoint, reliability, true)]
                && requests == old(requests) && data == old(data) && aggregated == old(aggregated)
                && trustedProviders == old(trustedProviders) && nextRequestId == old(nextRequestId)
                && balances == old(balances)
    {
      if reliability > 100 {
        return Fail(InvalidConfidence);
      }
      sources := sources[sourceId := DataSource(sourceId, name, endpoint, reliability, true)];
      r := Pass;
    }

    /** `add_trusted_provider` (root only): a reputation within 0..100 trusts the provider. */
    method AddTrustedProvider(provider: AccountId, reputation: u8) returns (r: Outcome<Error>)
      requires Valid()
      modifies this
      ensures Valid()
      ensures r.Fail? <==> reputation > 100
      ensures r.Fail? ==> r.error == InvalidConfidence && unchanged(this)
      ensures r.Pass? ==>
                && trustedProviders == old(trustedProviders)[provider := reputation]
                && requests == old(requests) && data == old(data) && aggregated == old(aggregated)
                && sources == old(sources) && nextRequestId == old(nextRequestId) && balances == old(balances)
    {
      if reputation > 100 {
        return Fail(InvalidConfidence);
      }
      trustedProviders := trustedProviders[provider := reputation];
      r := Pass;
    }

    /**
     * `batch_requests`: stores one request per entry under consecutive ids and
     * then charges the saturating sum of their fees; an entry with too many
     * sources or an unpaid total rolls the whole call back. Also returns the
     * request count and the total fee the pallet reports.
     */
    method BatchRequests(who: AccountId, entries: seq<BatchEntry>, now: BlockNumber)
      returns (r: Outcome<Error>, requestCount: u32, totalFee: u128)
      requires Valid()
      modifies this
      ensures Valid()
      ensures r == Fail(TooManySources) <==> exists i | 0 <= i < |entries| :: |entries[i].sources| > MAX_DATA_SOURCES
      ensures r == Fail(InsufficientBalance) <==>
                && (forall i | 0 <= i < |entries| :: |entries[i].sources| <= MAX_DATA_SOURCES)
                && BalanceOf(old(balances), who) < BatchFee(entries)
      ensures r.Pass? <==>
                && (forall i | 0 <= i < |entries| :: |entries[i].sources| <= MAX_DATA_SOURCES)
                && BalanceOf(old(balances), who) >= BatchFee(entries)
      ensures r.Fail? ==> unchanged(this)
      ensures r.Pass? ==>
                && (requests, nextRequestId) == Enqueue(old(requests), old(nextRequestId), who, entries, now)
                && requestCount == SatU32(|entries|)
                && totalFee == BatchFee(entries)
                && balances == Transfer(old(balances), who, account, BatchFee(entries)).value
                && data == old(data) && aggregated == old(aggregated)
                && sources == old(sources) && trustedProviders == old(trustedProviders)
    {
      // The requests are queued on a working copy of the two storage items,
      // which becomes visible only when the whole call succeeds.
      var queued, pending, next;
      queued, pending, next, requestCount, totalFee := QueueBatch(requests, nextRequestId, who, entries, now);
      if !queued {
        return Fail(TooManySources), requestCount, totalFee;
      }
      var paid := Transfer(balances, who, account, totalFee);
      if paid.None? {
        return Fail(InsufficientBalance), requestCount, totalFee;
      }
      EnqueueKeepsRequestsValid(requests, nextRequestId, who, entries, now);
      requests, nextRequestId := pending, next;
      balances := paid.value;
      r := Pass;
    }

    /**
     * `cleanup_expired_data`: for each listed key, drops its aggregate when it
     * is older than `MaxDataAge` blocks, and drops every submitted value for
     * the key whatever its age.
     */
    method CleanupExpiredData(dataKeys: seq<DataKey>, now: BlockNumber)
      requires Valid()
      modifies this`data, this`aggregated
      ensures Valid()
      ensures aggregated == ExpireAggregates(old(aggregated), dataKeys, now)
      ensures data == DropData(old(data), dataKeys)
    {
      var i := 0;
      while i < |dataKeys|
        invariant 0 <= i <= |dataKeys|
        invariant aggregated == ExpireAggregates(old(aggregated), dataKeys[..i], now)
        invariant data == DropData(old(data), dataKeys[..i])
      {
        var dataKey := dataKeys[i];
        assert dataKeys[..i + 1][..i] == dataKeys[..i];
        if dataKey in aggregated && Expired(aggregated[dataKey], now) {
          aggregated := aggregated - {dataKey};
        }
        data := map k | k in data && k.0 != dataKey :: data[k];
        i := i + 1;
      }
      assert dataKeys[..i] == dataKeys;
      ExpireAggregatesSpec(old(aggregated), dataKeys, now);
      DropDataSpec(old(data), dataKeys);
    }

    /**
     * `get_latest_data`: the aggregated value of `key`, if any. What that value
     * is comes from `ProvideData` and `TryAggregate`, whose contracts give it.
     */
    function LatestData(dataKey: DataKey): (r: Option<DataValue>)
      reads this
      ensures r.Some? <==> dataKey in aggregated
      ensures r.Some? ==> r.value == aggregated[dataKey].value
    {
      if dataKey in aggregated then Some(aggregated[dataKey].value) else None
    }

    /**
     * `get_data_with_confidence`: the aggregated value of `key` and its
     * confidence, if any; `Aggregate` states what the confidence is.
     */
    function DataWithConfidence(dataKey: DataKey): (r: Option<(DataValue, u8)>)
      reads this
      ensures r.Some? <==> LatestData(dataKey).Some?
      ensures r.Some? ==> r.value.0 == LatestData(dataKey).value && r.value.1 == aggregated[dataKey].confidence
    {
      if dataKey in aggregated then Some((aggregated[dataKey].value, aggregated[dataKey].confidence)) else None
    }
  }

  /** The requests table and counter after storing `entries`, one after another, from `next` on. */
  function Enqueue(requests: map<RequestId, OracleRequest>, next: RequestId, who: AccountId,
                   entries: seq<BatchEntry>, now: BlockNumber): (map<RequestId, OracleRequest>, RequestId)
  {
    if entries == [] then (requests, next)
    else
      var (front, id) := Enqueue(requests, next, who, entries[..|entries| - 1], now);
      var e := entries[|entries| - 1];
      (front[id := OracleRequest(who, e.dataKey, e.sources, now, e.premium, None)], SatAdd64(id, 1))
  }

  /**
   * Away from saturation, a batch takes the ids `next .. next + |entries| - 1`,
   * the i-th entry under `next + i`, and leaves earlier requests in place.
   */
  lemma {:induction false} EnqueueConsecutive(requests: map<RequestId, OracleRequest>, next: RequestId,
                                              who: AccountId, entries: seq<BatchEntry>, now: BlockNumber)
    requires next + |entries| <= U64_MAX
    ensures var (t, n) := Enqueue(requests, next, who, entries, now);
      && n == next + |entries|
      && (forall q: RequestId | next <= q < n ::
            q in t && t[q] == OracleRequest(who, entries[q - next].dataKey, entries[q - next].sources, now,
                                            entries[q - next].premium, None))
      && (forall id | id in requests && !(next <= id < n) :: id in t && t[id] == requests[id])
  {
    if entries != [] {
      EnqueueConsecutive(requests, next, who, entries[..|entries| - 1], now);
    }
  }

  /** Requests stored by a batch that passed the source check keep the table's invariant. */
  lemma {:induction false} EnqueueKeepsRequestsValid(requests: map<RequestId, OracleRequest>, next: RequestId,
                                                     who: AccountId, entries: seq<BatchEntry>, now: BlockNumber)
    requires RequestsValid(requests, next)
    requires forall i | 0 <= i < |entries| :: |entries[i].sources| <= MAX_DATA_SOURCES
    ensures RequestsValid(Enqueue(requests, next, who, entries, now).0, Enqueue(requests, next, who, entries, now).1)
  {
    if entries != [] {
      var front := entries[..|entries| - 1];
      EnqueueKeepsRequestsValid(requests, next, who, front, now);
      var (t0, n0) := Enqueue(requests, next, who, front, now);
      var e := entries[|entries| - 1];
      var t := t0[n0 := OracleRequest(who, e.dataKey, e.sources, now, e.premium, None)];
      var n := SatAdd64(n0, 1);
      assert Enqueue(requests, next, who, entries, now) == (t, n);
      forall id | id in t ensures |t[id].sources| <= MAX_DATA_SOURCES && (id < n || id == n == U64_MAX) {
        if id != n0 {
          assert id in t0;
        }
      }
    }
  }

  /** The aggregates left after expiring the listed keys one after another. */
  function ExpireAggregates(aggregated: map<DataKey, AggregatedData>, keys: seq<DataKey>, now: BlockNumber)
    : map<DataKey, AggregatedData>
  {
    if keys == [] then aggregated
    else
      var m := ExpireAggregates(aggregated, keys[..|keys| - 1], now);
      var key := keys[|keys| - 1];
      if key in m && Expired(m[key], now) then m - {key} else m
  }

  /** The submitted values left after clearing the listed keys one after another. */
  function DropData(data: DataTable, keys: seq<DataKey>): DataTable {
    if keys == [] then data
    else
      var m := DropData(data, keys[..|keys| - 1]);
      map k | k in m && k.0 != keys[|keys| - 1] :: m[k]
  }

  /** An aggregate is dropped exactly when its key is listed and it has expired; the others stay as they were. */
  lemma {:induction false} ExpireAggregatesSpec(aggregated: map<DataKey, AggregatedData>, keys: seq<DataKey>,
                                                now: BlockNumber)
    ensures var m := ExpireAggregates(aggregated, keys, now);
      && (forall key :: key in m <==> key in aggregated && !(key in keys && Expired(aggregated[key], now)))
      && (forall key | key in m :: m[key] == aggregated[key])
  {
    if keys != [] {
      ExpireAggregatesSpec(aggregated, keys[..|keys| - 1], now);
      assert forall key :: key in keys <==> key in keys[..|keys| - 1] || key == keys[|keys| - 1];
    }
  }

  /** Every submitted value under a listed key is dropped, whatever its age; the others stay as they were. */
  lemma {:induction false} DropDataSpec(data: DataTable, keys: seq<DataKey>)
    ensures var m := DropData(data, keys);
      && (forall k :: k in m <==> k in data && k.0 !in keys)
      && (forall k | k in m :: m[k] == data[k])
  {
    if keys != [] {
      DropDataSpec(data, keys[..|keys| - 1]);
      assert forall key :: key in keys <==> key in keys[..|keys| - 1] || key == keys[|keys| - 1];
    }
  }
}
