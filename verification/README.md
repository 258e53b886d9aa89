# A verified model of the Netchain runtime core

This project is a Dafny model of the sequential core of the Netchain Substrate runtime and of its key-value
storage contract, with proofs of what those components promise. It models five components:

- **IBC core pallet.** Light clients, connections and channels are created under ids drawn from three
  counters (`client-N`, `connection-N`, `channel-N`). Packets are sent with a commitment stored under
  (port, sequence), received in exact sequence order with a `"success"` acknowledgement, and resolved by
  acknowledgement or timeout. `IbcSpec` writes each dispatchable as a transition function on a `State` value.
  A failing call returns the state it was given, because FRAME rolls a failing dispatchable back as a whole.
  `IbcProps` proves the effect of each call and an invariant that every reachable state keeps: fresh ids
  within capacity, no frozen client, well-formed channels, and commitments only for issued sequences.
  `IbcPallet.IbcCore` is the pallet as an object whose fields are the storage items. Each of its methods
  is proved to end in exactly the outcome and state that the transition function gives.
- **Oracle pallet** (`Oracle`). Covers registered sources, trusted providers, a (data key, source) table
  of submitted values, and per-key aggregates built once three sources have reported. It also covers paid
  single and batch requests, and the expiry of aggregates.
- **Sharding pallet** (`Sharding`). Covers four shards with validator sets, a per-shard FIFO queue of
  cross-shard transactions, performance metrics, and the hash-based assignment of accounts to shards.
- **Parallel-executor pallet, on-chain part** (`ParallelExecutor`). Covers the worker count, pending
  transaction batches keyed by block number, and execution results, conflicts and metrics.
- **`netchain_storage` ink! contract** (`Netchain`). A string key-value store with length limits, a
  per-caller quota of new keys and a global entry counter.

The modules share a few building blocks:

- `Common` holds Rust's unsigned integers as subset types of `nat`. Their saturating, wrapping and
  truncating operations are written out.
- `Ledger` is the external currency reduced to a balance map. A transfer or withdrawal that cannot be paid
  fails, and the pallet call that made it then fails as a whole.

Constants are the runtime configuration's values. IBC: 100 clients, 200 connections, 500 channels, fees 10
and 5. Oracle: 10 sources, 1024 bytes, fees 2 and 5, reward 1, 1200 blocks, 3 sources. Sharding: 25
validators, 25 000 TPS per shard, fee 10. Block numbers are `u32`. Balances are unbounded naturals, although the runtime's
`Balance` is `u128` (see "## Left out").

Where the code and its design description differ, the model follows the code:

- `update_client` does not look at `frozen`. This is harmless, because nothing ever sets it
  (`IbcProps.UpdateClientIgnoresFrozen`, and the invariant has no frozen client).
- `recv_packet` checks only the timeout height, never `timeout_timestamp`
  (`IbcProps.RecvIgnoresTimeoutTimestamp`).
- Commitments are keyed by port and sequence while sequences are counted per channel. Two channels on one
  port therefore overwrite each other's commitments (`IbcProps.SamePortCommitmentCollision`).
- `acknowledge_packet` and `timeout_packet` ignore the channel id (`IbcProps.AckAndTimeoutAgree`,
  `IbcProps.ResolveOnce`).
- Connections and channels reach `Open` only through a direct storage write, as the interoperability test
  does. The model makes that write explicit as `SetConnectionState` / `SetChannelState`.
- The parallel-executor pallet is not configured in the runtime. Its `MaxWorkers` is taken to be its own
  `MAX_WORKERS` constant, 16.
- Multiplications on `u32` are modelled as wrapping, as in a release build without overflow checks.
  `as u8` / `as u32` casts keep the low bits.

## Model

| member | source | states |
|---|---|---|
| Ledger.Transfer | pallets/ibc-core/src/lib.rs:325-326 | a currency transfer succeeds exactly when the payer holds the amount; it then moves exactly that amount from payer to payee and leaves every other account's balance as it was |
| Ledger.Withdraw | pallets/sharding/src/lib.rs:341-348 | a withdrawal succeeds exactly when the account holds the amount, and then lowers its balance by exactly that amount, leaving every other account's balance as it was |
| Common.Percent | pallets/sharding/src/lib.rs:440-448 | `((part*100)/max(whole,1)) as u8` on wrapping `u32` is the exact floor percentage, at most 100, whenever the product does not wrap and the part is within the whole |
| IbcSpec.DecimalInjective | pallets/ibc-core/src/lib.rs:329 | distinct counter values print as distinct decimal strings |
| IbcSpec.FormatIdInjective | pallets/ibc-core/src/lib.rs:329 | `format!("client-{}", n)` (and likewise for connections and channels) gives distinct ids for distinct counters |
| IbcSpec.NotInIdRange | pallets/ibc-core/src/lib.rs:397-398 | an id formatted from a counter value at or above `n` is none of the ids handed out below `n` |
| IbcSpec.FreshId | pallets/ibc-core/src/lib.rs:439-440 | the id formatted from the current counter is fresh, and bumping the counter adds exactly that id to the handed-out range |
| IbcSpec.InIdRange | pallets/ibc-core/src/lib.rs:329-330 | an id is in the handed-out range iff it is formatted from some counter value below `n` |
| IbcSpec.CreateClient | pallets/ibc-core/src/lib.rs:311-348 | the model of `create_client`; a failing call leaves the state as it was |
| IbcSpec.UpdateClient | pallets/ibc-core/src/lib.rs:353-376 | the model of `update_client`; a failing call leaves the state as it was |
| IbcSpec.ConnectionOpenInit | pallets/ibc-core/src/lib.rs:381-415 | the model of `connection_open_init`; a failing call leaves the state as it was |
| IbcSpec.ChannelOpenInit | pallets/ibc-core/src/lib.rs:420-461 | the model of `channel_open_init`; a failing call leaves the state as it was |
| IbcSpec.SendPacket | pallets/ibc-core/src/lib.rs:466-520 | the model of `send_packet`; a failing call leaves the state as it was |
| IbcSpec.RecvPacket | pallets/ibc-core/src/lib.rs:525-564 | the model of `recv_packet`; a failing call leaves the state as it was |
| IbcSpec.AcknowledgePacket | pallets/ibc-core/src/lib.rs:569-591 | the model of `acknowledge_packet`; a failing call leaves the state as it was |
| IbcSpec.TimeoutPacket | pallets/ibc-core/src/lib.rs:596-617 | the model of `timeout_packet`; a failing call leaves the state as it was |
| IbcSpec.SetConnectionState | tests/interoperability_test.rs:263-267 | the direct connection write; it fails on a missing connection and then leaves the state as it was |
| IbcSpec.SetChannelState | tests/interoperability_test.rs:279-284 | the direct channel write; it fails on a missing channel and then leaves the state as it was |
| IbcSpec.Apply | pallets/ibc-core/src/lib.rs:306-618 | one call to any dispatchable; a failure changes nothing, the three id counters never go back and the pallet account stays the same |
| IbcSpec.Run | pallets/ibc-core/src/lib.rs:306-618 | a sequence of calls, one after another; over the whole sequence the id counters never go back and the pallet account stays the same |
| IbcProps.IdRangeSize | pallets/ibc-core/src/lib.rs:329-330 | a counter at `n` has handed out exactly `n` distinct ids |
| IbcProps.CountsMatchCounters | pallets/ibc-core/src/lib.rs:226-237 | in every valid state the number of clients, connections, channel ids and channels equals its counter and is within `MaxClients`/`MaxConnections`/`MaxChannels` |
| IbcProps.ChannelIdsUnique | pallets/ibc-core/src/lib.rs:435-455 | a channel id lives under exactly one port |
| IbcProps.CreateClientEffect | pallets/ibc-core/src/lib.rs:311-348 | `create_client` fails with `MaxClientsReached` iff the counter is at capacity, then with the fee error iff the caller cannot pay; on success it adds a non-frozen client at the fresh `client-N` without touching the others, bumps the counter and moves the fee to the pallet, and every other table, counter and balance stays as it was; a failure changes nothing |
| IbcProps.UpdateClientEffect | pallets/ibc-core/src/lib.rs:353-376 | `update_client` fails with `ClientNotFound` iff the client is missing, then with `InvalidClientState` iff the new height is not strictly higher; on success the state differs from the old one only in that client's `latest_height`; a failure changes nothing |
| IbcProps.UpdateClientIgnoresFrozen | pallets/ibc-core/src/lib.rs:361-370 | freezing a client would not change the outcome of `update_client` |
| IbcProps.ConnectionOpenInitEffect | pallets/ibc-core/src/lib.rs:381-415 | `connection_open_init` fails with `ClientNotFound` / `MaxConnectionsReached` exactly in those cases; on success it stores an `Init` connection on that client under a fresh `connection-N`, keeps every existing connection, bumps the counter and leaves everything else as it was; a failure changes nothing |
| IbcProps.ChannelOpenInitEffect | pallets/ibc-core/src/lib.rs:420-461 | `channel_open_init` fails with `ConnectionNotFound`, `InvalidConnectionState` and `MaxChannelsReached`, each exactly when that check is the first to fail; on success it stores an `Init` channel with all three sequences at 1 under (port, fresh `channel-N`), keeps every existing channel, bumps the counter and leaves everything else as it was; a failure changes nothing |
| IbcProps.FreshChannelId | pallets/ibc-core/src/lib.rs:435-455 | the next channel id is used under no port yet |
| IbcProps.SendPacketEffect | pallets/ibc-core/src/lib.rs:466-520 | `send_packet` fails with the fee error first, then with `ChannelNotFound` or `InvalidChannelState`, each exactly when that check is the first to fail; on success it stores the packet's hash at (source port, `next_sequence_send`), advances only that counter of only that channel by one, saturating, moves the fee, and changes nothing else; a failure changes nothing |
| IbcProps.SendOnOpenChannel | pallets/ibc-core/src/lib.rs:479-507 | on an open channel with a paying caller, `send_packet` succeeds, changes only that channel's send counter (by exactly +1), adds exactly one commitment and charges exactly the fee |
| IbcProps.SendManyAdvances | pallets/ibc-core/src/lib.rs:503-507 | `k` sends on one channel advance its send counter by exactly `k` and charge `k` fees |
| IbcProps.SendManySequences | pallets/ibc-core/src/lib.rs:488-503 | the `k` sends commit consecutive sequences `n .. n+k-1`, each to the hash of the packet carrying that sequence and the matching payload |
| IbcProps.SendManyKeepsEarlierCommitments | pallets/ibc-core/src/lib.rs:503 | those sends leave every commitment on other ports, or below the first new sequence, as it was |
| IbcProps.SamePortCommitmentCollision | pallets/ibc-core/src/lib.rs:209-213 | two open channels on one port at the same send sequence: the second send overwrites the first one's commitment |
| IbcProps.RecvPacketEffect | pallets/ibc-core/src/lib.rs:525-564 | `recv_packet` fails with `ChannelNotFound`, `InvalidChannelState`, `InvalidSequence` (any sequence other than `next_sequence_recv`) and `PacketTimeout` (a set timeout height reached), each exactly when that check is the first to fail; on success it advances only that channel's receive counter, stores ack `"success"` at (destination port, sequence) and changes nothing else; a failure changes nothing |
| IbcProps.TimeoutEnforced | pallets/ibc-core/src/lib.rs:540-543 | a packet whose timeout height is reached is never received; it fails with `PacketTimeout` exactly when it would otherwise have been accepted |
| IbcProps.RecvIgnoresTimeoutTimestamp | pallets/ibc-core/src/lib.rs:540-543 | the packet's `timeout_timestamp` has no effect on `recv_packet` |
| IbcProps.RecvReplayRejected | pallets/ibc-core/src/lib.rs:537 | receiving the same packet again fails with `InvalidSequence` and changes nothing |
| IbcProps.RecvReplayAcceptedAtSaturation | pallets/ibc-core/src/lib.rs:546 | once `next_sequence_recv` saturates at `u64::MAX`, the same packet is accepted again |
| IbcProps.ResolveOnce | pallets/ibc-core/src/lib.rs:569-617 | acknowledging or timing out a committed (port, sequence) succeeds, removes exactly that commitment and changes nothing else, and any later acknowledgement or timeout of it fails with `PacketNotFound`, whatever channel id is named |
| IbcProps.AckAndTimeoutAgree | pallets/ibc-core/src/lib.rs:579-588 | `acknowledge_packet` and `timeout_packet` have the same outcome and effect, and neither depends on the channel id |
| IbcProps.GenesisInv | pallets/ibc-core/src/lib.rs:186-237 | the empty genesis state satisfies the invariant |
| IbcProps.AddChannelKeepsInv | pallets/ibc-core/src/lib.rs:435-455 | adding a well-formed channel under the next channel id and bumping the counter keeps the invariant |
| IbcProps.ReplaceChannelKeepsInv | pallets/ibc-core/src/lib.rs:503-507 | rewriting a channel with counters that only grow, plus commitments only for issued sequences, keeps the invariant |
| IbcProps.CreateClientKeepsInv | pallets/ibc-core/src/lib.rs:311-348 | `create_client` keeps the invariant |
| IbcProps.UpdateClientKeepsInv | pallets/ibc-core/src/lib.rs:353-376 | `update_client` keeps the invariant |
| IbcProps.ConnectionOpenInitKeepsInv | pallets/ibc-core/src/lib.rs:381-415 | `connection_open_init` keeps the invariant |
| IbcProps.ChannelOpenInitKeepsInv | pallets/ibc-core/src/lib.rs:420-461 | `channel_open_init` keeps the invariant |
| IbcProps.SendPacketKeepsInv | pallets/ibc-core/src/lib.rs:466-520 | `send_packet` keeps the invariant: every commitment is for a sequence already issued on its port |
| IbcProps.RecvPacketKeepsInv | pallets/ibc-core/src/lib.rs:525-564 | `recv_packet` keeps the invariant: every stored acknowledgement is `"success"` |
| IbcProps.ResolvePacketKeepsInv | pallets/ibc-core/src/lib.rs:569-617 | `acknowledge_packet` and `timeout_packet` keep the invariant |
| IbcProps.SetConnectionStateKeepsInv | tests/interoperability_test.rs:263-267 | the direct connection-state write keeps the invariant |
| IbcProps.SetChannelStateKeepsInv | tests/interoperability_test.rs:279-284 | the direct channel-state write keeps the invariant |
| IbcProps.ApplyKeepsInv | pallets/ibc-core/src/lib.rs:311-617 | every call keeps the invariant |
| IbcProps.RunKeepsInv | pallets/ibc-core/src/lib.rs:311-617 | any totally ordered sequence of calls keeps the invariant |
| IbcProps.ReachableWithinCapacity | pallets/ibc-core/src/lib.rs:322 | from genesis, no sequence of calls exceeds the client, connection or channel capacity |
| IbcPallet.IbcCore.constructor | pallets/ibc-core/src/lib.rs:186-237 | the pallet starts with empty tables and counters at 0 |
| IbcPallet.IbcCore.CreateClient | pallets/ibc-core/src/lib.rs:311-348 | the in-place `create_client` ends in exactly `IbcSpec.CreateClient`'s outcome and state and keeps the invariant |
| IbcPallet.IbcCore.UpdateClient | pallets/ibc-core/src/lib.rs:353-376 | likewise for `update_client` |
| IbcPallet.IbcCore.ConnectionOpenInit | pallets/ibc-core/src/lib.rs:381-415 | likewise for `connection_open_init` |
| IbcPallet.IbcCore.ChannelOpenInit | pallets/ibc-core/src/lib.rs:420-461 | likewise for `channel_open_init` |
| IbcPallet.IbcCore.SendPacket | pallets/ibc-core/src/lib.rs:466-520 | likewise for `send_packet` |
| IbcPallet.IbcCore.RecvPacket | pallets/ibc-core/src/lib.rs:525-564 | likewise for `recv_packet` |
| IbcPallet.IbcCore.AcknowledgePacket | pallets/ibc-core/src/lib.rs:569-591 | likewise for `acknowledge_packet` |
| IbcPallet.IbcCore.TimeoutPacket | pallets/ibc-core/src/lib.rs:596-617 | likewise for `timeout_packet` |
| IbcPallet.IbcCore.SetConnectionState | tests/interoperability_test.rs:263-267 | the direct `Connections::insert` of a connection with a new state, as a transition that keeps the invariant |
| IbcPallet.IbcCore.SetChannelState | tests/interoperability_test.rs:279-284 | the direct `Channels::insert` of a channel with a new state, as a transition that keeps the invariant |
| Oracle.QueryFee | pallets/oracle/src/lib.rs:283 | a request costs the premium fee exactly when it is premium, and otherwise the ordinary fee |
| Oracle.BatchFee | pallets/oracle/src/lib.rs:447-449 | the batch fee is never more than the exact sum of the per-request fees, and equals it unless it saturates at `u128::MAX` |
| Oracle.BatchFeeIsSaturatedSum | pallets/oracle/src/lib.rs:447-449 | adding the per-request fees with `saturating_add` one by one equals the exact sum saturated once |
| Oracle.Values | pallets/oracle/src/lib.rs:527-531 | the collected data points are the visited sources' values, one per source, in visiting order |
| Oracle.VisitSource | pallets/oracle/src/lib.rs:527-531 | visiting one more source appends its value and adds its confidence |
| Oracle.ConfidenceSumBound | pallets/oracle/src/lib.rs:529 | confidences within 0..100 sum to at most 100 per source |
| Oracle.AverageWithinPercent | pallets/oracle/src/lib.rs:537 | the floor mean of such confidences is within 0..100 even when the `u32` sum and count saturate, so the `as u8` cast loses nothing |
| Oracle.SourcesOfMembers | pallets/oracle/src/lib.rs:527 | a source is among a key's sources exactly when the table holds an entry for that pair |
| Oracle.EnumerationSize | pallets/oracle/src/lib.rs:527-531 | visiting every source of a key once counts exactly its sources |
| Oracle.Aggregate | pallets/oracle/src/lib.rs:534-546 | an aggregate counts exactly the key's sources (at least 3), holds one data point per source, takes the first visited value, has as confidence the floor mean of the saturated confidence sum over the saturated count (the exact floor mean when neither saturates), which is at most 100, and is stamped with the current block |
| Oracle.StoreKeepsDataValid | pallets/oracle/src/lib.rs:343-354 | storing a submission that passed validation keeps every entry within the size and confidence limits and under its own source |
| Oracle.SubmissionError | pallets/oracle/src/lib.rs:329-341 | `provide_data`'s checks in order: `DataTooLarge`, `InvalidConfidence`, `SourceNotFound`, `InvalidSource`, `ProviderNotTrusted` (confidence above 80 from an untrusted caller), each exactly when the earlier ones pass and its own condition holds |
| Oracle.QueueBatch | pallets/oracle/src/lib.rs:443-469 | the batch loop fails exactly when some entry names too many sources; otherwise it queues one request per entry under consecutive ids, counts the entries and sums the fees |
| Oracle.Enqueue | pallets/oracle/src/lib.rs:451-466 | the requests a batch queues, one per entry under the next ids, with the counter advanced saturating |
| Oracle.EnqueueConsecutive | pallets/oracle/src/lib.rs:451-466 | without saturation, a batch stores entry `i` under id `next + i`, advances the counter by the batch length and leaves other requests alone |
| Oracle.EnqueueKeepsRequestsValid | pallets/oracle/src/lib.rs:443-466 | queued requests stay within the source limit and below the counter |
| Oracle.Expired | pallets/oracle/src/lib.rs:495-496 | an aggregate has expired exactly when the current block is more than `MaxDataAge` blocks past its stamp; the saturating subtraction and the cast change nothing |
| Oracle.ExpireAggregatesSpec | pallets/oracle/src/lib.rs:492-503 | cleanup drops an aggregate exactly when its key is listed and it is older than `MaxDataAge`, keeping the others as they were |
| Oracle.DropDataSpec | pallets/oracle/src/lib.rs:505-506 | cleanup drops every submitted value of every listed key, whatever its age, and keeps all others |
| Oracle.OraclePallet.constructor | pallets/oracle/src/lib.rs:166-199 | the pallet starts with empty storage and request counter 0 |
| Oracle.OraclePallet.RequestData | pallets/oracle/src/lib.rs:270-313 | `request_data` fails with `TooManySources` iff more than 10 sources are named, then iff the fee cannot be paid, and succeeds iff neither holds; on success it stores the request under the old counter, advances it by one and pays the fee to the pallet |
| Oracle.OraclePallet.ProvideData | pallets/oracle/src/lib.rs:318-373 | `provide_data` fails exactly with `SubmissionError`'s error and changes nothing; on success it stores the data at (key, source), pays the reward when the pallet can, and re-aggregates the key |
| Oracle.OraclePallet.TryAggregate | pallets/oracle/src/lib.rs:520-561 | below 3 sources the aggregates are untouched; otherwise the key's aggregate becomes `Aggregate` of its sources in the storage order |
| Oracle.OraclePallet.CollectData | pallets/oracle/src/lib.rs:521-531 | the collection loop visits each of the key's sources exactly once and returns their values in order with the saturated confidence sum and count |
| Oracle.OraclePallet.RegisterSource | pallets/oracle/src/lib.rs:378-406 | `register_source` fails with `InvalidConfidence` iff reliability > 100; otherwise it stores an active source under its id, replacing any earlier one |
| Oracle.OraclePallet.AddTrustedProvider | pallets/oracle/src/lib.rs:411-428 | `add_trusted_provider` fails with `InvalidConfidence` iff reputation > 100; otherwise it records the reputation |
| Oracle.OraclePallet.BatchRequests | pallets/oracle/src/lib.rs:433-478 | `batch_requests` fails as a whole iff an entry names too many sources, then iff the total fee cannot be paid, and succeeds iff neither holds; on success it queues one request per entry under consecutive ids and reports the entry count and the saturated fee sum |
| Oracle.OraclePallet.CleanupExpiredData | pallets/oracle/src/lib.rs:483-510 | `cleanup_expired_data` leaves exactly the aggregates and data that `ExpireAggregatesSpec` and `DropDataSpec` describe |
| Oracle.OraclePallet.LatestData | pallets/oracle/src/lib.rs:564-566 | the latest value is present iff the key has an aggregate, and is its value |
| Oracle.OraclePallet.DataWithConfidence | pallets/oracle/src/lib.rs:569-571 | present exactly when `LatestData` is, with the aggregate's confidence |
| Sharding.AccountShard | pallets/sharding/src/lib.rs:496-501 | an account's shard is below `SHARD_COUNT`, and a hash byte below 4 is its own shard |
| Sharding.HitsBelowBlocks | pallets/sharding/src/lib.rs:496-501 | each block of 4 consecutive hash bytes hits every shard exactly once |
| Sharding.AccountShardUniform | pallets/sharding/src/lib.rs:496-501 | each shard receives exactly 64 of the 256 possible hash bytes |
| Sharding.ParallelUtilization | pallets/sharding/src/lib.rs:440-448 | the stored utilisation is `current_tps / 1000`, at most 100, whenever the TPS is within the 100 000 network target |
| Sharding.Joined | pallets/sharding/src/lib.rs:311-313 | joining makes the caller a member, adds no one else, keeps the old list as a prefix, grows it by at most one and keeps it free of duplicates |
| Sharding.JoinedIdempotent | pallets/sharding/src/lib.rs:311-313 | joining twice is joining once |
| Sharding.ProcessCount | pallets/sharding/src/lib.rs:391 | the number processed is at most the queue length and the limit, and is their minimum when the length fits a `u32` |
| Sharding.DrainThenAppend | pallets/sharding/src/lib.rs:361-415 | an append after the drained prefix lands at the end of what remains: the queue is FIFO |
| Sharding.NewShards | pallets/sharding/src/lib.rs:262-272 | one new shard per validator list |
| Sharding.SeededStep | pallets/sharding/src/lib.rs:262-286 | seeding shard `i` extends the initialised prefix by one |
| Sharding.SeedKeepsValid | pallets/sharding/src/lib.rs:266-280 | re-creating a shard with an empty queue keeps every shard under its own id with the target capacity, and every queued transaction in its destination shard's queue |
| Sharding.ShardingPallet.constructor | pallets/sharding/src/lib.rs:135-192 | the pallet starts with no shards, queues or loads and default metrics |
| Sharding.ShardingPallet.InitializeSharding | pallets/sharding/src/lib.rs:255-292 | fails with `InvalidShardConfig` iff more than 4 lists are given; otherwise shard `i` is created for list `i` with the target capacity, an empty queue and load 0, other shards are kept, and the metrics are reset |
| Sharding.ShardingPallet.JoinShard | pallets/sharding/src/lib.rs:297-322 | fails with `ShardNotFound` / `ShardAtCapacity` (at 25 validators, even for a member) exactly in those cases, and succeeds iff the shard exists below capacity; then the caller joins the shard's validators, which stay within 25 |
| Sharding.ShardingPallet.ExecuteCrossShardTx | pallets/sharding/src/lib.rs:327-378 | fails with `InvalidCrossShardTx` iff the recipient shard is the sender's, then `ShardNotFound`, then the fee error, and succeeds iff none holds; on success it appends exactly one transaction to the end of the destination queue, burns the fee and counts it, saturating |
| Sharding.ShardingPallet.ProcessCrossShardQueue | pallets/sharding/src/lib.rs:383-427 | removes exactly `ProcessCount` transactions from the front of the queue, keeping the rest in order, and changes nothing when that count is 0 |
| Sharding.ShardingPallet.UpdatePerformanceMetrics | pallets/sharding/src/lib.rs:432-457 | stores the three figures verbatim with `ParallelUtilization` of the TPS, keeping the cross-shard count |
| Sharding.ShardingPallet.RebalanceShards | pallets/sharding/src/lib.rs:462-490 | changes no storage; `to_shard` is the first least-loaded shard and `from_shard` the last most-loaded one |
| Sharding.ShardingPallet.GetAccountShard | pallets/sharding/src/lib.rs:496-501 | every account maps to a shard below `SHARD_COUNT` |
| Sharding.ShardingPallet.ShardUtilization | pallets/sharding/src/lib.rs:515-520 | `None` iff the shard does not exist; otherwise the load as a percentage of the 25 000 capacity (`load / 250`, at most 100) while the load is within capacity |
| ParallelExecutor.NextBatchId | pallets/parallel-executor/src/lib.rs:457-460 | the batch id is the block number saturated into a `u32` |
| ParallelExecutor.SimulateTransaction | pallets/parallel-executor/src/lib.rs:494-498 | every simulated transaction succeeds |
| ParallelExecutor.Efficiency | pallets/parallel-executor/src/lib.rs:578-592 | `calculate_efficiency` is 0 with no workers and exactly 80 for any worker count up to 53 687, where no `u32` product wraps |
| ParallelExecutor.HandleStep | pallets/parallel-executor/src/lib.rs:318-350 | handling one more pending batch removes exactly it and adds its processed count |
| ParallelExecutor.AccountedStep | pallets/parallel-executor/src/lib.rs:338-341 | handling one more batch adds its count to `total_processed`, saturating, and averages a zero execution time into `avg_batch_time` |
| ParallelExecutor.ParallelExecutorPallet.constructor | pallets/parallel-executor/src/lib.rs:143-182 | the pallet starts with no workers, batches, results or conflicts and default metrics |
| ParallelExecutor.ParallelExecutorPallet.InitializeParallelExecution | pallets/parallel-executor/src/lib.rs:242-268 | fails with `TooManyWorkers` iff the count exceeds 16; otherwise `ActiveWorkers` and the metrics' worker count both become it |
| ParallelExecutor.ParallelExecutorPallet.SubmitBatch | pallets/parallel-executor/src/lib.rs:273-303 | fails with `InvalidBatchConfig` iff the list is empty, then `WorkerPoolExhausted` iff there are no workers, and succeeds iff the list is non-empty and a worker is active; then it stores the list under the block's batch id, replacing a batch from the same block |
| ParallelExecutor.ParallelExecutorPallet.ExecuteBatchParallel | pallets/parallel-executor/src/lib.rs:463-491 | processed plus failed is the transaction count, and none fails because the simulation always succeeds |
| ParallelExecutor.ParallelExecutorPallet.ProcessPendingBatches | pallets/parallel-executor/src/lib.rs:308-354 | handles at most `max_batches` distinct pending batches, all of them when fewer remain; removes exactly those, adds their counts to `total_processed` and changes nothing else |
| ParallelExecutor.ParallelExecutorPallet.HandleBatches | pallets/parallel-executor/src/lib.rs:318-350 | the loop of `process_pending_batches`, with the same guarantees on a copy of the table and the metrics |
| ParallelExecutor.ParallelExecutorPallet.ScaleWorkers | pallets/parallel-executor/src/lib.rs:359-393 | fails with `TooManyWorkers` iff the target exceeds 16; otherwise the worker count and metrics become the target, and scaling to the current count changes nothing |
| ParallelExecutor.ParallelExecutorPallet.ReportExecutionResult | pallets/parallel-executor/src/lib.rs:398-417 | records the result under the transaction hash |
| ParallelExecutor.ParallelExecutorPallet.HandleConflict | pallets/parallel-executor/src/lib.rs:422-451 | records the conflict under the transaction hash and counts it, saturating |
| ParallelExecutor.ParallelExecutorPallet.CalculateEfficiency | pallets/parallel-executor/src/lib.rs:578-592 | 0 with no active workers, 80 otherwise |
| Netchain.NewKeyCharged | contracts/netchain_storage/lib.rs:102-113 | charging a new key to the caller adds one key to the caller's set and none to anyone else's |
| Netchain.CountIsCharged | contracts/netchain_storage/lib.rs:151-153 | a user's count, zero when absent, is the number of keys they created and within the quota |
| Netchain.CountSumIsKeys | contracts/netchain_storage/lib.rs:102-117 | when each count is the number of keys charged to that user, the counts sum to the number of keys |
| Netchain.TotalIsCountSum | contracts/netchain_storage/lib.rs:102-117 | the global counter equals the sum of the per-user counts, and both equal the number of stored keys |
| Netchain.NewKeyKeepsCharged | contracts/netchain_storage/lib.rs:102-117 | storing a new key within the caller's quota keeps every count and the total exact |
| Netchain.OldKeyKeepsCharged | contracts/netchain_storage/lib.rs:117 | overwriting a stored key keeps every count and the total exact |
| Netchain.SetSpec | contracts/netchain_storage/lib.rs:90-127 | `set` fails with `KeyTooLong` iff the key exceeds 128 bytes, then `ValueTooLong` iff the value exceeds 1024, then `UserLimitReached` iff the key is new and the caller's count has reached the quota; a failure changes nothing; a success stores the value, counts a new key for the caller and in the total, and leaves counters alone for an existing key |
| Netchain.SetKeepsCharged | contracts/netchain_storage/lib.rs:102-117 | `set` keeps each key charged to one user, every count exact and within the quota, and the total exact |
| Netchain.GetAfterSet | contracts/netchain_storage/lib.rs:131-135 | after a successful `set(k, v)`, `get(k)` is `Ok(v)` and every other key reads as before |
| Netchain.Lookup | contracts/netchain_storage/lib.rs:131-135 | `get` is `Ok` with the stored value iff the key is stored, and `KeyNotFound` otherwise |
| Netchain.NetchainStorage.constructor | contracts/netchain_storage/lib.rs:72-80 | `new(n)`: empty store, counters at 0, quota `n`, owned by the deployer |
| Netchain.NetchainStorage.Default | contracts/netchain_storage/lib.rs:84-86 | `default()` is `new(100)` |
| Netchain.NetchainStorage.Set | contracts/netchain_storage/lib.rs:90-127 | the in-place `set` ends in exactly `SetSpec`'s outcome and store and keeps the counting invariant |
| Netchain.NetchainStorage.Get | contracts/netchain_storage/lib.rs:131-135 | `get` reads as `Lookup` |
| Netchain.NetchainStorage.ContainsKey | contracts/netchain_storage/lib.rs:139-141 | `contains_key(k)` iff `get(k)` is `Ok` |
| Netchain.NetchainStorage.TotalEntries | contracts/netchain_storage/lib.rs:145-147 | the number of stored keys, and the sum of the per-user counts, saturated into a `u32` |
| Netchain.NetchainStorage.MaxEntriesPerUser | contracts/netchain_storage/lib.rs:157-159 | returns the quota, and no user's count exceeds it |
| Netchain.NetchainStorage.UserEntryCount | contracts/netchain_storage/lib.rs:151-153 | the number of stored keys the user created, never above the quota |
| Netchain.NetchainStorage.Owner | contracts/netchain_storage/lib.rs:163-165 | the owner is always set |

## Left out

- Events, weights and `WeightInfo`, origins (`ensure_signed`, `ensure_root`), benchmarking and the runtime API:
  framework wiring with no effect on storage.
- `BlakeTwo256` hashing is an uninterpreted function, given to the IBC pallet and to the sharding pallet.
  The sharding pallet uses only the first byte of an account's hash.
- The currency is a plain balance map. Existential deposits, `KeepAlive`, reserves and the currency's own
  error values are not modelled.
- Ledger.Transfer: a failed currency call is reported as the pallet's `InsufficientBalance`. The pallets
  pass on the currency's own error with `?`, which is not modelled.
- Ledger.Transfer: a recipient's balance is not capped at `u128::MAX`, so the currency's overflow error
  on credit is not modelled. Total issuance is itself a `u128`, so no real credit can overflow.
- Block numbers, the caller, the current height and, for a cross-shard transaction, the sender's account
  nonce are parameters of each call.
- Storage iteration order (`iter_prefix`, `iter`) is hash-determined. The model leaves it unspecified and
  proves the results for every order.
- Oracle.OraclePallet.ProvideData: the reward transfer's outcome is ignored, as in the pallet. A failed
  reward leaves balances unchanged.
- Oracle.OraclePallet.BatchRequests: the loop writes to a copy of the request table and the counter,
  published only when the whole call succeeds. The pallet writes storage directly, and FRAME's rollback of
  a failed call gives the same end state.
- Sharding: `process_parallel_batch` (an async task), `assign_account_to_shard` (never called) and
  `current_network_tps` (a read of the metrics) are not modelled. The `AccountToShard` storage map, which
  only `assign_account_to_shard` writes, and the unused `ProcessingBatches` storage item are not modelled
  either.
- ParallelExecutor: `process_batch_async`, `process_transaction_chunk` (tokio tasks and randomness) and
  `detect_conflicts` (not called by the dispatchables) are not modelled.
- ParallelExecutor.ParallelExecutorPallet.ProcessPendingBatches: a batch's execution time is measured within
  one block, so it is always 0, and `avg_batch_time` only halves.
- Netchain: the `ValueSet` event and the unused `OnlyOwner` path are not modelled. The owner is never
  consulted by any message.
- Fuzz targets, benchmark clients, the cross-chain demo and the test suites are not part of this model.
  The runtime configuration contributes only the constants listed above.
