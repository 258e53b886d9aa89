/**
 * What the IBC core pallet guarantees: every dispatchable keeps the storage
 * invariant, identifiers are never reused, sequence numbers are handed out
 * consecutively, a received packet cannot be replayed, and a commitment is
 * resolved (acknowledged or timed out) at most once.
 */
module IbcProps {
  import opened Common
  import opened Ledger
  import opened IbcSpec

  /* ----------------------------------------------------------------- ids */

  /** A counter at `n` has handed out exactly `n` distinct ids. */
  lemma {:induction false} IdRangeSize(prefix: Bytes, n: nat)
    ensures |IdRange(prefix, n)| == n
    decreases n
  {
    if n > 0 {
      IdRangeSize(prefix, n - 1);
      FreshId(prefix, n - 1);
    }
  }

  /** The number of clients, connections and channels equals their counters, and so stays within capacity. */
  lemma CountsMatchCounters(s: State)
    requires Inv(s)
    ensures |s.clients| == s.nextClientId <= MAX_CLIENTS
    ensures |s.connections| == s.nextConnectionId <= MAX_CONNECTIONS
    ensures |ChannelIds(s.channels)| == |s.channels| == s.nextChannelId <= MAX_CHANNELS
  {
    IdRangeSize(CLIENT_PREFIX, s.nextClientId);
    IdRangeSize(CONNECTION_PREFIX, s.nextConnectionId);
    IdRangeSize(CHANNEL_PREFIX, s.nextChannelId);
    assert s.clients.Keys == IdRange(CLIENT_PREFIX, s.nextClientId);
    assert s.connections.Keys == IdRange(CONNECTION_PREFIX, s.nextConnectionId);
  }

  /** Projecting the channel keys onto their ids never gains elements. */
  lemma {:induction false} ChannelIdsSize(channels: map<(Id, Id), ChannelEnd>)
    ensures |ChannelIds(channels)| <= |channels|
    decreases |channels|
  {
    if channels != map[] {
      var k :| k in channels;
      var rest := channels - {k};
      ChannelIdsSize(rest);
      assert ChannelIds(channels) <= ChannelIds(rest) + {k.1} by {
        forall c | c in ChannelIds(channels) ensures c in ChannelIds(rest) + {k.1} {
          var k' :| k' in channels && k'.1 == c;
          if k' != k {
            assert k' in rest;
          }
        }
      }
      SubsetSize(ChannelIds(channels), ChannelIds(rest) + {k.1});
      assert |channels| == |rest| + 1;
    }
  }

  /** Two keys sharing a channel id make the id set strictly smaller than the map. */
  lemma ChannelIdCollision(channels: map<(Id, Id), ChannelEnd>, k1: (Id, Id), k2: (Id, Id))
    requires k1 in channels && k2 in channels && k1 != k2 && k1.1 == k2.1
    ensures |ChannelIds(channels)| < |channels|
  {
    var rest := channels - {k1};
    ChannelIdsSize(rest);
    assert ChannelIds(channels) <= ChannelIds(rest) by {
      forall c | c in ChannelIds(channels) ensures c in ChannelIds(rest) {
        var k :| k in channels && k.1 == c;
        if k == k1 {
          assert k2 in rest;
        } else {
          assert k in rest;
        }
      }
    }
    SubsetSize(ChannelIds(channels), ChannelIds(rest));
    assert |channels| == |rest| + 1;
  }

  /** A channel id is used under one port only. */
  lemma ChannelIdsUnique(s: State, k1: (Id, Id), k2: (Id, Id))
    requires Inv(s)
    requires k1 in s.channels && k2 in s.channels && k1.1 == k2.1
    ensures k1 == k2
  {
    IdRangeSize(CHANNEL_PREFIX, s.nextChannelId);
    if k1 != k2 {
      ChannelIdCollision(s.channels, k1, k2);
    }
  }

  /* ------------------------------------------------- effects of each call */

  /**
   * `create_client` fails at capacity, then on an unpaid fee; otherwise it adds
   * one unfrozen client under an id no existing client has, and moves the fee
   * to the pallet account.
   */
  lemma CreateClientEffect(s: State, who: AccountId, chainId: Bytes, initialHeight: u64,
                           trustLevel: u32, unbondingPeriod: u64)
    requires s.clients.Keys == IdRange(CLIENT_PREFIX, s.nextClientId)
    ensures var st := CreateClient(s, who, chainId, initialHeight, trustLevel, unbondingPeriod);
      && (st.0 == Fail(MaxClientsReached) <==> s.nextClientId >= MAX_CLIENTS)
      && (st.0 == Fail(InsufficientBalance) <==>
            s.nextClientId < MAX_CLIENTS && BalanceOf(s.balances, who) < CLIENT_CREATION_FEE)
      && (st.0.Fail? ==> st.1 == s)
      && (st.0.Pass? ==>
            var id := FormatId(CLIENT_PREFIX, s.nextClientId);
            && id !in s.clients
            && st.1.clients.Keys == s.clients.Keys + {id}
            && |st.1.clients| == |s.clients| + 1
            && st.1.clients[id] == ClientState(chainId, initialHeight, false, trustLevel, unbondingPeriod)
            && (forall c | c in s.clients :: st.1.clients[c] == s.clients[c])
            && st.1.nextClientId == s.nextClientId + 1
            && st.1 == s.(clients := s.clients[id := ClientState(chainId, initialHeight, false, trustLevel, unbondingPeriod)],
                       nextClientId := s.nextClientId + 1,
                       balances := Transfer(s.balances, who, s.account, CLIENT_CREATION_FEE).value)
            && st.1.balances == Transfer(s.balances, who, s.account, CLIENT_CREATION_FEE).value
            && (who != s.account ==>
                  && BalanceOf(st.1.balances, who) == BalanceOf(s.balances, who) - CLIENT_CREATION_FEE
                  && BalanceOf(st.1.balances, s.account) == BalanceOf(s.balances, s.account) + CLIENT_CREATION_FEE))
  {
    if s.nextClientId < MAX_CLIENTS && BalanceOf(s.balances, who) >= CLIENT_CREATION_FEE {
      FreshId(CLIENT_PREFIX, s.nextClientId);
    }
  }

  /**
   * `update_client` fails with `ClientNotFound`, then with `InvalidClientState`
   * unless the height strictly grows; on success only that client's height
   * changes, and every other client and table stays as it was.
   */
  lemma UpdateClientEffect(s: State, clientId: Id, newHeight: u64)
    ensures var st := UpdateClient(s, clientId, newHeight);
      && (st.0.Pass? <==> clientId in s.clients && newHeight > s.clients[clientId].latestHeight)
      && (st.0 == Fail(ClientNotFound) <==> clientId !in s.clients)
      && (st.0 == Fail(InvalidClientState) <==> clientId in s.clients && newHeight <= s.clients[clientId].latestHeight)
      && (st.0.Fail? ==> st.1 == s)
      && (st.0.Pass? ==>
            && st.1 == s.(clients := s.clients[clientId := s.clients[clientId].(latestHeight := newHeight)])
            && st.1.clients[clientId].latestHeight == newHeight
            && st.1.clients[clientId].latestHeight > s.clients[clientId].latestHeight
            && st.1.clients[clientId].(latestHeight := s.clients[clientId].latestHeight) == s.clients[clientId]
            && st.1.clients.Keys == s.clients.Keys)
  {
  }

  /** A frozen client is updated exactly as an unfrozen one would be: the flag is never read. */
  lemma UpdateClientIgnoresFrozen(s: State, clientId: Id, newHeight: u64)
    requires clientId in s.clients
    ensures var frozen := s.(clients := s.clients[clientId := s.clients[clientId].(frozen := true)]);
      UpdateClient(frozen, clientId, newHeight).0 == UpdateClient(s, clientId, newHeight).0
  {
  }

  /** `connection_open_init` adds one `Init` connection under a fresh id, bound to an existing client. */
  lemma ConnectionOpenInitEffect(s: State, clientId: Id, counterpartyClientId: Id, version: Bytes)
    requires s.connections.Keys == IdRange(CONNECTION_PREFIX, s.nextConnectionId)
    ensures var st := ConnectionOpenInit(s, clientId, counterpartyClientId, version);
      && (st.0 == Fail(ClientNotFound) <==> clientId !in s.clients)
      && (st.0 == Fail(MaxConnectionsReached) <==> clientId in s.clients && s.nextConnectionId >= MAX_CONNECTIONS)
      && (st.0.Fail? ==> st.1 == s)
      && (st.0.Pass? ==>
            var id := FormatId(CONNECTION_PREFIX, s.nextConnectionId);
            && id !in s.connections
            && st.1.connections.Keys == s.connections.Keys + {id}
            && st.1.connections[id] == ConnectionEnd(ConnInit, clientId, counterpartyClientId, version)
            && (forall c | c in s.connections :: st.1.connections[c] == s.connections[c])
            && st.1.nextConnectionId == s.nextConnectionId + 1
            && st.1 == s.(connections := s.connections[id := ConnectionEnd(ConnInit, clientId, counterpartyClientId, version)],
                       nextConnectionId := s.nextConnectionId + 1))
  {
    FreshId(CONNECTION_PREFIX, s.nextConnectionId);
  }

  /**
   * `channel_open_init` needs an `Open` connection; it adds one `Init` channel
   * whose id is used under no port yet, with all three sequences at 1.
   */
  lemma ChannelOpenInitEffect(s: State, portId: Id, connectionId: Id, counterpartyPortId: Id, version: Bytes)
    requires ChannelIds(s.channels) == IdRange(CHANNEL_PREFIX, s.nextChannelId)
    ensures var st := ChannelOpenInit(s, portId, connectionId, counterpartyPortId, version);
      && (st.0.Pass? <==>
            connectionId in s.connections && s.connections[connectionId].state == ConnOpen
            && s.nextChannelId < MAX_CHANNELS)
      && (st.0 == Fail(ConnectionNotFound) <==> connectionId !in s.connections)
      && (st.0 == Fail(InvalidConnectionState) <==>
            connectionId in s.connections && s.connections[connectionId].state != ConnOpen)
      && (st.0 == Fail(MaxChannelsReached) <==>
            connectionId in s.connections && s.connections[connectionId].state == ConnOpen
            && s.nextChannelId >= MAX_CHANNELS)
      && (st.0.Fail? ==> st.1 == s)
      && (st.0.Pass? ==>
            var id := FormatId(CHANNEL_PREFIX, s.nextChannelId);
            && id !in ChannelIds(s.channels)
            && (portId, id) !in s.channels
            && st.1.channels.Keys == s.channels.Keys + {(portId, id)}
            && st.1.channels[(portId, id)] == ChannelEnd(ChanInit, connectionId, portId, counterpartyPortId, version, 1, 1, 1)
            && (forall c | c in s.channels :: st.1.channels[c] == s.channels[c])
            && st.1.nextChannelId == s.nextChannelId + 1
            && st.1 == s.(channels := s.channels[(portId, id) := ChannelEnd(ChanInit, connectionId, portId, counterpartyPortId, version, 1, 1, 1)],
                       nextChannelId := s.nextChannelId + 1))
  {
    if connectionId in s.connections && s.connections[connectionId].state == ConnOpen
       && s.nextChannelId < MAX_CHANNELS {
      FreshChannelId(s.channels, s.nextChannelId, portId);
    }
  }

  /** The id the channel counter names next is used under no port. */
  lemma FreshChannelId(channels: map<(Id, Id), ChannelEnd>, nextChannelId: nat, portId: Id)
    requires ChannelIds(channels) == IdRange(CHANNEL_PREFIX, nextChannelId)
    ensures FormatId(CHANNEL_PREFIX, nextChannelId) !in ChannelIds(channels)
    ensures (portId, FormatId(CHANNEL_PREFIX, nextChannelId)) !in channels
  {
    var id := FormatId(CHANNEL_PREFIX, nextChannelId);
    NotInIdRange(CHANNEL_PREFIX, nextChannelId, nextChannelId);
    assert (portId, id) in channels ==> id in ChannelIds(channels);
  }

  /**
   * `send_packet` charges the fee before it looks at the channel, so an unpaid
   * fee is reported even for a missing channel; on success it commits the hash
   * of the packet under the channel's next send sequence and advances it.
   */
  lemma SendPacketEffect(s: State, hash: Packet -> Hash, who: AccountId, sourcePort: Id, sourceChannel: Id,
                         destinationPort: Id, destinationChannel: Id, data: Bytes,
                         timeoutHeight: u64, timeoutTimestamp: u64)
    ensures var st := SendPacket(s, hash, who, sourcePort, sourceChannel, destinationPort, destinationChannel,
                                 data, timeoutHeight, timeoutTimestamp);
      && (st.0 == Fail(InsufficientBalance) <==> BalanceOf(s.balances, who) < PACKET_TRANSMISSION_FEE)
      && (st.0.Pass? <==>
            BalanceOf(s.balances, who) >= PACKET_TRANSMISSION_FEE
            && (sourcePort, sourceChannel) in s.channels
            && s.channels[(sourcePort, sourceChannel)].state == ChanOpen)
      && (st.0 == Fail(ChannelNotFound) <==>
            BalanceOf(s.balances, who) >= PACKET_TRANSMISSION_FEE && (sourcePort, sourceChannel) !in s.channels)
      && (st.0 == Fail(InvalidChannelState) <==>
            BalanceOf(s.balances, who) >= PACKET_TRANSMISSION_FEE && (sourcePort, sourceChannel) in s.channels
            && s.channels[(sourcePort, sourceChannel)].state != ChanOpen)
      && (st.0.Fail? ==> st.1 == s)
      && (st.0.Pass? ==>
            var channel := s.channels[(sourcePort, sourceChannel)];
            var packet := Packet(channel.nextSequenceSend, sourcePort, sourceChannel, destinationPort,
                                 destinationChannel, data, timeoutHeight, timeoutTimestamp);
            && st.1.commitments == s.commitments[(sourcePort, channel.nextSequenceSend) := hash(packet)]
            && st.1.channels == s.channels[(sourcePort, sourceChannel) :=
                                             channel.(nextSequenceSend := SatAdd64(channel.nextSequenceSend, 1))]
            && st.1.balances == Transfer(s.balances, who, s.account, PACKET_TRANSMISSION_FEE).value
            && st.1 == s.(commitments := st.1.commitments, channels := st.1.channels, balances := st.1.balances)
            && (who != s.account ==>
                  BalanceOf(st.1.balances, who) == BalanceOf(s.balances, who) - PACKET_TRANSMISSION_FEE))
  {
  }

  /* ------------------------------------------------------- receiving */

  /**
   * A packet is accepted only in order, before its height timeout, on an open
   * channel; each failed check has its own error, and success touches only the
   * receive counter and the acknowledgement table.
   */
  lemma RecvPacketEffect(s: State, packet: Packet, currentHeight: u64)
    ensures var st := RecvPacket(s, packet, currentHeight);
      var key := (packet.destinationPort, packet.destinationChannel);
      && (st.0.Pass? <==>
            && key in s.channels
            && s.channels[key].state == ChanOpen
            && packet.sequence == s.channels[key].nextSequenceRecv
            && (packet.timeoutHeight == 0 || currentHeight < packet.timeoutHeight))
      && (st.0 == Fail(ChannelNotFound) <==> key !in s.channels)
      && (st.0 == Fail(InvalidChannelState) <==> key in s.channels && s.channels[key].state != ChanOpen)
      && (st.0 == Fail(InvalidSequence) <==>
            key in s.channels && s.channels[key].state == ChanOpen && packet.sequence != s.channels[key].nextSequenceRecv)
      && (st.0 == Fail(PacketTimeout) <==>
            key in s.channels && s.channels[key].state == ChanOpen && packet.sequence == s.channels[key].nextSequenceRecv
            && packet.timeoutHeight > 0 && currentHeight >= packet.timeoutHeight)
      && (st.0.Fail? ==> st.1 == s)
      && (st.0.Pass? ==>
            && st.1.channels[key].nextSequenceRecv == SatAdd64(packet.sequence, 1)
            && st.1.acks == s.acks[(packet.destinationPort, packet.sequence) := SUCCESS_ACK]
            && st.1 == s.(channels := s.channels[key := s.channels[key].(nextSequenceRecv := SatAdd64(packet.sequence, 1))],
                          acks := st.1.acks))
  {
  }

  /** A packet whose height timeout has been reached is refused, and its timeout is the only reason. */
  lemma TimeoutEnforced(s: State, packet: Packet, currentHeight: u64)
    requires packet.timeoutHeight > 0 && currentHeight >= packet.timeoutHeight
    ensures RecvPacket(s, packet, currentHeight).0.Fail?
    ensures RecvPacket(s, packet, currentHeight).0 == Fail(PacketTimeout) <==>
              RecvPacket(s, packet, 0).0.Pass?
  {
  }

  /** `timeout_timestamp` is carried but never enforced: changing it changes nothing. */
  lemma RecvIgnoresTimeoutTimestamp(s: State, packet: Packet, currentHeight: u64, timestamp: u64)
    ensures RecvPacket(s, packet.(timeoutTimestamp := timestamp), currentHeight) == RecvPacket(s, packet, currentHeight)
  {
  }

  /** Once a packet is received, the same packet is refused as out of sequence, unless the counter is stuck at `u64::MAX`. */
  lemma RecvReplayRejected(s: State, packet: Packet, h1: u64, h2: u64)
    requires RecvPacket(s, packet, h1).0.Pass?
    requires packet.sequence < U64_MAX
    ensures RecvPacket(RecvPacket(s, packet, h1).1, packet, h2) == (Fail(InvalidSequence), RecvPacket(s, packet, h1).1)
  {
  }

  /** At `u64::MAX` the saturating receive counter no longer moves, so the same packet is accepted again. */
  lemma RecvReplayAcceptedAtSaturation(s: State, packet: Packet, h: u64)
    requires RecvPacket(s, packet, h).0.Pass?
    requires packet.sequence == U64_MAX
    ensures RecvPacket(RecvPacket(s, packet, h).1, packet, h).0.Pass?
  {
  }

  /* --------------------------------------------------- resolving packets */

  /**
   * A commitment is resolved at most once: after an acknowledgement or a
   * timeout, both a second acknowledgement and a timeout fail with
   * `PacketNotFound`. The channel id plays no part in the lookup.
   */
  lemma ResolveOnce(s: State, portId: Id, channelId: Id, otherChannel: Id, sequence: u64, ack: Bytes, viaTimeout: bool)
    requires (portId, sequence) in s.commitments
    ensures var t := if viaTimeout then TimeoutPacket(s, portId, channelId, sequence)
                     else AcknowledgePacket(s, portId, channelId, sequence, ack);
      && t.0.Pass?
      && t.1 == s.(commitments := s.commitments - {(portId, sequence)})
      && t.1.commitments.Keys == s.commitments.Keys - {(portId, sequence)}
      && AcknowledgePacket(t.1, portId, otherChannel, sequence, ack).0 == Fail(PacketNotFound)
      && TimeoutPacket(t.1, portId, otherChannel, sequence).0 == Fail(PacketNotFound)
  {
  }

  /** Acknowledging and timing out a packet have the same effect on storage. */
  lemma AckAndTimeoutAgree(s: State, portId: Id, channelId: Id, sequence: u64, ack: Bytes)
    ensures AcknowledgePacket(s, portId, channelId, sequence, ack) == TimeoutPacket(s, portId, channelId, sequence)
  {
  }

  /**
   * Commitments are keyed by port and sequence only: two open channels on the
   * same port at the same send sequence write the same key, and the second
   * send replaces the first one's commitment.
   */
  lemma SamePortCommitmentCollision(s: State, hash: Packet -> Hash, who: AccountId, port: Id, c1: Id, c2: Id,
                                    destinationPort: Id, destinationChannel: Id, d1: Bytes, d2: Bytes)
    requires c1 != c2
    requires (port, c1) in s.channels && (port, c2) in s.channels
    requires s.channels[(port, c1)].state == ChanOpen && s.channels[(port, c2)].state == ChanOpen
    requires s.channels[(port, c1)].nextSequenceSend == s.channels[(port, c2)].nextSequenceSend
    requires who != s.account && BalanceOf(s.balances, who) >= 2 * PACKET_TRANSMISSION_FEE
    ensures var n := s.channels[(port, c1)].nextSequenceSend;
      var s1 := SendPacket(s, hash, who, port, c1, destinationPort, destinationChannel, d1, 0, 0);
      var s2 := SendPacket(s1.1, hash, who, port, c2, destinationPort, destinationChannel, d2, 0, 0);
      && s1.0.Pass? && s2.0.Pass?
      && s2.1.commitments[(port, n)] == hash(Packet(n, port, c2, destinationPort, destinationChannel, d2, 0, 0))
  {
  }

  /* ---------------------------------------------------- many sends */

  /** Sends each of `datas`, in order, on one channel; the state after the last send. */
  function SendAll(s: State, hash: Packet -> Hash, who: AccountId, sourcePort: Id, sourceChannel: Id,
                   destinationPort: Id, destinationChannel: Id, datas: seq<Bytes>,
                   timeoutHeight: u64, timeoutTimestamp: u64): State
    decreases |datas|
  {
    if datas == [] then s
    else
      var next := SendPacket(s, hash, who, sourcePort, sourceChannel, destinationPort, destinationChannel,
                             datas[0], timeoutHeight, timeoutTimestamp).1;
      SendAll(next, hash, who, sourcePort, sourceChannel, destinationPort, destinationChannel,
              datas[1..], timeoutHeight, timeoutTimestamp)
  }

  /**
   * Sending `k` packets on an open channel whose sender can pay all the fees
   * leaves the channel open with its send sequence advanced by exactly `k`,
   * and charges `k` fees.
   */
  lemma {:induction false} SendManyAdvances(s: State, hash: Packet -> Hash, who: AccountId, sourcePort: Id, sourceChannel: Id,
                                           destinationPort: Id, destinationChannel: Id, datas: seq<Bytes>,
                                           timeoutHeight: u64, timeoutTimestamp: u64)
    requires (sourcePort, sourceChannel) in s.channels
    requires s.channels[(sourcePort, sourceChannel)].state == ChanOpen
    requires who != s.account
    requires BalanceOf(s.balances, who) >= PACKET_TRANSMISSION_FEE * |datas|
    requires s.channels[(sourcePort, sourceChannel)].nextSequenceSend + |datas| <= U64_MAX
    ensures var t := SendAll(s, hash, who, sourcePort, sourceChannel, destinationPort, destinationChannel,
                             datas, timeoutHeight, timeoutTimestamp);
      && t.account == s.account
      && (sourcePort, sourceChannel) in t.channels
      && t.channels[(sourcePort, sourceChannel)].state == ChanOpen
      && t.channels[(sourcePort, sourceChannel)].nextSequenceSend ==
           s.channels[(sourcePort, sourceChannel)].nextSequenceSend + |datas|
      && BalanceOf(t.balances, who) == BalanceOf(s.balances, who) - PACKET_TRANSMISSION_FEE * |datas|
    decreases |datas|
  {
    if datas != [] {
      SendOnOpenChannel(s, hash, who, sourcePort, sourceChannel, destinationPort, destinationChannel,
                        datas[0], timeoutHeight, timeoutTimestamp);
      var s1 := SendPacket(s, hash, who, sourcePort, sourceChannel, destinationPort, destinationChannel,
                           datas[0], timeoutHeight, timeoutTimestamp).1;
      SendManyAdvances(s1, hash, who, sourcePort, sourceChannel, destinationPort, destinationChannel,
                       datas[1..], timeoutHeight, timeoutTimestamp);
    }
  }

  /**
   * Sending on a channel whose send sequence is `n` leaves every commitment
   * below `n`, or on another port, as it was.
   */
  lemma {:induction false} SendManyKeepsEarlierCommitments(s: State, hash: Packet -> Hash, who: AccountId,
                                                          sourcePort: Id, sourceChannel: Id,
                                                          destinationPort: Id, destinationChannel: Id, datas: seq<Bytes>,
                                                          timeoutHeight: u64, timeoutTimestamp: u64, t: State)
    requires (sourcePort, sourceChannel) in s.channels
    requires s.channels[(sourcePort, sourceChannel)].state == ChanOpen
    requires who != s.account
    requires BalanceOf(s.balances, who) >= PACKET_TRANSMISSION_FEE * |datas|
    requires s.channels[(sourcePort, sourceChannel)].nextSequenceSend + |datas| <= U64_MAX
    requires t == SendAll(s, hash, who, sourcePort, sourceChannel, destinationPort, destinationChannel,
                          datas, timeoutHeight, timeoutTimestamp)
    ensures var n := s.channels[(sourcePort, sourceChannel)].nextSequenceSend;
      forall key {:trigger t.commitments[key]} | key in s.commitments && (key.0 != sourcePort || key.1 < n) ::
        key in t.commitments && t.commitments[key] == s.commitments[key]
    decreases |datas|
  {
    if datas != [] {
      SendOnOpenChannel(s, hash, who, sourcePort, sourceChannel, destinationPort, destinationChannel,
                        datas[0], timeoutHeight, timeoutTimestamp);
      var s1 := SendPacket(s, hash, who, sourcePort, sourceChannel, destinationPort, destinationChannel,
                           datas[0], timeoutHeight, timeoutTimestamp).1;
      SendManyKeepsEarlierCommitments(s1, hash, who, sourcePort, sourceChannel, destinationPort, destinationChannel,
                                      datas[1..], timeoutHeight, timeoutTimestamp, t);
      var n := s.channels[(sourcePort, sourceChannel)].nextSequenceSend;
      forall c | c in s.commitments && (c.0 != sourcePort || c.1 < n)
        ensures c in t.commitments && t.commitments[c] == s.commitments[c]
      {
        assert c in s1.commitments && s1.commitments[c] == s.commitments[c];
        assert t.commitments[c] == s1.commitments[c];
      }
    }
  }

  /**
   * Sending `k` packets on an open channel whose sender can pay all the fees
   * uses the consecutive sequences `n`, `n+1`, ..., `n+k-1`: the hash of the
   * packet sent `(q - n)`-th is committed under sequence `q`.
   */
  lemma {:induction false} SendManySequences(s: State, hash: Packet -> Hash, who: AccountId, sourcePort: Id, sourceChannel: Id,
                                            destinationPort: Id, destinationChannel: Id, datas: seq<Bytes>,
                                            timeoutHeight: u64, timeoutTimestamp: u64, t: State)
    requires (sourcePort, sourceChannel) in s.channels
    requires s.channels[(sourcePort, sourceChannel)].state == ChanOpen
    requires who != s.account
    requires BalanceOf(s.balances, who) >= PACKET_TRANSMISSION_FEE * |datas|
    requires s.channels[(sourcePort, sourceChannel)].nextSequenceSend + |datas| <= U64_MAX
    requires t == SendAll(s, hash, who, sourcePort, sourceChannel, destinationPort, destinationChannel,
                          datas, timeoutHeight, timeoutTimestamp)
    ensures var n := s.channels[(sourcePort, sourceChannel)].nextSequenceSend;
      forall q: u64 {:trigger t.commitments[(sourcePort, q)]} | n <= q < n + |datas| ::
        (sourcePort, q) in t.commitments
        && t.commitments[(sourcePort, q)] ==
             hash(Packet(q, sourcePort, sourceChannel, destinationPort, destinationChannel,
                         datas[q - n], timeoutHeight, timeoutTimestamp))
    decreases |datas|
  {
    if datas != [] {
      var key := (sourcePort, sourceChannel);
      var n := s.channels[key].nextSequenceSend;
      SendOnOpenChannel(s, hash, who, sourcePort, sourceChannel, destinationPort, destinationChannel,
                        datas[0], timeoutHeight, timeoutTimestamp);
      var s1 := SendPacket(s, hash, who, sourcePort, sourceChannel, destinationPort, destinationChannel,
                           datas[0], timeoutHeight, timeoutTimestamp).1;
      assert s1.channels[key].nextSequenceSend == n + 1;
      SendManySequences(s1, hash, who, sourcePort, sourceChannel, destinationPort, destinationChannel,
                        datas[1..], timeoutHeight, timeoutTimestamp, t);
      SendManyKeepsEarlierCommitments(s1, hash, who, sourcePort, sourceChannel, destinationPort, destinationChannel,
                                      datas[1..], timeoutHeight, timeoutTimestamp, t);
      forall q: u64 | n <= q < n + |datas|
        ensures (sourcePort, q) in t.commitments
             && t.commitments[(sourcePort, q)] ==
                  hash(Packet(q, sourcePort, sourceChannel, destinationPort, destinationChannel,
                              datas[q - n], timeoutHeight, timeoutTimestamp))
      {
        if q > n {
          assert datas[1..][q - (n + 1)] == datas[q - n];
          assert t.commitments[(sourcePort, q)] ==
                   hash(Packet(q, sourcePort, sourceChannel, destinationPort, destinationChannel,
                               datas[1..][q - (n + 1)], timeoutHeight, timeoutTimestamp));
        } else {
          assert (sourcePort, n) in s1.commitments;
          assert t.commitments[(sourcePort, n)] == s1.commitments[(sourcePort, n)];
        }
      }
    }
  }

  /** One send on an open channel that the sender can pay for and whose counter is below `u64::MAX`. */
  lemma SendOnOpenChannel(s: State, hash: Packet -> Hash, who: AccountId, sourcePort: Id, sourceChannel: Id,
                          destinationPort: Id, destinationChannel: Id, data: Bytes,
                          timeoutHeight: u64, timeoutTimestamp: u64)
    requires (sourcePort, sourceChannel) in s.channels
    requires s.channels[(sourcePort, sourceChannel)].state == ChanOpen
    requires who != s.account && BalanceOf(s.balances, who) >= PACKET_TRANSMISSION_FEE
    requires s.channels[(sourcePort, sourceChannel)].nextSequenceSend < U64_MAX
    ensures var key := (sourcePort, sourceChannel);
      var n := s.channels[key].nextSequenceSend;
      var st := SendPacket(s, hash, who, sourcePort, sourceChannel, destinationPort, destinationChannel,
                           data, timeoutHeight, timeoutTimestamp);
      && st.0.Pass?
      && st.1.account == s.account
      && st.1.channels == s.channels[key := s.channels[key].(nextSequenceSend := n + 1)]
      && st.1.commitments == s.commitments[(sourcePort, n) := hash(Packet(n, sourcePort, sourceChannel,
                                 destinationPort, destinationChannel, data, timeoutHeight, timeoutTimestamp))]
      && BalanceOf(st.1.balances, who) == BalanceOf(s.balances, who) - PACKET_TRANSMISSION_FEE
  {
  }

  /* ------------------------------------------------------------ invariant */

  lemma GenesisInv(balances: Balances, account: AccountId)
    ensures Inv(Genesis(balances, account))
  {
    assert ChannelIds(map[]) == {};
  }

  /** Growing the set of connections keeps every channel well formed. */
  lemma ChannelsOnMoreConnections(channels: map<(Id, Id), ChannelEnd>, nextChannelId: nat, conns: set<Id>, more: set<Id>)
    requires ChannelsInv(channels, nextChannelId, conns) && conns <= more
    ensures ChannelsInv(channels, nextChannelId, more)
  {
    forall key | key in channels ensures ChannelWellFormed(channels[key], key, more) {
      assert ChannelWellFormed(channels[key], key, conns);
    }
  }

  /** Commitments stay issued while channels are only added or their send sequences grow. */
  lemma CommitmentsStayIssued(channels: map<(Id, Id), ChannelEnd>, grown: map<(Id, Id), ChannelEnd>,
                              commitments: map<(Id, u64), Hash>)
    requires forall c | c in commitments :: CommitmentIssued(channels, c)
    requires forall key | key in channels :: key in grown && grown[key].nextSequenceSend >= channels[key].nextSequenceSend
    ensures forall c | c in commitments :: CommitmentIssued(grown, c)
  {
    forall c | c in commitments ensures CommitmentIssued(grown, c) {
      assert CommitmentIssued(channels, c);
      var chan :| (c.0, chan) in channels && c.1 <= channels[(c.0, chan)].nextSequenceSend;
      assert (c.0, chan) in grown;
    }
  }

  /** Adding the client the counter names next keeps the clients' part of the invariant. */
  lemma AddClientKeepsClientsInv(clients: map<Id, ClientState>, nextClientId: nat, client: ClientState)
    requires ClientsInv(clients, nextClientId)
    requires nextClientId < MAX_CLIENTS && !client.frozen
    ensures ClientsInv(clients[FormatId(CLIENT_PREFIX, nextClientId) := client], nextClientId + 1)
  {
    FreshId(CLIENT_PREFIX, nextClientId);
  }

  /** Connections stay valid when clients are only added. */
  lemma ConnectionsOnMoreClients(connections: map<Id, ConnectionEnd>, nextConnectionId: nat, clientIds: set<Id>, more: set<Id>)
    requires ConnectionsInv(connections, nextConnectionId, clientIds) && clientIds <= more
    ensures ConnectionsInv(connections, nextConnectionId, more)
  {
  }

  /** Adding the client the counter names next keeps the invariant. */
  lemma AddClientKeepsInv(s: State, client: ClientState, balances: Balances)
    requires Inv(s)
    requires s.nextClientId < MAX_CLIENTS && !client.frozen
    ensures Inv(s.(clients := s.clients[FormatId(CLIENT_PREFIX, s.nextClientId) := client],
                   nextClientId := s.nextClientId + 1, balances := balances))
  {
    var clients := s.clients[FormatId(CLIENT_PREFIX, s.nextClientId) := client];
    AddClientKeepsClientsInv(s.clients, s.nextClientId, client);
    ConnectionsOnMoreClients(s.connections, s.nextConnectionId, s.clients.Keys, clients.Keys);
  }

  /** Replacing a client by one that is not frozen keeps the invariant. */
  lemma ReplaceClientKeepsInv(s: State, clientId: Id, client: ClientState)
    requires Inv(s) && clientId in s.clients && !client.frozen
    ensures Inv(s.(clients := s.clients[clientId := client]))
  {
    var clients := s.clients[clientId := client];
    assert clients.Keys == s.clients.Keys;
    assert ClientsInv(clients, s.nextClientId);
  }

  /** Adding the connection the counter names next keeps the connections' part of the invariant. */
  lemma AddConnectionKeepsConnectionsInv(connections: map<Id, ConnectionEnd>, nextConnectionId: nat,
                                         clientIds: set<Id>, connection: ConnectionEnd)
    requires ConnectionsInv(connections, nextConnectionId, clientIds)
    requires nextConnectionId < MAX_CONNECTIONS && connection.clientId in clientIds
    ensures ConnectionsInv(connections[FormatId(CONNECTION_PREFIX, nextConnectionId) := connection],
                           nextConnectionId + 1, clientIds)
  {
    FreshId(CONNECTION_PREFIX, nextConnectionId);
  }

  /** Adding the connection the counter names next, bound to an existing client, keeps the invariant. */
  lemma AddConnectionKeepsInv(s: State, connection: ConnectionEnd)
    requires Inv(s)
    requires s.nextConnectionId < MAX_CONNECTIONS && connection.clientId in s.clients
    ensures Inv(s.(connections := s.connections[FormatId(CONNECTION_PREFIX, s.nextConnectionId) := connection],
                   nextConnectionId := s.nextConnectionId + 1))
  {
    var connections := s.connections[FormatId(CONNECTION_PREFIX, s.nextConnectionId) := connection];
    AddConnectionKeepsConnectionsInv(s.connections, s.nextConnectionId, s.clients.Keys, connection);
    ChannelsOnMoreConnections(s.channels, s.nextChannelId, s.connections.Keys, connections.Keys);
  }

  /** Replacing a connection by one on the same client keeps the invariant. */
  lemma ReplaceConnectionKeepsInv(s: State, connectionId: Id, connection: ConnectionEnd)
    requires Inv(s) && connectionId in s.connections
    requires connection.clientId == s.connections[connectionId].clientId
    ensures Inv(s.(connections := s.connections[connectionId := connection]))
  {
    var connections := s.connections[connectionId := connection];
    assert connections.Keys == s.connections.Keys;
    assert ConnectionsInv(connections, s.nextConnectionId, s.clients.Keys);
  }

  /** The id the channel counter names next is used under no port yet; adding it extends the ids by one. */
  lemma AddChannelIds(channels: map<(Id, Id), ChannelEnd>, nextChannelId: nat, portId: Id, channel: ChannelEnd)
    requires ChannelIds(channels) == IdRange(CHANNEL_PREFIX, nextChannelId)
    ensures var t := channels[(portId, FormatId(CHANNEL_PREFIX, nextChannelId)) := channel];
      && (portId, FormatId(CHANNEL_PREFIX, nextChannelId)) !in channels
      && ChannelIds(t) == IdRange(CHANNEL_PREFIX, nextChannelId + 1)
      && |t| == |channels| + 1
  {
    var id := FormatId(CHANNEL_PREFIX, nextChannelId);
    var key := (portId, id);
    var t := channels[key := channel];
    FreshId(CHANNEL_PREFIX, nextChannelId);
    forall k | k in channels ensures k.1 != id {
      assert k.1 in ChannelIds(channels);
    }
    forall c | c in ChannelIds(t) ensures c in ChannelIds(channels) + {id} {
      var k :| k in t && k.1 == c;
      if k != key {
        assert k in channels;
      }
    }
    forall c | c in ChannelIds(channels) ensures c in ChannelIds(t) {
      var k :| k in channels && k.1 == c;
      assert k in t;
    }
    assert key in t;
  }

  /** Adding a well-formed channel under the id the counter names next keeps the channels' part of the invariant. */
  lemma AddChannelKeepsChannelsInv(channels: map<(Id, Id), ChannelEnd>, nextChannelId: nat, connectionIds: set<Id>,
                                   portId: Id, channel: ChannelEnd)
    requires ChannelsInv(channels, nextChannelId, connectionIds)
    requires nextChannelId < MAX_CHANNELS
    requires ChannelWellFormed(channel, (portId, FormatId(CHANNEL_PREFIX, nextChannelId)), connectionIds)
    ensures ChannelsInv(channels[(portId, FormatId(CHANNEL_PREFIX, nextChannelId)) := channel],
                        nextChannelId + 1, connectionIds)
    ensures (portId, FormatId(CHANNEL_PREFIX, nextChannelId)) !in channels
  {
    var key := (portId, FormatId(CHANNEL_PREFIX, nextChannelId));
    var grown := channels[key := channel];
    AddChannelIds(channels, nextChannelId, portId, channel);
    forall k | k in grown ensures ChannelWellFormed(grown[k], k, connectionIds) {
      if k != key {
        assert ChannelWellFormed(channels[k], k, connectionIds);
      }
    }
  }

  /** Adding a well-formed channel under the id the counter names next keeps the invariant. */
  lemma AddChannelKeepsInv(s: State, portId: Id, channel: ChannelEnd)
    requires Inv(s)
    requires s.nextChannelId < MAX_CHANNELS
    requires ChannelWellFormed(channel, (portId, FormatId(CHANNEL_PREFIX, s.nextChannelId)), s.connections.Keys)
    ensures Inv(s.(channels := s.channels[(portId, FormatId(CHANNEL_PREFIX, s.nextChannelId)) := channel],
                   nextChannelId := s.nextChannelId + 1))
  {
    var key := (portId, FormatId(CHANNEL_PREFIX, s.nextChannelId));
    var channels := s.channels[key := channel];
    AddChannelKeepsChannelsInv(s.channels, s.nextChannelId, s.connections.Keys, portId, channel);
    CommitmentsStayIssued(s.channels, channels, s.commitments);
  }

  /** Replacing a channel keeps the set of channel ids and the number of channels. */
  lemma ReplaceChannelIds(channels: map<(Id, Id), ChannelEnd>, key: (Id, Id), channel: ChannelEnd)
    requires key in channels
    ensures ChannelIds(channels[key := channel]) == ChannelIds(channels)
    ensures |channels[key := channel]| == |channels|
  {
    var t := channels[key := channel];
    assert t.Keys == channels.Keys;
    forall c | c in ChannelIds(t) ensures c in ChannelIds(channels) {
      var k :| k in t && k.1 == c;
      assert k in channels;
    }
    forall c | c in ChannelIds(channels) ensures c in ChannelIds(t) {
      var k :| k in channels && k.1 == c;
      assert k in t;
    }
  }

  /**
   * Replacing a channel by a well-formed one whose send sequence has not
   * fallen, while adding only commitments that channel has issued and only
   * `"success"` acknowledgements, keeps the invariant.
   */
  lemma ReplaceChannelKeepsInv(s: State, key: (Id, Id), channel: ChannelEnd,
                               commitments: map<(Id, u64), Hash>, acks: map<(Id, u64), Bytes>, balances: Balances)
    requires Inv(s)
    requires key in s.channels
    requires ChannelWellFormed(channel, key, s.connections.Keys)
    requires channel.nextSequenceSend >= s.channels[key].nextSequenceSend
    requires forall c | c in commitments ::
               c in s.commitments || (c.0 == key.0 && 1 <= c.1 <= channel.nextSequenceSend)
    requires forall a | a in acks :: acks[a] == SUCCESS_ACK
    ensures Inv(s.(channels := s.channels[key := channel], commitments := commitments, acks := acks, balances := balances))
  {
    var channels := s.channels[key := channel];
    ReplaceChannelIds(s.channels, key, channel);
    forall k | k in channels ensures ChannelWellFormed(channels[k], k, s.connections.Keys) {
      if k != key {
        assert ChannelWellFormed(s.channels[k], k, s.connections.Keys);
      }
    }
    assert ChannelsInv(channels, s.nextChannelId, s.connections.Keys);
    forall c | c in commitments ensures CommitmentIssued(channels, c) {
      if c in s.commitments {
        assert CommitmentIssued(s.channels, c);
        var chan :| (c.0, chan) in s.channels && c.1 <= s.channels[(c.0, chan)].nextSequenceSend;
        assert (c.0, chan) in channels;
      } else {
        assert key in channels;
      }
    }
    assert PacketsInv(channels, commitments, acks);
  }

  /** Dropping commitments keeps the invariant. */
  lemma DropCommitmentsKeepsInv(s: State, commitments: map<(Id, u64), Hash>)
    requires Inv(s)
    requires commitments.Keys <= s.commitments.Keys
    ensures Inv(s.(commitments := commitments))
  {
    assert PacketsInv(s.channels, commitments, s.acks);
  }

  lemma CreateClientKeepsInv(s: State, who: AccountId, chainId: Bytes, initialHeight: u64,
                             trustLevel: u32, unbondingPeriod: u64)
    requires Inv(s)
    ensures Inv(CreateClient(s, who, chainId, initialHeight, trustLevel, unbondingPeriod).1)
  {
    var st := CreateClient(s, who, chainId, initialHeight, trustLevel, unbondingPeriod);
    if st.0.Pass? {
      var balances := Transfer(s.balances, who, s.account, CLIENT_CREATION_FEE).value;
      AddClientKeepsInv(s, ClientState(chainId, initialHeight, false, trustLevel, unbondingPeriod), balances);
    }
  }

  lemma UpdateClientKeepsInv(s: State, clientId: Id, newHeight: u64)
    requires Inv(s)
    ensures Inv(UpdateClient(s, clientId, newHeight).1)
  {
    if UpdateClient(s, clientId, newHeight).0.Pass? {
      ReplaceClientKeepsInv(s, clientId, s.clients[clientId].(latestHeight := newHeight));
    }
  }

  lemma ConnectionOpenInitKeepsInv(s: State, clientId: Id, counterpartyClientId: Id, version: Bytes)
    requires Inv(s)
    ensures Inv(ConnectionOpenInit(s, clientId, counterpartyClientId, version).1)
  {
    if ConnectionOpenInit(s, clientId, counterpartyClientId, version).0.Pass? {
      AddConnectionKeepsInv(s, ConnectionEnd(ConnInit, clientId, counterpartyClientId, version));
    }
  }

  lemma SetConnectionStateKeepsInv(s: State, connectionId: Id, state: ConnectionState)
    requires Inv(s)
    ensures Inv(SetConnectionState(s, connectionId, state).1)
  {
    if SetConnectionState(s, connectionId, state).0.Pass? {
      ReplaceConnectionKeepsInv(s, connectionId, s.connections[connectionId].(state := state));
    }
  }

  lemma ChannelOpenInitKeepsInv(s: State, portId: Id, connectionId: Id, counterpartyPortId: Id, version: Bytes)
    requires Inv(s)
    ensures Inv(ChannelOpenInit(s, portId, connectionId, counterpartyPortId, version).1)
  {
    if ChannelOpenInit(s, portId, connectionId, counterpartyPortId, version).0.Pass? {
      AddChannelKeepsInv(s, portId, ChannelEnd(ChanInit, connectionId, portId, counterpartyPortId, version, 1, 1, 1));
    }
  }

  lemma SendPacketKeepsInv(s: State, hash: Packet -> Hash, who: AccountId, sourcePort: Id, sourceChannel: Id,
                           destinationPort: Id, destinationChannel: Id, data: Bytes,
                           timeoutHeight: u64, timeoutTimestamp: u64)
    requires Inv(s)
    ensures Inv(SendPacket(s, hash, who, sourcePort, sourceChannel, destinationPort, destinationChannel,
                           data, timeoutHeight, timeoutTimestamp).1)
  {
    var st := SendPacket(s, hash, who, sourcePort, sourceChannel, destinationPort, destinationChannel,
                         data, timeoutHeight, timeoutTimestamp);
    if st.0.Pass? {
      var key := (sourcePort, sourceChannel);
      var channel := s.channels[key];
      assert ChannelWellFormed(channel, key, s.connections.Keys);
      var next := channel.(nextSequenceSend := SatAdd64(channel.nextSequenceSend, 1));
      ReplaceChannelKeepsInv(s, key, next, st.1.commitments, s.acks, st.1.balances);
      assert st.1 == s.(channels := s.channels[key := next], commitments := st.1.commitments,
                        acks := s.acks, balances := st.1.balances);
    }
  }

  lemma RecvPacketKeepsInv(s: State, packet: Packet, currentHeight: u64)
    requires Inv(s)
    ensures Inv(RecvPacket(s, packet, currentHeight).1)
  {
    var st := RecvPacket(s, packet, currentHeight);
    if st.0.Pass? {
      var key := (packet.destinationPort, packet.destinationChannel);
      var channel := s.channels[key];
      assert ChannelWellFormed(channel, key, s.connections.Keys);
      var next := channel.(nextSequenceRecv := SatAdd64(channel.nextSequenceRecv, 1));
      ReplaceChannelKeepsInv(s, key, next, s.commitments, st.1.acks, s.balances);
      assert st.1 == s.(channels := s.channels[key := next], commitments := s.commitments,
                        acks := st.1.acks, balances := s.balances);
    }
  }

  lemma SetChannelStateKeepsInv(s: State, portId: Id, channelId: Id, state: ChannelState)
    requires Inv(s)
    ensures Inv(SetChannelState(s, portId, channelId, state).1)
  {
    var st := SetChannelState(s, portId, channelId, state);
    if st.0.Pass? {
      var key := (portId, channelId);
      var channel := s.channels[key];
      assert ChannelWellFormed(channel, key, s.connections.Keys);
      ReplaceChannelKeepsInv(s, key, channel.(state := state), s.commitments, s.acks, s.balances);
      assert st.1 == s.(channels := s.channels[key := channel.(state := state)], commitments := s.commitments,
                        acks := s.acks, balances := s.balances);
    }
  }

  lemma ResolvePacketKeepsInv(s: State, portId: Id, channelId: Id, sequence: u64, ack: Bytes)
    requires Inv(s)
    ensures Inv(AcknowledgePacket(s, portId, channelId, sequence, ack).1)
    ensures Inv(TimeoutPacket(s, portId, channelId, sequence).1)
  {
    DropCommitmentsKeepsInv(s, s.commitments - {(portId, sequence)});
  }

  lemma ApplyKeepsInv(s: State, hash: Packet -> Hash, c: Call)
    requires Inv(s)
    ensures Inv(Apply(s, hash, c).1)
  {
    match c
    case CreateClientCall(who, chainId, h, trust, unbonding) =>
      assert Apply(s, hash, c) == CreateClient(s, who, chainId, h, trust, unbonding);
      CreateClientKeepsInv(s, who, chainId, h, trust, unbonding);
    case ConnectionOpenInitCall(id, cp, v) =>
      assert Apply(s, hash, c) == ConnectionOpenInit(s, id, cp, v);
      ConnectionOpenInitKeepsInv(s, id, cp, v);
    case ChannelOpenInitCall(p, conn, cp, v) =>
      assert Apply(s, hash, c) == ChannelOpenInit(s, p, conn, cp, v);
      ChannelOpenInitKeepsInv(s, p, conn, cp, v);
    case SendPacketCall(who, sp, sc, dp, dc, d, th, tt) =>
      assert Apply(s, hash, c) == SendPacket(s, hash, who, sp, sc, dp, dc, d, th, tt);
      SendPacketKeepsInv(s, hash, who, sp, sc, dp, dc, d, th, tt);
    case RecvPacketCall(packet, h) =>
      assert Apply(s, hash, c) == RecvPacket(s, packet, h);
      RecvPacketKeepsInv(s, packet, h);
    case SetChannelStateCall(p, ch, st) =>
      assert Apply(s, hash, c) == SetChannelState(s, p, ch, st);
      SetChannelStateKeepsInv(s, p, ch, st);
    case UpdateClientCall(id, h) =>
      assert Apply(s, hash, c) == UpdateClient(s, id, h);
      UpdateClientKeepsInv(s, id, h);
    case AcknowledgePacketCall(p, ch, sq, ack) =>
      assert Apply(s, hash, c) == AcknowledgePacket(s, p, ch, sq, ack);
      ResolvePacketKeepsInv(s, p, ch, sq, ack);
    case TimeoutPacketCall(p, ch, sq) =>
      assert Apply(s, hash, c) == TimeoutPacket(s, p, ch, sq);
      ResolvePacketKeepsInv(s, p, ch, sq, []);
    case SetConnectionStateCall(id, st) =>
      assert Apply(s, hash, c) == SetConnectionState(s, id, st);
      SetConnectionStateKeepsInv(s, id, st);
  }

  /** Every state reachable from genesis satisfies the invariant. */
  lemma {:induction false} RunKeepsInv(s: State, hash: Packet -> Hash, calls: seq<Call>)
    requires Inv(s)
    ensures Inv(Run(s, hash, calls))
    decreases |calls|
  {
    if calls != [] {
      ApplyKeepsInv(s, hash, calls[0]);
      RunKeepsInv(Apply(s, hash, calls[0]).1, hash, calls[1..]);
    }
  }

  /** From genesis, any sequence of calls leads to a state within capacity with unique ids. */
  lemma ReachableWithinCapacity(balances: Balances, account: AccountId, hash: Packet -> Hash, calls: seq<Call>)
    ensures var s := Run(Genesis(balances, account), hash, calls);
      && Inv(s)
      && |s.clients| <= MAX_CLIENTS
      && |s.connections| <= MAX_CONNECTIONS
      && |ChannelIds(s.channels)| <= MAX_CHANNELS
  {
    GenesisInv(balances, account);
    RunKeepsInv(Genesis(balances, account), hash, calls);
    CountsMatchCounters(Run(Genesis(balances, account), hash, calls));
  }
}
