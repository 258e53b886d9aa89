/**
 * The IBC core pallet as the runtime runs it: one object whose fields are the
 * pallet's storage items, updated in place by each dispatchable. Every method
 * is proved to end in exactly the state (and with exactly the outcome) that the
 * transition function of `IbcSpec` gives, and to keep the invariant `Inv`.
 */
module IbcPallet {
  import opened Common
  import opened Ledger
  import opened IbcSpec
  import IbcProps

  class IbcCore {
    var clients: map<Id, ClientState>
    var connections: map<Id, ConnectionEnd>
    var channels: map<(Id, Id), ChannelEnd>
    var commitments: map<(Id, u64), Hash>
    var acks: map<(Id, u64), Bytes>
    var nextClientId: u32
    var nextConnectionId: u32
    var nextChannelId: u32
    /** The currency's balances, which fee payments change. */
    var balances: Balances
    /** The pallet account that collects fees. */
    const account: AccountId
    /** `BlakeTwo256::hash_of` on packets. */
    const hash: Packet -> Hash

    /** The storage as a value. */
    function Abstract(): State
      reads this
    {
      State(clients, connections, channels, commitments, acks, nextClientId, nextConnectionId, nextChannelId,
            balances, account)
    }

    ghost predicate Valid()
      reads this
    {
      Inv(Abstract())
    }

    /** Genesis: every table empty and every counter at 0. */
    constructor (initialBalances: Balances, palletAccount: AccountId, packetHash: Packet -> Hash)
      ensures Abstract() == Genesis(initialBalances, palletAccount)
      ensures hash == packetHash
      ensures Valid()
    {
      clients, connections, channels := map[], map[], map[];
      commitments, acks := map[], map[];
      nextClientId, nextConnectionId, nextChannelId := 0, 0, 0;
      balances := initialBalances;
      account := palletAccount;
      hash := packetHash;
      new;
      IbcProps.GenesisInv(initialBalances, palletAccount);
    }

    method CreateClient(who: AccountId, chainId: Bytes, initialHeight: u64, trustLevel: u32, unbondingPeriod: u64)
      returns (r: Outcome<Error>)
      requires Valid()
      modifies this
      ensures (r, Abstract()) == IbcSpec.CreateClient(old(Abstract()), who, chainId, initialHeight, trustLevel,
                                                        unbondingPeriod)
      ensures Valid()
    {
      ghost var s := Abstract();
      var current := nextClientId;
      if current >= MAX_CLIENTS {
        r := Fail(MaxClientsReached);
      } else {
        var paid := Transfer(balances, who, account, CLIENT_CREATION_FEE);
        if paid.None? {
          r := Fail(InsufficientBalance);
        } else {
          balances := paid.value;
          var clientId := FormatId(CLIENT_PREFIX, current);
          nextClientId := SatAdd32(current, 1);
          clients := clients[clientId := ClientState(chainId, initialHeight, false, trustLevel, unbondingPeriod)];
          r := Pass;
          assert Abstract() == s.(clients := clients, nextClientId := nextClientId, balances := balances);
        }
      }
      IbcProps.CreateClientKeepsInv(s, who, chainId, initialHeight, trustLevel, unbondingPeriod);
    }

    method UpdateClient(clientId: Id, newHeight: u64) returns (r: Outcome<Error>)
      requires Valid()
      modifies this
      ensures (r, Abstract()) == IbcSpec.UpdateClient(old(Abstract()), clientId, newHeight)
      ensures Valid()
    {
      ghost var s := Abstract();
      if clientId !in clients {
        r := Fail(ClientNotFound);
      } else if !(newHeight > clients[clientId].latestHeight) {
        r := Fail(InvalidClientState);
      } else {
        clients := clients[clientId := clients[clientId].(latestHeight := newHeight)];
        r := Pass;
      }
      IbcProps.UpdateClientKeepsInv(s, clientId, newHeight);
    }

    method ConnectionOpenInit(clientId: Id, counterpartyClientId: Id, version: Bytes) returns (r: Outcome<Error>)
      requires Valid()
      modifies this
      ensures (r, Abstract()) == IbcSpec.ConnectionOpenInit(old(Abstract()), clientId, counterpartyClientId, version)
      ensures Valid()
    {
      ghost var s := Abstract();
      if clientId !in clients {
        r := Fail(ClientNotFound);
      } else if nextConnectionId >= MAX_CONNECTIONS {
        r := Fail(MaxConnectionsReached);
      } else {
        var current := nextConnectionId;
        var connectionId := FormatId(CONNECTION_PREFIX, current);
        nextConnectionId := SatAdd32(current, 1);
        connections := connections[connectionId := ConnectionEnd(ConnInit, clientId, counterpartyClientId, version)];
        r := Pass;
        assert Abstract() == s.(connections := connections, nextConnectionId := nextConnectionId);
      }
      IbcProps.ConnectionOpenInitKeepsInv(s, clientId, counterpartyClientId, version);
    }

    method ChannelOpenInit(portId: Id, connectionId: Id, counterpartyPortId: Id, version: Bytes)
      returns (r: Outcome<Error>)
      requires Valid()
      modifies this
      ensures (r, Abstract()) == IbcSpec.ChannelOpenInit(old(Abstract()), portId, connectionId, counterpartyPortId,
                                                         version)
      ensures Valid()
    {
      ghost var s := Abstract();
      if connectionId !in connections {
        r := Fail(ConnectionNotFound);
      } else if connections[connectionId].state != ConnOpen {
        r := Fail(InvalidConnectionState);
      } else if nextChannelId >= MAX_CHANNELS {
        r := Fail(MaxChannelsReached);
      } else {
        var current := nextChannelId;
        var channelId := FormatId(CHANNEL_PREFIX, current);
        nextChannelId := SatAdd32(current, 1);
        var channel := ChannelEnd(ChanInit, connectionId, portId, counterpartyPortId, version, 1, 1, 1);
        channels := channels[(portId, channelId) := channel];
        r := Pass;
        assert Abstract() == s.(channels := channels, nextChannelId := nextChannelId);
      }
      IbcProps.ChannelOpenInitKeepsInv(s, portId, connectionId, counterpartyPortId, version);
    }

    method SendPacket(who: AccountId, sourcePort: Id, sourceChannel: Id, destinationPort: Id,
                      destinationChannel: Id, data: Bytes, timeoutHeight: u64, timeoutTimestamp: u64)
      returns (r: Outcome<Error>)
      requires Valid()
      modifies this
      ensures (r, Abstract()) == IbcSpec.SendPacket(old(Abstract()), hash, who, sourcePort, sourceChannel,
                                                    destinationPort, destinationChannel, data, timeoutHeight,
                                                    timeoutTimestamp)
      ensures Valid()
    {
      ghost var s := Abstract();
      var paid := Transfer(balances, who, account, PACKET_TRANSMISSION_FEE);
      if paid.None? {
        r := Fail(InsufficientBalance);
      } else if (sourcePort, sourceChannel) !in channels {
        r := Fail(ChannelNotFound);
      } else if channels[(sourcePort, sourceChannel)].state != ChanOpen {
        r := Fail(InvalidChannelState);
      } else {
        var channel := channels[(sourcePort, sourceChannel)];
        balances := paid.value;
        var packet := Packet(channel.nextSequenceSend, sourcePort, sourceChannel, destinationPort,
                             destinationChannel, data, timeoutHeight, timeoutTimestamp);
        commitments := commitments[(sourcePort, channel.nextSequenceSend) := hash(packet)];
        channel := channel.(nextSequenceSend := SatAdd64(channel.nextSequenceSend, 1));
        channels := channels[(sourcePort, sourceChannel) := channel];
        r := Pass;
        assert Abstract() == s.(balances := balances, commitments := commitments, channels := channels);
      }
      IbcProps.SendPacketKeepsInv(s, hash, who, sourcePort, sourceChannel, destinationPort, destinationChannel,
                                  data, timeoutHeight, timeoutTimestamp);
    }

    /** `currentHeight` is the block number, saturated into a `u64`. */
    method RecvPacket(packet: Packet, currentHeight: u64) returns (r: Outcome<Error>)
      requires Valid()
      modifies this
      ensures (r, Abstract()) == IbcSpec.RecvPacket(old(Abstract()), packet, currentHeight)
      ensures Valid()
    {
      ghost var s := Abstract();
      var key := (packet.destinationPort, packet.destinationChannel);
      if key !in channels {
        r := Fail(ChannelNotFound);
      } else if channels[key].state != ChanOpen {
        r := Fail(InvalidChannelState);
      } else if packet.sequence != channels[key].nextSequenceRecv {
        r := Fail(InvalidSequence);
      } else if packet.timeoutHeight > 0 && !(currentHeight < packet.timeoutHeight) {
        r := Fail(PacketTimeout);
      } else {
        var channel := channels[key];
        channel := channel.(nextSequenceRecv := SatAdd64(channel.nextSequenceRecv, 1));
        channels := channels[key := channel];
        acks := acks[(packet.destinationPort, packet.sequence) := SUCCESS_ACK];
        r := Pass;
        assert Abstract() == s.(channels := channels, acks := acks);
      }
      IbcProps.RecvPacketKeepsInv(s, packet, currentHeight);
    }

    method AcknowledgePacket(portId: Id, channelId: Id, sequence: u64, acknowledgement: Bytes)
      returns (r: Outcome<Error>)
      requires Valid()
      modifies this
      ensures (r, Abstract()) == IbcSpec.AcknowledgePacket(old(Abstract()), portId, channelId, sequence,
                                                           acknowledgement)
      ensures Valid()
    {
      ghost var s := Abstract();
      if (portId, sequence) !in commitments {
        r := Fail(PacketNotFound);
      } else {
        commitments := commitments - {(portId, sequence)};
        r := Pass;
      }
      IbcProps.ResolvePacketKeepsInv(s, portId, channelId, sequence, acknowledgement);
    }

    method TimeoutPacket(portId: Id, channelId: Id, sequence: u64) returns (r: Outcome<Error>)
      requires Valid()
      modifies this
      ensures (r, Abstract()) == IbcSpec.TimeoutPacket(old(Abstract()), portId, channelId, sequence)
      ensures Valid()
    {
      ghost var s := Abstract();
      if (portId, sequence) !in commitments {
        r := Fail(PacketNotFound);
      } else {
        commitments := commitments - {(portId, sequence)};
        r := Pass;
      }
      IbcProps.ResolvePacketKeepsInv(s, portId, channelId, sequence, []);
    }

    /** The direct storage write that moves a connection to another state. */
    method SetConnectionState(connectionId: Id, state: ConnectionState) returns (r: Outcome<Error>)
      requires Valid()
      modifies this
      ensures (r, Abstract()) == IbcSpec.SetConnectionState(old(Abstract()), connectionId, state)
      ensures Valid()
    {
      ghost var s := Abstract();
      if connectionId !in connections {
        r := Fail(ConnectionNotFound);
      } else {
        connections := connections[connectionId := connections[connectionId].(state := state)];
        r := Pass;
      }
      IbcProps.SetConnectionStateKeepsInv(s, connectionId, state);
    }

    /** The direct storage write that moves a channel to another state. */
    method SetChannelState(portId: Id, channelId: Id, state: ChannelState) returns (r: Outcome<Error>)
      requires Valid()
      modifies this
      ensures (r, Abstract()) == IbcSpec.SetChannelState(old(Abstract()), portId, channelId, state)
      ensures Valid()
    {
      ghost var s := Abstract();
      if (portId, channelId) !in channels {
        r := Fail(ChannelNotFound);
      } else {
        channels := channels[(portId, channelId) := channels[(portId, channelId)].(state := state)];
        r := Pass;
      }
      IbcProps.SetChannelStateKeepsInv(s, portId, channelId, state);
    }
  }
}
