/**
 * The IBC core pallet as a state machine over its five storage tables and three
 * id counters. Every dispatchable is a transition function from a state to an
 * outcome and a next state; a call that fails returns the state it was given,
 * because FRAME rolls a failing dispatchable back as a whole.
 */
module IbcSpec {
  import opened Common
  import opened Ledger

  /** `ClientId`, `ConnectionId`, `ChannelId` and `PortId` are all `Vec<u8>`. */
  type Id = Bytes

  /** A `BlakeTwo256` digest. */
  type Hash = Bytes

  // Runtime configuration of the pallet.
  const MAX_CLIENTS: nat := 100
  const MAX_CONNECTIONS: nat := 200
  const MAX_CHANNELS: nat := 500
  const CLIENT_CREATION_FEE: Balance := 10
  const PACKET_TRANSMISSION_FEE: Balance := 5

  const CLIENT_PREFIX: Bytes := [99, 108, 105, 101, 110, 116, 45]                    // "client-"
  const CONNECTION_PREFIX: Bytes := [99, 111, 110, 110, 101, 99, 116, 105, 111, 110, 45] // "connection-"
  const CHANNEL_PREFIX: Bytes := [99, 104, 97, 110, 110, 101, 108, 45]               // "channel-"
  const SUCCESS_ACK: Bytes := [115, 117, 99, 99, 101, 115, 115]                      // "success"

  datatype ClientState = ClientState(
    chainId: Bytes,
    latestHeight: u64,
    frozen: bool,
    trustLevel: u32,
    unbondingPeriod: u64)

  datatype ConnectionState = ConnInit | ConnTryOpen | ConnOpen | ConnClosed

  datatype ConnectionEnd = ConnectionEnd(
    state: ConnectionState,
    clientId: Id,
    counterpartyClientId: Id,
    version: Bytes)

  datatype ChannelState = ChanInit | ChanTryOpen | ChanOpen | ChanClosed

  datatype ChannelEnd = ChannelEnd(
    state: ChannelState,
    connectionId: Id,
    portId: Id,
    counterpartyPortId: Id,
    version: Bytes,
    nextSequenceSend: u64,
    nextSequenceRecv: u64,
    nextSequenceAck: u64)

  datatype Packet = Packet(
    sequence: u64,
    sourcePort: Id,
    sourceChannel: Id,
    destinationPort: Id,
    destinationChannel: Id,
    data: Bytes,
    timeoutHeight: u64,
    timeoutTimestamp: u64)

  datatype Error =
    | ClientNotFound | ConnectionNotFound | ChannelNotFound
    | InvalidClientState | InvalidConnectionState | InvalidChannelState
    | PacketAlreadyExists | PacketNotFound | PacketTimeout | InvalidSequence
    | InsufficientBalance
    | MaxClientsReached | MaxConnectionsReached | MaxChannelsReached

  /** The pallet's storage, plus the ledger balances its fees move. */
  datatype State = State(
    clients: map<Id, ClientState>,
    connections: map<Id, ConnectionEnd>,
    channels: map<(Id, Id), ChannelEnd>,        // (port, channel)
    commitments: map<(Id, u64), Hash>,          // (port, sequence)
    acks: map<(Id, u64), Bytes>,                // (port, sequence)
    nextClientId: u32,
    nextConnectionId: u32,
    nextChannelId: u32,
    balances: Balances,
    account: AccountId)                         // the pallet's own account, which collects fees

  type Step = (Outcome<Error>, State)

  /* ---------------------------------------------------------------- ids */

  /** The decimal digits of `n` in ASCII, as `format!("{}", n)` writes them. */
  function Decimal(n: nat): Bytes
    decreases n
  {
    if n < 10 then [48 + n] else Decimal(n / 10) + [48 + n % 10]
  }

  /** `format!("<prefix>{}", n).into_bytes()`. */
  function FormatId(prefix: Bytes, n: nat): Id {
    prefix + Decimal(n)
  }

  /** The ids a counter at `n` has handed out: `<prefix>0` .. `<prefix>{n-1}`. */
  function IdRange(prefix: Bytes, n: nat): set<Id>
    decreases n
  {
    if n == 0 then {} else IdRange(prefix, n - 1) + {FormatId(prefix, n - 1)}
  }

  lemma {:induction false} DecimalNonEmpty(n: nat)
    ensures |Decimal(n)| >= 1
    ensures n >= 10 ==> |Decimal(n)| >= 2
    decreases n
  {
    if n >= 10 {
      DecimalNonEmpty(n / 10);
    }
  }

  /** Distinct numbers print differently. */
  lemma {:induction false} DecimalInjective(a: nat, b: nat)
    requires Decimal(a) == Decimal(b)
    ensures a == b
    decreases a
  {
    DecimalNonEmpty(a);
    DecimalNonEmpty(b);
    if a < 10 || b < 10 {
      assert |Decimal(a)| == |Decimal(b)|;
      assert a < 10 && b < 10;
      assert Decimal(a)[0] == Decimal(b)[0];
    } else {
      var da, db := Decimal(a), Decimal(b);
      assert da == Decimal(a / 10) + [48 + a % 10];
      assert db == Decimal(b / 10) + [48 + b % 10];
      assert da[|da| - 1] == db[|db| - 1];
      assert a % 10 == b % 10;
      assert Decimal(a / 10) == da[..|da| - 1];
      assert Decimal(b / 10) == db[..|db| - 1];
      DecimalInjective(a / 10, b / 10);
    }
  }

  /** Two counter values never produce the same id. */
  lemma FormatIdInjective(prefix: Bytes, a: nat, b: nat)
    requires FormatId(prefix, a) == FormatId(prefix, b)
    ensures a == b
  {
    assert Decimal(a) == FormatId(prefix, a)[|prefix|..];
    assert Decimal(b) == FormatId(prefix, b)[|prefix|..];
    DecimalInjective(a, b);
  }

  /** An id printed from `m` is not among the first `n` when `m >= n`. */
  lemma {:induction false} NotInIdRange(prefix: Bytes, n: nat, m: nat)
    requires m >= n
    ensures FormatId(prefix, m) !in IdRange(prefix, n)
    decreases n
  {
    if n > 0 {
      NotInIdRange(prefix, n - 1, m);
      if FormatId(prefix, m) == FormatId(prefix, n - 1) {
        FormatIdInjective(prefix, m, n - 1);
      }
    }
  }

  /** The id a counter hands out next is not among the ones it handed out before. */
  lemma FreshId(prefix: Bytes, n: nat)
    ensures FormatId(prefix, n) !in IdRange(prefix, n)
    ensures IdRange(prefix, n + 1) == IdRange(prefix, n) + {FormatId(prefix, n)}
  {
    NotInIdRange(prefix, n, n);
  }

  /** The ids in the range are exactly those printed from a number below the counter. */
  lemma {:induction false} InIdRange(prefix: Bytes, n: nat, id: Id)
    ensures id in IdRange(prefix, n) <==> exists k: nat | k < n :: id == FormatId(prefix, k)
    decreases n
  {
    if n > 0 {
      InIdRange(prefix, n - 1, id);
      if id == FormatId(prefix, n - 1) {
        assert exists k: nat | k < n :: id == FormatId(prefix, k);
      } else if exists k: nat | k < n :: id == FormatId(prefix, k) {
        var k: nat :| k < n && id == FormatId(prefix, k);
        assert k < n - 1;
      }
    }
  }

  /* ---------------------------------------------------------- transitions */

  function Genesis(balances: Balances, account: AccountId): State {
    State(map[], map[], map[], map[], map[], 0, 0, 0, balances, account)
  }

  /** `create_client`: capacity check, fee, then a frozen-free client under `client-N`. */
  function CreateClient(s: State, who: AccountId, chainId: Bytes, initialHeight: u64,
                        trustLevel: u32, unbondingPeriod: u64): (st: Step)
    ensures st.0.Fail? ==> st.1 == s
  {
    var current := s.nextClientId;
    if current >= MAX_CLIENTS then (Fail(MaxClientsReached), s)
    else match Transfer(s.balances, who, s.account, CLIENT_CREATION_FEE)
      case None => (Fail(InsufficientBalance), s)
      case Some(balances) =>
        var clientId := FormatId(CLIENT_PREFIX, current);
        var client := ClientState(chainId, initialHeight, false, trustLevel, unbondingPeriod);
        (Pass, s.(clients := s.clients[clientId := client],
                  nextClientId := SatAdd32(current, 1),
                  balances := balances))
  }

  /** `update_client`: the height must strictly grow; nothing else is consulted. */
  function UpdateClient(s: State, clientId: Id, newHeight: u64): (st: Step)
    ensures st.0.Fail? ==> st.1 == s
  {
    if clientId !in s.clients then (Fail(ClientNotFound), s)
    else if newHeight <= s.clients[clientId].latestHeight then (Fail(InvalidClientState), s)
    else (Pass, s.(clients := s.clients[clientId := s.clients[clientId].(latestHeight := newHeight)]))
  }

  /** `connection_open_init`. */
  function ConnectionOpenInit(s: State, clientId: Id, counterpartyClientId: Id, version: Bytes): (st: Step)
    ensures st.0.Fail? ==> st.1 == s
  {
    if clientId !in s.clients then (Fail(ClientNotFound), s)
    else if s.nextConnectionId >= MAX_CONNECTIONS then (Fail(MaxConnectionsReached), s)
    else
      var current := s.nextConnectionId;
      var connectionId := FormatId(CONNECTION_PREFIX, current);
      var connection := ConnectionEnd(ConnInit, clientId, counterpartyClientId, version);
      (Pass, s.(connections := s.connections[connectionId := connection],
                nextConnectionId := SatAdd32(current, 1)))
  }

  /** `channel_open_init`. */
  function ChannelOpenInit(s: State, portId: Id, connectionId: Id, counterpartyPortId: Id, version: Bytes): (st: Step)
    ensures st.0.Fail? ==> st.1 == s
  {
    if connectionId !in s.connections then (Fail(ConnectionNotFound), s)
    else if s.connections[connectionId].state != ConnOpen then (Fail(InvalidConnectionState), s)
    else if s.nextChannelId >= MAX_CHANNELS then (Fail(MaxChannelsReached), s)
    else
      var current := s.nextChannelId;
      var channelId := FormatId(CHANNEL_PREFIX, current);
      var channel := ChannelEnd(ChanInit, connectionId, portId, counterpartyPortId, version, 1, 1, 1);
      (Pass, s.(channels := s.channels[(portId, channelId) := channel],
                nextChannelId := SatAdd32(current, 1)))
  }

  /** `send_packet`: the fee is charged first; the sequence is the channel's `next_sequence_send`. */
  function SendPacket(s: State, hash: Packet -> Hash, who: AccountId,
                      sourcePort: Id, sourceChannel: Id, destinationPort: Id, destinationChannel: Id,
                      data: Bytes, timeoutHeight: u64, timeoutTimestamp: u64): (st: Step)
    ensures st.0.Fail? ==> st.1 == s
  {
    match Transfer(s.balances, who, s.account, PACKET_TRANSMISSION_FEE)
    case None => (Fail(InsufficientBalance), s)
    case Some(balances) =>
      if (sourcePort, sourceChannel) !in s.channels then (Fail(ChannelNotFound), s)
      else
        var channel := s.channels[(sourcePort, sourceChannel)];
        if channel.state != ChanOpen then (Fail(InvalidChannelState), s)
        else
          var sequence := channel.nextSequenceSend;
          var packet := Packet(sequence, sourcePort, sourceChannel, destinationPort, destinationChannel,
                               data, timeoutHeight, timeoutTimestamp);
          (Pass, s.(balances := balances,
                    commitments := s.commitments[(sourcePort, sequence) := hash(packet)],
                    channels := s.channels[(sourcePort, sourceChannel) :=
                                             channel.(nextSequenceSend := SatAdd64(sequence, 1))]))
  }

  /** `recv_packet`: exact-match sequencing, then the height timeout; `currentHeight` is the block number. */
  function RecvPacket(s: State, packet: Packet, currentHeight: u64): (st: Step)
    ensures st.0.Fail? ==> st.1 == s
  {
    var key := (packet.destinationPort, packet.destinationChannel);
    if key !in s.channels then (Fail(ChannelNotFound), s)
    else
      var channel := s.channels[key];
      if channel.state != ChanOpen then (Fail(InvalidChannelState), s)
      else if packet.sequence != channel.nextSequenceRecv then (Fail(InvalidSequence), s)
      else if packet.timeoutHeight > 0 && !(currentHeight < packet.timeoutHeight) then (Fail(PacketTimeout), s)
      else
        (Pass, s.(channels := s.channels[key := channel.(nextSequenceRecv := SatAdd64(channel.nextSequenceRecv, 1))],
                  acks := s.acks[(packet.destinationPort, packet.sequence) := SUCCESS_ACK]))
  }

  /** `acknowledge_packet`: looks the commitment up by port and sequence only. */
  function AcknowledgePacket(s: State, portId: Id, channelId: Id, sequence: u64, acknowledgement: Bytes): (st: Step)
    ensures st.0.Fail? ==> st.1 == s
  {
    if (portId, sequence) !in s.commitments then (Fail(PacketNotFound), s)
    else (Pass, s.(commitments := s.commitments - {(portId, sequence)}))
  }

  /** `timeout_packet`: the same lookup and removal as `acknowledge_packet`. */
  function TimeoutPacket(s: State, portId: Id, channelId: Id, sequence: u64): (st: Step)
    ensures st.0.Fail? ==> st.1 == s
  {
    if (portId, sequence) !in s.commitments then (Fail(PacketNotFound), s)
    else (Pass, s.(commitments := s.commitments - {(portId, sequence)}))
  }

  /**
   * The direct storage write that moves a connection to another state: the
   * pallet has no handshake step past `Init`, so this is the only way a
   * connection becomes `Open`.
   */
  function SetConnectionState(s: State, connectionId: Id, state: ConnectionState): (st: Step)
    ensures st.0.Fail? ==> st.1 == s
  {
    if connectionId !in s.connections then (Fail(ConnectionNotFound), s)
    else (Pass, s.(connections := s.connections[connectionId := s.connections[connectionId].(state := state)]))
  }

  /** The direct storage write that moves a channel to another state. */
  function SetChannelState(s: State, portId: Id, channelId: Id, state: ChannelState): (st: Step)
    ensures st.0.Fail? ==> st.1 == s
  {
    if (portId, channelId) !in s.channels then (Fail(ChannelNotFound), s)
    else (Pass, s.(channels := s.channels[(portId, channelId) := s.channels[(portId, channelId)].(state := state)]))
  }

  /** The id counters never go back, and the pallet account stays the same. */
  predicate Grown(s: State, t: State) {
    && s.nextClientId <= t.nextClientId
    && s.nextConnectionId <= t.nextConnectionId
    && s.nextChannelId <= t.nextChannelId
    && s.account == t.account
  }

  /** One call to the pallet, with the caller and the environment it reads. */
  datatype Call =
    | CreateClientCall(who: AccountId, chainId: Bytes, initialHeight: u64, trustLevel: u32, unbondingPeriod: u64)
    | UpdateClientCall(clientId: Id, newHeight: u64)
    | ConnectionOpenInitCall(clientId: Id, counterpartyClientId: Id, version: Bytes)
    | ChannelOpenInitCall(portId: Id, connectionId: Id, counterpartyPortId: Id, version: Bytes)
    | SendPacketCall(who: AccountId, sourcePort: Id, sourceChannel: Id, destinationPort: Id,
                     destinationChannel: Id, data: Bytes, timeoutHeight: u64, timeoutTimestamp: u64)
    | RecvPacketCall(packet: Packet, currentHeight: u64)
    | AcknowledgePacketCall(portId: Id, channelId: Id, sequence: u64, acknowledgement: Bytes)
    | TimeoutPacketCall(portId: Id, channelId: Id, sequence: u64)
    | SetConnectionStateCall(connectionId: Id, connectionState: ConnectionState)
    | SetChannelStateCall(portId: Id, channelId: Id, channelState: ChannelState)

  function Apply(s: State, hash: Packet -> Hash, c: Call): (st: Step)
    ensures st.0.Fail? ==> st.1 == s
    ensures Grown(s, st.1)
  {
    match c
    case CreateClientCall(who, chainId, h, trust, unbonding) => CreateClient(s, who, chainId, h, trust, unbonding)
    case UpdateClientCall(id, h) => UpdateClient(s, id, h)
    case ConnectionOpenInitCall(id, cp, v) => ConnectionOpenInit(s, id, cp, v)
    case ChannelOpenInitCall(p, conn, cp, v) => ChannelOpenInit(s, p, conn, cp, v)
    case SendPacketCall(who, sp, sc, dp, dc, d, th, tt) => SendPacket(s, hash, who, sp, sc, dp, dc, d, th, tt)
    case RecvPacketCall(packet, h) => RecvPacket(s, packet, h)
    case AcknowledgePacketCall(p, ch, sq, ack) => AcknowledgePacket(s, p, ch, sq, ack)
    case TimeoutPacketCall(p, ch, sq) => TimeoutPacket(s, p, ch, sq)
    case SetConnectionStateCall(id, st) => SetConnectionState(s, id, st)
    case SetChannelStateCall(p, ch, st) => SetChannelState(s, p, ch, st)
  }

  /** The state after a totally ordered sequence of calls. */
  function Run(s: State, hash: Packet -> Hash, calls: seq<Call>): (r: State)
    ensures Grown(s, r)
    decreases |calls|
  {
    if calls == [] then s else Run(Apply(s, hash, calls[0]).1, hash, calls[1..])
  }

  /* ------------------------------------------------------------ invariant */

  function ChannelIds(channels: map<(Id, Id), ChannelEnd>): set<Id> {
    set key | key in channels :: key.1
  }

  /** The clients are exactly those the counter handed out, within capacity, and none is frozen. */
  ghost predicate ClientsInv(clients: map<Id, ClientState>, nextClientId: nat) {
    && nextClientId <= MAX_CLIENTS
    && clients.Keys == IdRange(CLIENT_PREFIX, nextClientId)
    && (forall id | id in clients :: !clients[id].frozen)
  }

  /** The connections are exactly those the counter handed out, within capacity, each on an existing client. */
  ghost predicate ConnectionsInv(connections: map<Id, ConnectionEnd>, nextConnectionId: nat, clientIds: set<Id>) {
    && nextConnectionId <= MAX_CONNECTIONS
    && connections.Keys == IdRange(CONNECTION_PREFIX, nextConnectionId)
    && (forall id | id in connections :: connections[id].clientId in clientIds)
  }

  /** A channel sits under its own port, on an existing connection, with sequences that started at 1. */
  ghost predicate ChannelWellFormed(channel: ChannelEnd, key: (Id, Id), connectionIds: set<Id>) {
    && channel.portId == key.0
    && channel.connectionId in connectionIds
    && channel.nextSequenceSend >= 1
    && channel.nextSequenceRecv >= 1
    && channel.nextSequenceAck == 1
  }

  /**
   * The channel ids are exactly those the counter handed out, within capacity;
   * there are as many channels as ids, so each id lives under one port.
   */
  ghost predicate ChannelsInv(channels: map<(Id, Id), ChannelEnd>, nextChannelId: nat, connectionIds: set<Id>) {
    && nextChannelId <= MAX_CHANNELS
    && ChannelIds(channels) == IdRange(CHANNEL_PREFIX, nextChannelId)
    && |channels| == nextChannelId
    && (forall key | key in channels :: ChannelWellFormed(channels[key], key, connectionIds))
  }

  /** A commitment exists only for a sequence some channel on its port has already issued. */
  ghost predicate CommitmentIssued(channels: map<(Id, Id), ChannelEnd>, key: (Id, u64)) {
    && key.1 >= 1
    && exists chan :: (key.0, chan) in channels && key.1 <= channels[(key.0, chan)].nextSequenceSend
  }

  /** Every commitment was issued, and every stored acknowledgement is `"success"`. */
  ghost predicate PacketsInv(channels: map<(Id, Id), ChannelEnd>, commitments: map<(Id, u64), Hash>,
                             acks: map<(Id, u64), Bytes>) {
    && (forall key | key in commitments :: CommitmentIssued(channels, key))
    && (forall key | key in acks :: acks[key] == SUCCESS_ACK)
  }

  /** What every reachable state satisfies. */
  ghost predicate Inv(s: State) {
    && ClientsInv(s.clients, s.nextClientId)
    && ConnectionsInv(s.connections, s.nextConnectionId, s.clients.Keys)
    && ChannelsInv(s.channels, s.nextChannelId, s.connections.Keys)
    && PacketsInv(s.channels, s.commitments, s.acks)
  }
}
