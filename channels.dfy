/**
 * The channel registry: the logical channels of each direction, the byte that
 * identifies each on the wire, and the renet configuration of each channel.
 */
module Channels {
  import opened Engine

  newtype u8 = x: int | 0 <= x < 256

  /** One mebibyte. */
  const MiB: nat := 1024 * 1024

  /** Channels the server sends on. */
  datatype ServerChannel = ServerMessages | PlayerData

  /** Channels the client sends on. */
  datatype ClientChannel = Input

  /** renet's SendType; resend times are whole milliseconds. */
  datatype SendType =
    | Unreliable
    | ReliableOrdered(resendTimeMs: nat)
    | ReliableUnordered(resendTimeMs: nat)

  datatype ChannelConfig = ChannelConfig(channelId: u8, maxMemoryUsageBytes: nat, sendType: SendType)

  /** The channel a received id names, as renet resolves it against the registry. */
  function ServerChannelFromId(id: u8): Option<ServerChannel>
  {
    if id == 0 then Some(ServerMessages)
    else if id == 1 then Some(PlayerData)
    else None
  }

  /** `From<ServerChannel> for u8`: the id of a server channel, which names it back. */
  function ServerChannelId(c: ServerChannel): (id: u8)
    ensures ServerChannelFromId(id) == Some(c)
  {
    match c
    case ServerMessages => 0
    case PlayerData => 1
  }

  function ClientChannelFromId(id: u8): Option<ClientChannel>
  {
    if id == 0 then Some(Input) else None
  }

  /** `From<ClientChannel> for u8`: the id of a client channel, which names it back. */
  function ClientChannelId(c: ClientChannel): (id: u8)
    ensures ClientChannelFromId(id) == Some(c)
  {
    match c
    case Input => 0
  }

  /** Decoding an id and encoding the channel again gives the id back. */
  lemma ServerChannelIdRoundTrip(id: u8)
    ensures ServerChannelFromId(id).Some? <==> id < 2
    ensures ServerChannelFromId(id).Some? ==> ServerChannelId(ServerChannelFromId(id).value) == id
  {
  }

  /** The two server channels have different ids. */
  lemma ServerChannelIdInjective(a: ServerChannel, b: ServerChannel)
    ensures ServerChannelId(a) == ServerChannelId(b) <==> a == b
  {
    assert ServerChannelFromId(ServerChannelId(a)) == Some(a);
    assert ServerChannelFromId(ServerChannelId(b)) == Some(b);
  }

  /** No two configurations of a registry share an id. */
  predicate DistinctIds(cs: seq<ChannelConfig>)
  {
    forall i, j :: 0 <= i < j < |cs| ==> cs[i].channelId != cs[j].channelId
  }

  /** The configuration registered under an id, if any. */
  function Lookup(cs: seq<ChannelConfig>, id: u8): Option<ChannelConfig>
  {
    if cs == [] then None
    else if cs[0].channelId == id then Some(cs[0])
    else Lookup(cs[1..], id)
  }

  predicate IsReliable(t: SendType)
  {
    !t.Unreliable?
  }

  /**
   * `ServerChannel::channels_config`: exactly the two server channels, each
   * under its own id; control messages reliable and ordered with a 200 ms
   * resend, snapshots unreliable, both with a 10 MiB budget.
   */
  function ServerChannelsConfig(): (cs: seq<ChannelConfig>)
    ensures |cs| == 2 && DistinctIds(cs)
    ensures forall i :: 0 <= i < |cs| ==> ServerChannelFromId(cs[i].channelId).Some?
    ensures Lookup(cs, ServerChannelId(ServerMessages))
         == Some(ChannelConfig(ServerChannelId(ServerMessages), 10 * MiB, ReliableOrdered(200)))
    ensures Lookup(cs, ServerChannelId(PlayerData))
         == Some(ChannelConfig(ServerChannelId(PlayerData), 10 * MiB, Unreliable))
  {
    [ ChannelConfig(ServerChannelId(ServerMessages), 10 * MiB, ReliableOrdered(200)),
      ChannelConfig(ServerChannelId(PlayerData), 10 * MiB, Unreliable) ]
  }

  /**
   * `ClientChannel::channels_config`: the single Input channel, reliable and
   * ordered with a zero resend time and a 5 MiB budget.
   */
  function ClientChannelsConfig(): (cs: seq<ChannelConfig>)
    ensures |cs| == 1 && DistinctIds(cs)
    ensures forall i :: 0 <= i < |cs| ==> ClientChannelFromId(cs[i].channelId).Some?
    ensures Lookup(cs, ClientChannelId(Input))
         == Some(ChannelConfig(ClientChannelId(Input), 5 * MiB, ReliableOrdered(0)))
  {
    [ ChannelConfig(ClientChannelId(Input), 5 * MiB, ReliableOrdered(0)) ]
  }

  /** Control messages and client input travel reliably; snapshots do not. */
  lemma ReliabilityOfChannels()
    ensures IsReliable(Lookup(ServerChannelsConfig(), ServerChannelId(ServerMessages)).value.sendType)
    ensures !IsReliable(Lookup(ServerChannelsConfig(), ServerChannelId(PlayerData)).value.sendType)
    ensures IsReliable(Lookup(ClientChannelsConfig(), ClientChannelId(Input)).value.sendType)
  {
  }
}
