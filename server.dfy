/**
 * The server's authoritative lobby table and the four systems that drive it:
 * connect/disconnect handling, input draining, the snapshot broadcast and the
 * per-tick position update. Messages the server sends are appended to an
 * explicit outbox of (recipient, channel, payload) triples; payloads are the
 * values bincode would encode.
 */
module Server {
  import opened Engine
  import Channels

  // ----- The registry as server.rs declares it (a second copy of channels.rs) -----

  /** server.rs's own `From<ClientChannel> for u8`; it agrees with channels.rs. */
  function ClientChannelId(c: Channels.ClientChannel): (id: Channels.u8)
    ensures id == Channels.ClientChannelId(c)
  {
    match c
    case Input => 0
  }

  /** server.rs's own `From<ServerChannel> for u8`; it agrees with channels.rs. */
  function ServerChannelId(c: Channels.ServerChannel): (id: Channels.u8)
    ensures id == Channels.ServerChannelId(c)
  {
    match c
    case ServerMessages => 0
    case PlayerData => 1
  }

  /** server.rs's own `ClientChannel::channels_config`; it agrees with channels.rs. */
  function ClientChannelsConfig(): (cs: seq<Channels.ChannelConfig>)
    ensures cs == Channels.ClientChannelsConfig()
  {
    [ Channels.ChannelConfig(ClientChannelId(Channels.Input), 5 * Channels.MiB, Channels.ReliableOrdered(0)) ]
  }

  /** server.rs's own `ServerChannel::channels_config`; it agrees with channels.rs. */
  function ServerChannelsConfig(): (cs: seq<Channels.ChannelConfig>)
    ensures cs == Channels.ServerChannelsConfig()
  {
    [ Channels.ChannelConfig(ServerChannelId(Channels.ServerMessages), 10 * Channels.MiB, Channels.ReliableOrdered(200)),
      Channels.ChannelConfig(ServerChannelId(Channels.PlayerData), 10 * Channels.MiB, Channels.Unreliable) ]
  }

  datatype ConnectionConfig = ConnectionConfig(
    availableBytesPerTick: nat,
    clientChannelsConfig: seq<Channels.ChannelConfig>,
    serverChannelsConfig: seq<Channels.ChannelConfig>)

  /**
   * The configuration both ends start from: a 1 MiB per-tick byte budget
   * and, in each direction, a registry whose ids are distinct and each name
   * one channel of that direction.
   */
  function MakeConnectionConfig(): (c: ConnectionConfig)
    ensures c.availableBytesPerTick == Channels.MiB
    ensures Channels.DistinctIds(c.clientChannelsConfig) && Channels.DistinctIds(c.serverChannelsConfig)
    ensures forall i :: 0 <= i < |c.clientChannelsConfig| ==>
              Channels.ClientChannelFromId(c.clientChannelsConfig[i].channelId).Some?
    ensures forall i :: 0 <= i < |c.serverChannelsConfig| ==>
              Channels.ServerChannelFromId(c.serverChannelsConfig[i].channelId).Some?
    ensures Channels.Lookup(c.serverChannelsConfig, ServerChannelId(Channels.PlayerData)).Some?
    ensures !Channels.IsReliable(Channels.Lookup(c.serverChannelsConfig, ServerChannelId(Channels.PlayerData)).value.sendType)
  {
    ConnectionConfig(1024 * 1024, ClientChannelsConfig(), ServerChannelsConfig())
  }

  // ----- Replicated state -----

  const PlayerSpeed: real := 50.0

  datatype PlayerState = PlayerState(inputDir: Vec2, position: Vec3)

  /** `PlayerState::default()`: zero direction, zero position. */
  const DefaultPlayerState := PlayerState(Vec2Zero, Vec3Zero)

  /** `Lobby.player_data`. */
  type PlayerTable = map<ClientId, PlayerState>

  datatype ServerMessage =
    | PlayerConnected(clientId: ClientId, playerState: PlayerState)
    | PlayerDisconnected(clientId: ClientId)

  /** What a message carries before bincode turns it into bytes. */
  datatype Payload = Snapshot(players: PlayerTable) | Control(message: ServerMessage)

  /** `send_message(client_id, ..)` addresses one client, `broadcast_message` all of them. */
  datatype Recipient = OnlyTo(clientId: ClientId) | Everyone

  datatype Outgoing = Outgoing(recipient: Recipient, channel: Channels.ServerChannel, payload: Payload)

  datatype ServerEvent = ClientConnected(clientId: ClientId) | ClientDisconnected(clientId: ClientId, reason: string)

  /** The lobby resource. */
  class Lobby {
    var playerData: PlayerTable

    /** `Lobby::default()`. */
    constructor ()
      ensures playerData == map[]
    {
      playerData := map[];
    }
  }

  /** The part of renet's server that the systems use. */
  class RenetServer {
    /** `clients_id()`: the connected clients, in the order renet lists them. */
    var clientsId: seq<ClientId>
    /** Each connected client's Input receive queue, already decoded. */
    var inputQueues: map<ClientId, seq<Vec2>>
    /** Every message queued for sending so far, oldest first. */
    var outbox: seq<Outgoing>

    /** renet lists each connection once and keeps a queue per connection. */
    ghost predicate Valid()
      reads this
    {
      && Distinct(clientsId)
      && forall c :: c in inputQueues <==> c in clientsId
    }

    method SendMessage(c: ClientId, channel: Channels.ServerChannel, payload: Payload)
      modifies this`outbox
      ensures outbox == old(outbox) + [Outgoing(OnlyTo(c), channel, payload)]
    {
      outbox := outbox + [Outgoing(OnlyTo(c), channel, payload)];
    }

    method BroadcastMessage(channel: Channels.ServerChannel, payload: Payload)
      modifies this`outbox
      ensures outbox == old(outbox) + [Outgoing(Everyone, channel, payload)]
    {
      outbox := outbox + [Outgoing(Everyone, channel, payload)];
    }

    /** `receive_message(c, Input)`: pops the oldest pending input of `c`, if any. */
    method ReceiveInput(c: ClientId) returns (m: Option<Vec2>)
      modifies this`inputQueues
      ensures m.Some? <==> (c in old(inputQueues) && old(inputQueues)[c] != [])
      ensures m.Some? ==> m.value == old(inputQueues)[c][0] && inputQueues == old(inputQueues)[c := old(inputQueues)[c][1..]]
      ensures m.None? ==> inputQueues == old(inputQueues)
    {
      if c in inputQueues && inputQueues[c] != [] {
        m := Some(inputQueues[c][0]);
        inputQueues := inputQueues[c := inputQueues[c][1..]];
      } else {
        m := None;
      }
    }
  }

  // ----- server_handle_network_events -----

  /** The pair drawn with `rng.gen::<f32>()`: both in [0, 1). */
  predicate UnitRoll(roll: Vec2)
  {
    0.0 <= roll.x < 1.0 && 0.0 <= roll.y < 1.0
  }

  predicate AllUnitRolls(rolls: seq<Vec2>)
  {
    forall i :: 0 <= i < |rolls| ==> UnitRoll(rolls[i])
  }

  /** The outcome of handling events: the new table and the messages queued. */
  datatype Step = Step(players: PlayerTable, sent: seq<Outgoing>)

  /**
   * A `ClientConnected{c}` event. The table gains (or resets) `c` with the
   * default state and nothing else changes. Exactly one snapshot is queued,
   * for `c` alone, and it is the table after insertion, so it contains `c`.
   * Then one `PlayerConnected{c, s}` goes to everyone on the control channel,
   * with `s` at a random point of [0,10)x[0,10) at height 2 and a zero
   * direction; `s` is not what the table holds for `c`.
   */
  function OnConnect(t: PlayerTable, c: ClientId, roll: Vec2): (r: Step)
    requires UnitRoll(roll)
    ensures c in r.players && r.players[c] == DefaultPlayerState
    ensures forall k :: k != c ==> (k in r.players <==> k in t)
    ensures forall k :: k in t && k != c ==> r.players[k] == t[k]
    ensures |r.sent| == 2
    ensures r.sent[0].recipient == OnlyTo(c) && r.sent[0].channel == Channels.PlayerData
    ensures r.sent[0].payload == Snapshot(r.players) && c in r.sent[0].payload.players
    ensures r.sent[1].recipient == Everyone && r.sent[1].channel == Channels.ServerMessages
    ensures r.sent[1].payload.Control? && r.sent[1].payload.message.PlayerConnected?
    ensures var m := r.sent[1].payload.message;
      && m.clientId == c
      && m.playerState.inputDir == Vec2Zero
      && m.playerState.position.z == 2.0
      && 0.0 <= m.playerState.position.x < 10.0 && 0.0 <= m.playerState.position.y < 10.0
      && m.playerState != r.players[c]
  {
    var players := t[c := DefaultPlayerState];
    var announced := PlayerState(Vec2Zero, Vec3(roll.x * 10.0, roll.y * 10.0, 2.0));
    Step(players, [ Outgoing(OnlyTo(c), Channels.PlayerData, Snapshot(players)),
                    Outgoing(Everyone, Channels.ServerMessages, Control(PlayerConnected(c, announced))) ])
  }

  /**
   * A `ClientDisconnected{c}` event: `c` leaves the table, every other entry
   * stays, and one `PlayerDisconnected{c}` goes to everyone on the control
   * channel. A `c` that had no entry changes nothing but is still announced.
   */
  function OnDisconnect(t: PlayerTable, c: ClientId): (r: Step)
    ensures c !in r.players
    ensures forall k :: k != c ==> (k in r.players <==> k in t)
    ensures forall k :: k in t && k != c ==> r.players[k] == t[k]
    ensures r.sent == [Outgoing(Everyone, Channels.ServerMessages, Control(PlayerDisconnected(c)))]
  {
    Step(t - {c}, [Outgoing(Everyone, Channels.ServerMessages, Control(PlayerDisconnected(c)))])
  }

  function OnEvent(t: PlayerTable, ev: ServerEvent, roll: Vec2): Step
    requires UnitRoll(roll)
  {
    match ev
    case ClientConnected(c) => OnConnect(t, c, roll)
    case ClientDisconnected(c, _) => OnDisconnect(t, c)
  }

  /** Handling events one after the other, in the order the reader yields them. */
  function OnEvents(t: PlayerTable, evs: seq<ServerEvent>, rolls: seq<Vec2>): Step
    requires |rolls| == |evs| && AllUnitRolls(rolls)
  {
    if evs == [] then Step(t, [])
    else
      var n := |evs| - 1;
      var prev := OnEvents(t, evs[..n], rolls[..n]);
      var last := OnEvent(prev.players, evs[n], rolls[n]);
      Step(last.players, prev.sent + last.sent)
  }

  /** The most recent event about `c`, if any. */
  function LastEventAbout(evs: seq<ServerEvent>, c: ClientId): Option<ServerEvent>
  {
    if evs == [] then None
    else if evs[|evs| - 1].clientId == c then Some(evs[|evs| - 1])
    else LastEventAbout(evs[..|evs| - 1], c)
  }

  /**
   * Membership after any batch of events follows the connection state
   * machine: a client whose latest event is a connect holds the default
   * state, one whose latest event is a disconnect is absent, and a client no
   * event mentions keeps its old entry (or absence).
   */
  lemma {:induction false} MembershipFollowsLastEvent(t: PlayerTable, evs: seq<ServerEvent>, rolls: seq<Vec2>, c: ClientId)
    requires |rolls| == |evs| && AllUnitRolls(rolls)
    ensures var r := OnEvents(t, evs, rolls).players;
      match LastEventAbout(evs, c)
      case None => (c in r <==> c in t) && (c in t ==> r[c] == t[c])
      case Some(ev) => if ev.ClientConnected? then c in r && r[c] == DefaultPlayerState else c !in r
  {
    if evs != [] {
      var n := |evs| - 1;
      assert AllUnitRolls(rolls[..n]);
      MembershipFollowsLastEvent(t, evs[..n], rolls[..n], c);
    }
  }

  /** A snapshot goes to one client and contains it; a control message goes to everyone. */
  predicate WellAddressed(o: Outgoing)
  {
    if o.channel == Channels.PlayerData then
      o.recipient.OnlyTo? && o.payload.Snapshot? && o.recipient.clientId in o.payload.players
    else
      o.recipient == Everyone && o.payload.Control?
  }

  predicate AllWellAddressed(sent: seq<Outgoing>)
  {
    forall i :: 0 <= i < |sent| ==> WellAddressed(sent[i])
  }

  /**
   * Every snapshot that event handling queues goes to one client only, and
   * that client is in it; every control message goes to everyone.
   */
  lemma {:induction false} EventMessagesWellAddressed(t: PlayerTable, evs: seq<ServerEvent>, rolls: seq<Vec2>)
    requires |rolls| == |evs| && AllUnitRolls(rolls)
    ensures AllWellAddressed(OnEvents(t, evs, rolls).sent)
  {
    if evs != [] {
      var n := |evs| - 1;
      assert AllUnitRolls(rolls[..n]);
      EventMessagesWellAddressed(t, evs[..n], rolls[..n]);
      var prev := OnEvents(t, evs[..n], rolls[..n]);
      var last := OnEvent(prev.players, evs[n], rolls[n]);
      assert forall i :: 0 <= i < |last.sent| ==> WellAddressed(last.sent[i]) by {
        match evs[n]
        case ClientConnected(c) =>
          assert last == OnConnect(prev.players, c, rolls[n]);
        case ClientDisconnected(c, _) =>
          assert last == OnDisconnect(prev.players, c);
      }
      var sent := OnEvents(t, evs, rolls).sent;
      assert sent == prev.sent + last.sent;
      forall i | 0 <= i < |sent| ensures WellAddressed(sent[i]) {
        if i < |prev.sent| {
          assert sent[i] == prev.sent[i];
        } else {
          assert sent[i] == last.sent[i - |prev.sent|];
        }
      }
    }
  }

  /** `server_handle_network_events`: handles the events in order, queueing the messages each one sends. */
  method HandleNetworkEvents(events: seq<ServerEvent>, rolls: seq<Vec2>, lobby: Lobby, server: RenetServer)
    requires |rolls| == |events| && AllUnitRolls(rolls)
    modifies lobby, server`outbox
    ensures lobby.playerData == OnEvents(old(lobby.playerData), events, rolls).players
    ensures server.outbox == old(server.outbox) + OnEvents(old(lobby.playerData), events, rolls).sent
  {
    for i := 0 to |events|
      invariant AllUnitRolls(rolls[..i])
      invariant lobby.playerData == OnEvents(old(lobby.playerData), events[..i], rolls[..i]).players
      invariant server.outbox == old(server.outbox) + OnEvents(old(lobby.playerData), events[..i], rolls[..i]).sent
    {
      assert events[..i + 1][..i] == events[..i];
      assert rolls[..i + 1][..i] == rolls[..i];
      match events[i]
      case ClientConnected(c) =>
        lobby.playerData := lobby.playerData[c := DefaultPlayerState];
        server.SendMessage(c, Channels.PlayerData, Snapshot(lobby.playerData));
        var roll := rolls[i];
        var playerState := PlayerState(Vec2Zero, Vec3(roll.x * 10.0, roll.y * 10.0, 2.0));
        server.BroadcastMessage(Channels.ServerMessages, Control(PlayerConnected(c, playerState)));
      case ClientDisconnected(c, _) =>
        lobby.playerData := lobby.playerData - {c};
        server.BroadcastMessage(Channels.ServerMessages, Control(PlayerDisconnected(c)));
    }
    assert events[..|events|] == events;
    assert rolls[..|rolls|] == rolls;
  }

  // ----- server_receive -----

  /**
   * One decoded input for `c`: an existing entry gets the new direction and
   * keeps its position; a missing one is inserted at the origin. No other
   * entry changes.
   */
  function ApplyInput(t: PlayerTable, c: ClientId, dir: Vec2): (r: PlayerTable)
    ensures r.Keys == t.Keys + {c}
    ensures r[c].inputDir == dir
    ensures r[c].position == if c in t then t[c].position else Vec3Zero
    ensures forall k :: k in t && k != c ==> r[k] == t[k]
  {
    if c in t then t[c := t[c].(inputDir := dir)]
    else t[c := PlayerState(dir, Vec3Zero)]
  }

  /** A later input for the same client overrides an earlier one entirely. */
  lemma ApplyInputOverrides(t: PlayerTable, c: ClientId, a: Vec2, b: Vec2)
    ensures ApplyInput(ApplyInput(t, c, a), c, b) == ApplyInput(t, c, b)
  {
  }

  /** What draining `msgs` for `c` leaves: only the last message counts; none changes nothing. */
  function LastInputWins(t: PlayerTable, c: ClientId, msgs: seq<Vec2>): PlayerTable
  {
    if msgs == [] then t else ApplyInput(t, c, msgs[|msgs| - 1])
  }

  /** Applying one more message to a drained prefix gives the drain of the longer prefix. */
  lemma LastInputWinsStep(t: PlayerTable, c: ClientId, msgs: seq<Vec2>, k: nat)
    requires k < |msgs|
    ensures ApplyInput(LastInputWins(t, c, msgs[..k]), c, msgs[k]) == LastInputWins(t, c, msgs[..k + 1])
  {
    assert msgs[..k + 1][k] == msgs[k];
    if k > 0 {
      ApplyInputOverrides(t, c, msgs[k - 1], msgs[k]);
    }
  }

  /** The pending inputs of `c` (none for a client without a queue). */
  function PendingInputs(queues: map<ClientId, seq<Vec2>>, c: ClientId): seq<Vec2>
  {
    if c in queues then queues[c] else []
  }

  /** Draining the clients in the order given. */
  function ReceiveAll(t: PlayerTable, clients: seq<ClientId>, queues: map<ClientId, seq<Vec2>>): PlayerTable
  {
    if clients == [] then t
    else
      var n := |clients| - 1;
      LastInputWins(ReceiveAll(t, clients[..n], queues), clients[n], PendingInputs(queues, clients[n]))
  }

  /**
   * After draining, a listed client with pending input has the last of it as
   * its direction, at its old position or at the origin if it had no entry;
   * every other entry, and every absence, is as before.
   */
  lemma {:induction false} ReceiveAllAt(t: PlayerTable, clients: seq<ClientId>, queues: map<ClientId, seq<Vec2>>, c: ClientId)
    ensures var r := ReceiveAll(t, clients, queues);
      var msgs := PendingInputs(queues, c);
      if c in clients && msgs != [] then
        c in r && r[c] == PlayerState(msgs[|msgs| - 1], if c in t then t[c].position else Vec3Zero)
      else
        (c in r <==> c in t) && (c in t ==> r[c] == t[c])
  {
    if clients != [] {
      var n := |clients| - 1;
      ReceiveAllAt(t, clients[..n], queues, c);
      assert c in clients <==> c in clients[..n] || c == clients[n];
    }
  }

  /**
   * The `while let` loop of `server_receive` for one client: pops its inputs
   * one by one and applies each; its queue ends empty and no other queue
   * changes.
   */
  method DrainInputs(server: RenetServer, lobby: Lobby, c: ClientId)
    modifies lobby, server`inputQueues
    ensures lobby.playerData == LastInputWins(old(lobby.playerData), c, PendingInputs(old(server.inputQueues), c))
    ensures server.inputQueues == if c in old(server.inputQueues) then old(server.inputQueues)[c := []] else old(server.inputQueues)
  {
    ghost var q0 := server.inputQueues;
    ghost var msgs := PendingInputs(q0, c);
    ghost var k := 0;
    var players := lobby.playerData;
    ghost var before := players;
    var m := server.ReceiveInput(c);
    while m.Some?
      invariant 0 <= k <= |msgs|
      invariant m.Some? ==> k < |msgs| && m.value == msgs[k] && PendingInputs(server.inputQueues, c) == msgs[k + 1..]
      invariant m.None? ==> k == |msgs| && PendingInputs(server.inputQueues, c) == []
      invariant c in q0 ==> c in server.inputQueues && server.inputQueues == q0[c := server.inputQueues[c]]
      invariant c !in q0 ==> server.inputQueues == q0
      invariant players == LastInputWins(before, c, msgs[..k])
      decreases |PendingInputs(server.inputQueues, c)| + (if m.Some? then 1 else 0)
    {
      var inputDir := m.value;
      LastInputWinsStep(before, c, msgs, k);
      if c in players {
        players := players[c := players[c].(inputDir := inputDir)];
      } else {
        players := players[c := PlayerState(inputDir, Vec3Zero)];
      }
      k := k + 1;
      m := server.ReceiveInput(c);
    }
    assert msgs[..k] == msgs;
    lobby.playerData := players;
  }

  /**
   * `server_receive`: drains every connected client in the order renet lists
   * them. Every queue ends empty.
   */
  method ServerReceive(server: RenetServer, lobby: Lobby)
    requires server.Valid()
    modifies lobby, server`inputQueues
    ensures server.Valid()
    ensures lobby.playerData == ReceiveAll(old(lobby.playerData), server.clientsId, old(server.inputQueues))
    ensures server.inputQueues.Keys == old(server.inputQueues).Keys
    ensures forall c :: c in server.inputQueues ==> server.inputQueues[c] == []
  {
    ghost var q0 := server.inputQueues;
    ghost var t0 := lobby.playerData;
    var ids := server.clientsId;
    for i := 0 to |ids|
      invariant server.inputQueues == Drained(q0, Elements(ids[..i]))
      invariant lobby.playerData == ReceiveAll(t0, ids[..i], q0)
    {
      var c := ids[i];
      assert c !in ids[..i];
      ElementsExactly(ids[..i]);
      DrainedStep(q0, Elements(ids[..i]), c);
      DrainInputs(server, lobby, c);
      assert ids[..i + 1][..i] == ids[..i];
    }
    assert ids[..|ids|] == ids;
    ElementsExactly(ids);
  }

  /** The queues once the clients in `done` have been drained. */
  function Drained(queues: map<ClientId, seq<Vec2>>, done: set<ClientId>): (r: map<ClientId, seq<Vec2>>)
    ensures r.Keys == queues.Keys
    ensures forall c :: c in queues && c !in done ==> r[c] == queues[c]
    ensures forall c :: c in queues && c in done ==> r[c] == []
  {
    map c | c in queues :: if c in done then [] else queues[c]
  }

  /** Draining one more client: its pending inputs are the original ones, and its queue empties. */
  lemma DrainedStep(queues: map<ClientId, seq<Vec2>>, done: set<ClientId>, c: ClientId)
    requires c !in done
    ensures PendingInputs(Drained(queues, done), c) == PendingInputs(queues, c)
    ensures c in Drained(queues, done) ==> Drained(queues, done)[c := []] == Drained(queues, done + {c})
    ensures c !in Drained(queues, done) ==> Drained(queues, done) == Drained(queues, done + {c})
  {
  }

  // ----- server_broadcast -----

  /** `server_broadcast`: one snapshot of the whole table to everyone; the table is untouched. */
  method ServerBroadcast(server: RenetServer, lobby: Lobby)
    modifies server`outbox
    ensures server.outbox == old(server.outbox) + [Outgoing(Everyone, Channels.PlayerData, Snapshot(lobby.playerData))]
    ensures lobby.playerData == old(lobby.playerData)
  {
    server.BroadcastMessage(Channels.PlayerData, Snapshot(lobby.playerData));
  }

  // ----- server_update_players -----

  /**
   * The kinematic step `position += input_dir.extend(0.0) * PLAYER_SPEED * dt`:
   * the height never changes, and a player with no input stays where it is.
   */
  function Integrate(s: PlayerState, dt: real): (p: Vec3)
    ensures p.z == s.position.z
    ensures s.inputDir == Vec2Zero ==> p == s.position
  {
    Vec3(s.position.x + s.inputDir.x * PlayerSpeed * dt,
         s.position.y + s.inputDir.y * PlayerSpeed * dt,
         s.position.z + 0.0 * PlayerSpeed * dt)
  }

  /**
   * The table after one tick: the same clients with the same directions;
   * only positions move, each by its own step.
   */
  function Advanced(t: PlayerTable, dt: real): (r: PlayerTable)
    ensures r.Keys == t.Keys
    ensures forall c :: c in t ==> r[c].inputDir == t[c].inputDir && r[c].position == Integrate(t[c], dt)
  {
    map c | c in t :: t[c].(position := Integrate(t[c], dt))
  }

  /** Two ticks move every player as far as one tick of their combined length. */
  lemma AdvancedComposes(t: PlayerTable, dt1: real, dt2: real)
    ensures Advanced(Advanced(t, dt1), dt2) == Advanced(t, dt1 + dt2)
  {
    var a, b := Advanced(Advanced(t, dt1), dt2), Advanced(t, dt1 + dt2);
    forall c | c in t
      ensures a[c] == b[c]
    {
      var s := t[c];
      var m := Advanced(t, dt1)[c];
      assert m.inputDir == s.inputDir && m.position == Integrate(s, dt1);
      assert a[c].inputDir == s.inputDir && a[c].position == Integrate(m, dt2);
      assert b[c].inputDir == s.inputDir && b[c].position == Integrate(s, dt1 + dt2);
      assert s.inputDir.x * PlayerSpeed * (dt1 + dt2) == s.inputDir.x * PlayerSpeed * dt1 + s.inputDir.x * PlayerSpeed * dt2;
      assert s.inputDir.y * PlayerSpeed * (dt1 + dt2) == s.inputDir.y * PlayerSpeed * dt1 + s.inputDir.y * PlayerSpeed * dt2;
    }
  }

  /** `server_update_players`: moves every player by its own input, in whatever order the map yields them. */
  method ServerUpdatePlayers(lobby: Lobby, dt: real)
    modifies lobby
    ensures lobby.playerData == Advanced(old(lobby.playerData), dt)
  {
    ghost var t0 := lobby.playerData;
    var todo := lobby.playerData.Keys;
    while todo != {}
      invariant todo <= t0.Keys
      invariant lobby.playerData.Keys == t0.Keys
      invariant forall c :: c in t0 ==>
        lobby.playerData[c] == if c in todo then t0[c] else t0[c].(position := Integrate(t0[c], dt))
      decreases todo
    {
      var c :| c in todo;
      var playerState := lobby.playerData[c];
      lobby.playerData := lobby.playerData[c := playerState.(position := Integrate(playerState, dt))];
      todo := todo - {c};
    }
  }
}
