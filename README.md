# mp_arena_rs replication core, modelled in Dafny

mp_arena_rs is a small server-authoritative multiplayer game built on bevy and
renet. The server owns a lobby table from `ClientId` to `PlayerState` (an input
direction and a position). It changes the table on connect and disconnect
events and on each client's input messages. It moves every player once a tick
and broadcasts the whole table as a snapshot. Each client replaces its local
copy of the table with every snapshot it receives. It moves the entities that
stand for players to their table positions and despawns the ones whose client
has gone. Renderer entities follow their player entity by interpolation.

The model has five modules, one file each:

- `Engine` (engine.dfy): the engine values the core uses (`Vec2`, `Vec3`, `Quat`, `Transform`, entity and client ids).
- `Channels` (channels.dfy): the channel registry of `src/channels.rs`.
- `Server` (server.dfy): `src/server.rs`. This covers its second copy of the registry, the connection config, the lobby and the four server systems.
- `Client` (client.dfy): the three client systems of `src/client.rs`.
- `Rendering` (rendering.dfy): the renderer component, its factory and its update system from `src/rendering/player.rs`.

How the model represents things:

- **Resources and components.** Resources and component stores that the systems update in place are classes, and the systems are methods on them:
  - `Lobby`
  - `RenetServer` and `RenetClient`, holding their receive queues and send logs
  - `ClientWorld` and `RenderWorld`, which hold each entity's components as maps and list the entities in the order a bevy query visits them
- **Specification functions.** Each method is proved against a function of its inputs, such as `OnEvents`, `ReceiveAll`, `Reconciled`, `Stale` or `Interpolated`. Lemmas then prove what the source promises about those functions.
- **Messages.** Messages are the values bincode would encode: table snapshots and `ServerMessage`s. The server's sends are appended to an outbox of (recipient, channel, payload).
- **Numbers.** f32 quantities are `real`.
- **Randomness.** The random spawn point drawn on connect is a parameter: a pair in [0,1) per event.
- **Interpolation.** `interpolate_transform` is a function parameter of the renderer update.

In these places the code behaves in ways a reader might not expect; the model
follows the code:

- **Input channel reliability.** The client's Input channel is `ReliableOrdered` with a zero resend time, not unreliable (`Channels.ClientChannelsConfig`).
- **PlayerConnected recipients.** `PlayerConnected` is broadcast to every client, including the one that just connected, not only to the others (`Server.OnConnect`).
- **Input for a client with no entry.** This input is not ignored. It inserts an entry at the origin with that direction (`Server.ApplyInput`).
- **Undecodable payloads.** An undecodable payload is not dropped: the code unwraps the decode, so it would panic. Decoding is therefore total in the model.
- **Control messages on the client.** The client decodes control messages and ignores them (`Client.ClientReceive`).
- **Spawning on the client.** The client never spawns an entity for a newly seen player. `existing_players` is the lobby table itself, so the spawn test `!existing_players.contains_key(id)` runs over the lobby's own keys and never holds. The model keeps this code as written, and `Client.SpawnBranchIsDead` proves that the branch cannot fire.

## Model

| member | source | states |
|---|---|---|
| Channels.ServerChannelId | src/channels.rs:14-21 | the id of each server channel names that channel again (ServerMessages is 0, PlayerData is 1) |
| Channels.ClientChannelId | src/channels.rs:47-53 | the id of Input, 0, names Input again |
| Channels.ServerChannelIdRoundTrip | src/channels.rs:14-21 | exactly the ids 0 and 1 name a server channel, and encoding the named channel gives the same id back |
| Channels.ServerChannelIdInjective | src/channels.rs:14-21 | the two server channels have different ids |
| Channels.ServerChannelsConfig | src/channels.rs:24-39 | the server registry has two entries, with distinct ids that are the ids of the two channels. ServerMessages is ReliableOrdered with a 200 ms resend and a 10 MiB budget. PlayerData is Unreliable with a 10 MiB budget |
| Channels.ClientChannelsConfig | src/channels.rs:56-64 | the client registry has one entry: Input, ReliableOrdered with a zero resend time and a 5 MiB budget |
| Channels.ReliabilityOfChannels | src/channels.rs:24-64 | control messages and input travel on reliable channels; snapshots do not |
| Server.ClientChannelId | src/server.rs:39-45 | server.rs's copy of the Input id conversion agrees with channels.rs |
| Server.ServerChannelId | src/server.rs:59-66 | server.rs's copy of the server id conversion agrees with channels.rs |
| Server.ClientChannelsConfig | src/server.rs:47-57 | server.rs's copy of the client registry is the channels.rs registry |
| Server.ServerChannelsConfig | src/server.rs:68-85 | server.rs's copy of the server registry is the channels.rs registry |
| Server.MakeConnectionConfig | src/server.rs:87-93 | the connection config has a 1 MiB per-tick byte budget, and each registry has distinct ids that each name a channel of its direction. The snapshot channel is registered and unreliable |
| Server.Lobby.constructor | src/server.rs:95-98 | a new lobby has an empty table |
| Server.RenetServer.SendMessage | src/server.rs:172 | `send_message(c, channel, payload)` appends exactly one message addressed to `c` alone on that channel to the outbox |
| Server.RenetServer.BroadcastMessage | src/server.rs:186 | `broadcast_message(channel, payload)` appends exactly one message addressed to everyone on that channel to the outbox; the same call sends at src/server.rs:197 and src/server.rs:224 |
| Server.RenetServer.ReceiveInput | src/server.rs:205 | the oldest pending input of a client is returned and removed; with none pending, nothing changes |
| Server.OnConnect | src/server.rs:166-187 | after a connect, the client holds the default state, overwriting any earlier entry, and no other entry changes. Exactly two messages are queued. The first is a snapshot to the new client alone, carrying the table after insertion, so the client is in it. The second is a PlayerConnected broadcast on the control channel whose state has a zero direction, height 2 and x, y in [0,10), and is not the state the table stores |
| Server.OnDisconnect | src/server.rs:188-198 | after a disconnect, the client is absent, every other entry is unchanged, and exactly one PlayerDisconnected broadcast goes out on the control channel |
| Server.MembershipFollowsLastEvent | src/server.rs:161-200 | after any batch of events, a client whose latest event is a connect holds the default state, one whose latest event is a disconnect is absent, and one no event mentions keeps its old entry or absence |
| Server.EventMessagesWellAddressed | src/server.rs:170-197 | every snapshot queued by event handling goes to a single client that is in it; every control message goes to everyone |
| Server.HandleNetworkEvents | src/server.rs:156-201 | handling the events in order gives the table and the queued messages of `OnEvents` |
| Server.ApplyInput | src/server.rs:206-217 | one input sets the client's direction. A present client keeps its position; a missing one is inserted at the origin. No other entry changes |
| Server.ApplyInputOverrides | src/server.rs:205-208 | a later input for the same client fully overrides an earlier one |
| Server.ReceiveAllAt | src/server.rs:203-220 | after draining, a listed client with pending input has the last of those inputs as its direction, at its old position or at the origin. Every other client's entry, or absence, is unchanged |
| Server.DrainInputs | src/server.rs:205-218 | popping one client's inputs until none is left applies only the last of them, empties that client's queue and leaves the other queues alone |
| Server.ServerReceive | src/server.rs:203-220 | draining every connected client in renet's order gives `ReceiveAll` of the old table and queues; every queue ends empty and no queue is added or removed |
| Server.ServerBroadcast | src/server.rs:222-225 | exactly one PlayerData broadcast is queued, its payload is the whole table, and the table is unchanged |
| Server.Integrate | src/server.rs:229-230 | the kinematic step never changes the height, and a player with a zero direction does not move |
| Server.Advanced | src/server.rs:227-232 | one tick keeps every client and every direction; each position moves by its own step |
| Server.AdvancedComposes | src/server.rs:229-230 | with exact arithmetic, two ticks move every player as far as one tick of their combined length; in f32 the two can differ by rounding |
| Server.ServerUpdatePlayers | src/server.rs:227-232 | visiting the players in any order leaves the table of `Advanced` |
| Client.RenetClient.ReceivePlayerData | src/client.rs:109 | the oldest pending snapshot is returned and removed; with none pending, nothing changes |
| Client.RenetClient.ReceiveServerMessage | src/client.rs:116 | the oldest pending control message is returned and removed; with none pending, nothing changes |
| Client.RenetClient.SendInput | src/client.rs:103-104 | sending appends exactly the given direction to the Input send log |
| Client.IngestKeepsLatest | src/client.rs:109-114 | replacing the table with one snapshot after another, as the receive loop does, leaves the newest snapshot, so dropped earlier snapshots leave no trace; with no snapshot, the table is unchanged |
| Client.ClientReceive | src/client.rs:108-123 | after receiving, the table is the newest pending snapshot, or the old table if none was pending. Both receive queues end empty, and control messages do not touch the table |
| Client.Reconciled | src/client.rs:157-159 | a player entity whose client is in the table takes the table position and keeps its rotation and scale; every other transform is unchanged |
| Client.StaleExactly | src/client.rs:157-163 | an entity is despawned exactly when it is a player entity whose client is not in the table |
| Client.NewPlayers | src/client.rs:167-168 | the spawn test holds exactly for table clients missing from `existing_players` |
| Client.SpawnBranchIsDead | src/client.rs:154-168 | with `existing_players` being the table itself, the spawn test holds for no client |
| Client.ReconcileEntities | src/client.rs:157-164 | the first loop produces the transforms of `Reconciled` and, in query order, the despawns of `Stale` |
| Client.SpawnNewPlayers | src/client.rs:166-189 | the second loop spawns each client that `existing_players` lacks exactly once, at its table position, and queues nothing when there is none |
| Client.UpdatePlayerEntities | src/client.rs:147-190 | the world stays well-formed; the system moves player entities to their table positions and queues one despawn per stale entity in query order, and no spawn |
| Client.ApplyDespawns | src/client.rs:162 | applying the queued despawns removes exactly the despawned entities |
| Client.ReconcileIdempotent | src/client.rs:157-164 | a second pass against the same table changes no transform and despawns exactly what the first pass despawned |
| Client.SettledIsFixpoint | src/client.rs:157-159 | when every player entity is in the table at its table position, a pass changes nothing |
| Client.SettledNothingStale | src/client.rs:160-163 | when every player entity's client is in the table, a pass despawns nothing |
| Client.ReconcileConverges | src/client.rs:157-164 | once the despawns of a pass are applied, every surviving player entity is in the table at its table position, and a second pass changes nothing and despawns nothing |
| Client.StaleSameKeys | src/client.rs:157-163 | which entities are despawned depends on the transforms only through which entities have one |
| Client.FirstControlled | src/client.rs:97 | the first entity in query order with a controller, a transform and a player component, or none |
| Client.ClientSendInput | src/client.rs:93-106 | at most one input is sent, one is sent exactly when a controlled player entity exists, and it is the first such entity's move direction |
| Rendering.Build | src/rendering/player.rs:26-47 | the bundle's renderer is bound to the given player and starts at translation (0,0,1) |
| Rendering.Interpolated | src/rendering/player.rs:54-64 | each visited renderer whose target exists and is no renderer is interpolated toward the target with factor 1. A renderer with a dangling target is unchanged, and no other transform changes, a player's included |
| Rendering.UpdateOrderIrrelevant | src/rendering/player.rs:54-64 | updating renderers one after the other in any order without repeats gives the same transforms as `Interpolated`, so the order does not matter |
| Rendering.Update | src/rendering/player.rs:50-65 | the world stays well-formed; the system gives the transforms of `Interpolated` over every entity and changes no binding |

## Left out

- f32 rounding: positions, directions and time steps are exact reals.
- `interpolate_transform` (lerp and slerp) is a parameter. What it computes is not modelled, only where and with which factor it is applied.
- bincode encoding and decoding: payloads are values, and decoding never fails. The code unwraps every decode, so a malformed payload would panic rather than be handled.
- renet and netcode transport, UDP sockets, `run_server`/`run_client` setup and command-line parsing are I/O and bootstrap. Delivery is an explicit outbox on the server and explicit receive queues on both ends.
- Per-client delivery of broadcasts is not modelled: the outbox records a broadcast once, with recipient `Everyone`.
- `rand::thread_rng`: the spawn point's two random numbers are a parameter in [0,1).
- The log and print calls, and the `reason` text of a disconnect, have no effect on state.
- Meshes, materials, colours, the camera and keyboard capture are presentation. Renderer and spawn bundles keep only their binding and transform.
- Bevy's command application: only despawn is applied (`Client.ApplyDespawns`); spawning is never reached.
- Bevy's system scheduling and the order of systems within a frame: each system is a method on its own.
- Hash-map iteration order: loops over a map visit its keys in an arbitrary order, and the contracts hold for every order.
- The rollback mode (`src/game.rs`, `src/input.rs`), the player controllers and remote-state modules, and `src/messages.rs`, which declares data only.
- `ClientId` and `Entity` are unbounded naturals: the model does not bound them to 64 bits.
