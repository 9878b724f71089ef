/**
 * The client's side of replication: taking in snapshots and control
 * messages, reconciling the local player entities with the latest lobby, and
 * sending the local input.
 *
 * Bevy defers `commands.entity(e).despawn()` and `commands.spawn(..)` to the
 * end of the frame; the model records them as a command queue and, where a
 * property is about the next frame, applies them with `ApplyDespawns`.
 */
module Client {
  import opened Engine
  import Channels
  import opened Server

  /** The part of renet's client that the systems use; received payloads are already decoded. */
  class RenetClient {
    /** Snapshots pending on the PlayerData channel, oldest first. */
    var playerDataQueue: seq<PlayerTable>
    /** Control messages pending on the ServerMessages channel, oldest first. */
    var serverMessagesQueue: seq<ServerMessage>
    /** Every input sent on the Input channel so far, oldest first. */
    var sentInputs: seq<Vec2>

    method ReceivePlayerData() returns (m: Option<PlayerTable>)
      modifies this`playerDataQueue
      ensures m.Some? <==> old(playerDataQueue) != []
      ensures m.Some? ==> m.value == old(playerDataQueue)[0] && playerDataQueue == old(playerDataQueue)[1..]
      ensures m.None? ==> playerDataQueue == old(playerDataQueue)
    {
      if playerDataQueue != [] {
        m := Some(playerDataQueue[0]);
        playerDataQueue := playerDataQueue[1..];
      } else {
        m := None;
      }
    }

    method ReceiveServerMessage() returns (m: Option<ServerMessage>)
      modifies this`serverMessagesQueue
      ensures m.Some? <==> old(serverMessagesQueue) != []
      ensures m.Some? ==> m.value == old(serverMessagesQueue)[0] && serverMessagesQueue == old(serverMessagesQueue)[1..]
      ensures m.None? ==> serverMessagesQueue == old(serverMessagesQueue)
    {
      if serverMessagesQueue != [] {
        m := Some(serverMessagesQueue[0]);
        serverMessagesQueue := serverMessagesQueue[1..];
      } else {
        m := None;
      }
    }

    method SendInput(dir: Vec2)
      modifies this`sentInputs
      ensures sentInputs == old(sentInputs) + [dir]
    {
      sentInputs := sentInputs + [dir];
    }
  }

  // ----- client_receive -----

  /** Taking in snapshots one after the other, each replacing the whole table. */
  function IngestSnapshots(t: PlayerTable, snapshots: seq<PlayerTable>): PlayerTable
    decreases |snapshots|
  {
    if snapshots == [] then t else IngestSnapshots(snapshots[0], snapshots[1..])
  }

  /** The table the newest snapshot carries, or `t` when none arrived. */
  function LatestSnapshot(t: PlayerTable, snapshots: seq<PlayerTable>): PlayerTable
  {
    if snapshots == [] then t else snapshots[|snapshots| - 1]
  }

  /**
   * Only the newest snapshot matters: whatever came before it, including
   * snapshots that were lost, leaves no trace.
   */
  lemma {:induction false} IngestKeepsLatest(t: PlayerTable, snapshots: seq<PlayerTable>)
    ensures IngestSnapshots(t, snapshots) == LatestSnapshot(t, snapshots)
    decreases |snapshots|
  {
    if snapshots != [] {
      IngestKeepsLatest(snapshots[0], snapshots[1..]);
    }
  }

  /**
   * `client_receive`: drains the PlayerData channel, each snapshot replacing
   * the lobby wholesale, then drains the ServerMessages channel, whose
   * messages are decoded and ignored.
   */
  method ClientReceive(client: RenetClient, lobby: Lobby)
    modifies lobby, client`playerDataQueue, client`serverMessagesQueue
    ensures lobby.playerData == LatestSnapshot(old(lobby.playerData), old(client.playerDataQueue))
    ensures client.playerDataQueue == [] && client.serverMessagesQueue == []
  {
    ghost var t0 := lobby.playerData;
    ghost var q0 := client.playerDataQueue;
    ghost var k := 0;
    var m := client.ReceivePlayerData();
    while m.Some?
      invariant 0 <= k <= |q0|
      invariant m.Some? ==> k < |q0| && m.value == q0[k] && client.playerDataQueue == q0[k + 1..]
      invariant m.None? ==> k == |q0| && client.playerDataQueue == []
      invariant lobby.playerData == IngestSnapshots(t0, q0[..k])
      decreases |client.playerDataQueue| + (if m.Some? then 1 else 0)
    {
      var players := m.value;
      lobby.playerData := players;
      k := k + 1;
      IngestKeepsLatest(t0, q0[..k]);
      m := client.ReceivePlayerData();
    }
    assert q0[..k] == q0;
    IngestKeepsLatest(t0, q0);

    ghost var lobbyAfterData := lobby.playerData;
    var message := client.ReceiveServerMessage();
    while message.Some?
      invariant message.None? ==> client.serverMessagesQueue == []
      invariant client.playerDataQueue == []
      invariant lobby.playerData == lobbyAfterData
      decreases |client.serverMessagesQueue| + (if message.Some? then 1 else 0)
    {
      message := client.ReceiveServerMessage();
    }
  }

  // ----- update_player_entities -----

  /** A deferred entity command. */
  datatype Command = Despawn(entity: Entity) | SpawnPlayer(clientId: ClientId, translation: Vec3)

  /** The client's entities and the components the replication systems query. */
  class ClientWorld {
    /** Live entities, in the order queries visit them. */
    var entities: seq<Entity>
    var transforms: map<Entity, Transform>
    /** The `PlayerEntity { client_id }` component. */
    var playerEntity: map<Entity, ClientId>
    /** `PlayerController.move_direction`. */
    var controllers: map<Entity, Vec2>
    /** Commands queued this frame, oldest first. */
    var commands: seq<Command>

    /** Entities are listed once, and only live entities carry components. */
    ghost predicate Valid()
      reads this
    {
      && Distinct(entities)
      && (forall e :: e in transforms ==> e in entities)
      && (forall e :: e in playerEntity ==> e in entities)
      && (forall e :: e in controllers ==> e in entities)
    }
  }

  /** Matched by `Query<(Entity, &mut Transform, &PlayerEntity)>`. */
  predicate IsPlayerEntity(transforms: map<Entity, Transform>, playerEntity: map<Entity, ClientId>, e: Entity)
  {
    e in transforms && e in playerEntity
  }

  /**
   * The transforms after reconciling with `t`: a player entity whose client
   * is in the lobby moves to the lobby position, keeping rotation and scale;
   * every other transform is untouched.
   */
  function Reconciled(transforms: map<Entity, Transform>, playerEntity: map<Entity, ClientId>, t: PlayerTable): (r: map<Entity, Transform>)
    ensures r.Keys == transforms.Keys
    ensures forall e :: IsPlayerEntity(transforms, playerEntity, e) && playerEntity[e] in t ==>
      r[e] == transforms[e].(translation := t[playerEntity[e]].position)
    ensures forall e :: e in transforms && !(e in playerEntity && playerEntity[e] in t) ==> r[e] == transforms[e]
  {
    map e | e in transforms :: if e in playerEntity && playerEntity[e] in t
                               then transforms[e].(translation := t[playerEntity[e]].position)
                               else transforms[e]
  }

  /** `Reconciled` restricted to the entities in `done`: the first loop once it has visited them. */
  function ReconciledWithin(transforms: map<Entity, Transform>, playerEntity: map<Entity, ClientId>, t: PlayerTable, done: set<Entity>): (r: map<Entity, Transform>)
    ensures r.Keys == transforms.Keys
  {
    map e | e in transforms :: if e in done && e in playerEntity && playerEntity[e] in t
                               then transforms[e].(translation := t[playerEntity[e]].position)
                               else transforms[e]
  }

  /** Visiting one more entity extends the set the first loop has reconciled. */
  lemma ReconcileStep(transforms: map<Entity, Transform>, playerEntity: map<Entity, ClientId>, t: PlayerTable, done: set<Entity>, x: Entity)
    ensures var r := ReconciledWithin(transforms, playerEntity, t, done);
      (if x in r && x in playerEntity && playerEntity[x] in t then r[x := r[x].(translation := t[playerEntity[x]].position)] else r)
      == ReconciledWithin(transforms, playerEntity, t, done + {x})
  {
  }

  /** Once every entity with a transform is visited, the loop has reconciled them all. */
  lemma ReconciledWithinAll(transforms: map<Entity, Transform>, playerEntity: map<Entity, ClientId>, t: PlayerTable, done: set<Entity>)
    requires transforms.Keys <= done
    ensures ReconciledWithin(transforms, playerEntity, t, done) == Reconciled(transforms, playerEntity, t)
  {
  }

  /** The player entities of `entities`, in order, whose client has left the lobby. */
  function Stale(entities: seq<Entity>, transforms: map<Entity, Transform>, playerEntity: map<Entity, ClientId>, t: PlayerTable): seq<Entity>
  {
    if entities == [] then []
    else
      var n := |entities| - 1;
      var e := entities[n];
      Stale(entities[..n], transforms, playerEntity, t)
        + if IsPlayerEntity(transforms, playerEntity, e) && playerEntity[e] !in t then [e] else []
  }

  /** The first loop's despawn list grows by the entity it visits, when that entity is stale. */
  lemma StaleStep(entities: seq<Entity>, i: nat, transforms: map<Entity, Transform>, playerEntity: map<Entity, ClientId>, t: PlayerTable)
    requires i < |entities|
    ensures Stale(entities[..i + 1], transforms, playerEntity, t)
         == Stale(entities[..i], transforms, playerEntity, t)
            + if IsPlayerEntity(transforms, playerEntity, entities[i]) && playerEntity[entities[i]] !in t then [entities[i]] else []
  {
    assert entities[..i + 1][..i] == entities[..i];
  }

  /** An entity is despawned exactly when it is a listed player entity whose client is not in the lobby. */
  lemma {:induction false} StaleExactly(entities: seq<Entity>, transforms: map<Entity, Transform>, playerEntity: map<Entity, ClientId>, t: PlayerTable, e: Entity)
    ensures e in Stale(entities, transforms, playerEntity, t) <==>
            e in entities && IsPlayerEntity(transforms, playerEntity, e) && playerEntity[e] !in t
  {
    if entities != [] {
      var n := |entities| - 1;
      StaleExactly(entities[..n], transforms, playerEntity, t, e);
      assert entities == entities[..n] + [entities[n]];
    }
  }

  function Despawns(es: seq<Entity>): (cs: seq<Command>)
    ensures |cs| == |es| && forall i :: 0 <= i < |es| ==> cs[i] == Despawn(es[i])
  {
    seq(|es|, i requires 0 <= i < |es| => Despawn(es[i]))
  }


  /** The ids of lobby clients that `existing` does not know: the spawn branch's test. */
  function NewPlayers(lobby: PlayerTable, existing: PlayerTable): (s: set<ClientId>)
    ensures forall c :: c in s <==> c in lobby && c !in existing
  {
    set c | c in lobby && c !in existing
  }

  /**
   * `existing_players` is `&lobby.player_data` itself, so the spawn branch
   * tests a lobby key against the lobby: it never fires.
   */
  lemma SpawnBranchIsDead(lobby: PlayerTable)
    ensures NewPlayers(lobby, lobby) == {}
  {
  }

  /**
   * The first loop of `update_player_entities`, over the player entities in
   * query order: one whose client is in the lobby takes the lobby position,
   * one whose client is not is despawned. Returns the new transforms and,
   * in order, the entities whose despawn it queues.
   */
  method ReconcileEntities(entities: seq<Entity>, transforms: map<Entity, Transform>, playerEntity: map<Entity, ClientId>, lobby: PlayerTable)
    returns (reconciled: map<Entity, Transform>, despawned: seq<Entity>)
    requires transforms.Keys <= Elements(entities)
    ensures reconciled == Reconciled(transforms, playerEntity, lobby)
    ensures despawned == Stale(entities, transforms, playerEntity, lobby)
  {
    reconciled, despawned := transforms, [];
    for i := 0 to |entities|
      invariant reconciled == ReconciledWithin(transforms, playerEntity, lobby, Elements(entities[..i]))
      invariant despawned == Stale(entities[..i], transforms, playerEntity, lobby)
    {
      var e := entities[i];
      assert entities[..i + 1][..i] == entities[..i];
      ReconcileStep(transforms, playerEntity, lobby, Elements(entities[..i]), e);
      StaleStep(entities, i, transforms, playerEntity, lobby);
      if e in reconciled && e in playerEntity {
        var clientId := playerEntity[e];
        if clientId in lobby {
          var playerState := lobby[clientId];
          reconciled := reconciled[e := reconciled[e].(translation := playerState.position)];
        } else {
          despawned := despawned + [e];
        }
      }
    }
    assert entities[..|entities|] == entities;
    ReconciledWithinAll(transforms, playerEntity, lobby, Elements(entities));
  }

  /**
   * The second loop of `update_player_entities`, over the lobby in whatever
   * order the map yields it: each client that `existing` does not know gets
   * exactly one spawn, at its lobby position, and nothing else is queued.
   */
  method SpawnNewPlayers(lobby: PlayerTable, existing: PlayerTable) returns (spawns: seq<Command>)
    ensures forall i :: 0 <= i < |spawns| ==>
      && spawns[i].SpawnPlayer?
      && spawns[i].clientId in NewPlayers(lobby, existing)
      && spawns[i].translation == lobby[spawns[i].clientId].position
    ensures forall c :: c in NewPlayers(lobby, existing) ==> exists i :: 0 <= i < |spawns| && spawns[i].clientId == c
    ensures forall i, j :: 0 <= i < j < |spawns| ==> spawns[i].clientId != spawns[j].clientId
    ensures NewPlayers(lobby, existing) == {} ==> spawns == []
  {
    spawns := [];
    var todo := lobby.Keys;
    ghost var spawnedAt: map<ClientId, nat> := map[];
    while todo != {}
      invariant todo <= lobby.Keys
      invariant forall i :: 0 <= i < |spawns| ==>
        && spawns[i].SpawnPlayer?
        && spawns[i].clientId in NewPlayers(lobby, existing) - todo
        && spawns[i].translation == lobby[spawns[i].clientId].position
      invariant forall c :: c in NewPlayers(lobby, existing) - todo ==>
        c in spawnedAt && spawnedAt[c] < |spawns| && spawns[spawnedAt[c]].clientId == c
      invariant forall i, j :: 0 <= i < j < |spawns| ==> spawns[i].clientId != spawns[j].clientId
      invariant NewPlayers(lobby, existing) == {} ==> spawns == []
      decreases todo
    {
      var clientId :| clientId in todo;
      var playerState := lobby[clientId];
      if clientId !in existing {
        assert clientId in NewPlayers(lobby, existing);
        spawnedAt := spawnedAt[clientId := |spawns|];
        spawns := spawns + [SpawnPlayer(clientId, playerState.position)];
      }
      todo := todo - {clientId};
    }
    forall c | c in NewPlayers(lobby, existing)
      ensures exists i :: 0 <= i < |spawns| && spawns[i].clientId == c
    {
      assert spawns[spawnedAt[c]].clientId == c;
    }
  }

  /**
   * `update_player_entities`. Each player entity whose client is in the lobby
   * takes the lobby position; each whose client is not is despawned; and,
   * because `existing_players` is the lobby itself, nothing is spawned.
   */
  method UpdatePlayerEntities(world: ClientWorld, lobby: Lobby)
    requires world.Valid()
    modifies world`transforms, world`commands
    ensures world.Valid()
    ensures world.transforms == Reconciled(old(world.transforms), world.playerEntity, lobby.playerData)
    ensures world.commands == old(world.commands)
                              + Despawns(Stale(world.entities, old(world.transforms), world.playerEntity, lobby.playerData))
  {
    var existingPlayers := lobby.playerData;
    ElementsExactly(world.entities);
    var reconciled, despawned := ReconcileEntities(world.entities, world.transforms, world.playerEntity, lobby.playerData);
    var spawns := SpawnNewPlayers(lobby.playerData, existingPlayers);
    SpawnBranchIsDead(lobby.playerData);
    world.transforms := reconciled;
    world.commands := world.commands + Despawns(despawned) + spawns;
  }

  /** bevy applying the despawns at the end of the frame: the entities and their components go. */
  function ApplyDespawns(entities: seq<Entity>, gone: set<Entity>): (r: seq<Entity>)
    ensures forall e :: e in r <==> e in entities && e !in gone
  {
    if entities == [] then []
    else (if entities[0] in gone then [] else [entities[0]]) + ApplyDespawns(entities[1..], gone)
  }

  /**
   * Reconciling twice against the same lobby in one frame: the second pass
   * changes no transform and despawns exactly what the first pass did.
   */
  lemma ReconcileIdempotent(entities: seq<Entity>, transforms: map<Entity, Transform>, playerEntity: map<Entity, ClientId>, t: PlayerTable)
    ensures Reconciled(Reconciled(transforms, playerEntity, t), playerEntity, t) == Reconciled(transforms, playerEntity, t)
    ensures Stale(entities, Reconciled(transforms, playerEntity, t), playerEntity, t) == Stale(entities, transforms, playerEntity, t)
  {
    StaleSameKeys(entities, transforms, Reconciled(transforms, playerEntity, t), playerEntity, t);
  }

  /** Every player entity is in the lobby, at its lobby position. */
  ghost predicate Settled(transforms: map<Entity, Transform>, playerEntity: map<Entity, ClientId>, t: PlayerTable)
  {
    forall e :: IsPlayerEntity(transforms, playerEntity, e) ==>
      playerEntity[e] in t && transforms[e].translation == t[playerEntity[e]].position
  }

  /** Reconciling a settled world changes no transform. */
  lemma SettledIsFixpoint(transforms: map<Entity, Transform>, playerEntity: map<Entity, ClientId>, t: PlayerTable)
    requires Settled(transforms, playerEntity, t)
    ensures Reconciled(transforms, playerEntity, t) == transforms
  {
    var r := Reconciled(transforms, playerEntity, t);
    forall e | e in transforms
      ensures r[e] == transforms[e]
    {
    }
  }

  /** Reconciling a settled world despawns nothing. */
  lemma SettledNothingStale(entities: seq<Entity>, transforms: map<Entity, Transform>, playerEntity: map<Entity, ClientId>, t: PlayerTable)
    requires Settled(transforms, playerEntity, t)
    ensures Stale(entities, transforms, playerEntity, t) == []
  {
    var s := Stale(entities, transforms, playerEntity, t);
    if s != [] {
      StaleExactly(entities, transforms, playerEntity, t, s[0]);
    }
  }

  /**
   * Once the despawns of a pass are applied, every surviving player entity's
   * client is in the lobby and the entity sits at its lobby position; a
   * second pass despawns nothing and changes nothing.
   */
  lemma ReconcileConverges(entities: seq<Entity>, transforms: map<Entity, Transform>, playerEntity: map<Entity, ClientId>, t: PlayerTable)
    requires forall e :: e in transforms ==> e in entities
    ensures var gone := Elements(Stale(entities, transforms, playerEntity, t));
      var T2, P2 := Reconciled(transforms, playerEntity, t) - gone, playerEntity - gone;
      && Settled(T2, P2, t)
      && Reconciled(T2, P2, t) == T2
      && Stale(ApplyDespawns(entities, gone), T2, P2, t) == []
  {
    var gone := Elements(Stale(entities, transforms, playerEntity, t));
    ElementsExactly(Stale(entities, transforms, playerEntity, t));
    var T2, P2 := Reconciled(transforms, playerEntity, t) - gone, playerEntity - gone;
    forall e | IsPlayerEntity(T2, P2, e)
      ensures P2[e] in t
    {
      StaleExactly(entities, transforms, playerEntity, t, e);
    }
    SettledIsFixpoint(T2, P2, t);
    SettledNothingStale(ApplyDespawns(entities, gone), T2, P2, t);
  }

  /** Despawn decisions depend on the transforms only through which entities have one. */
  lemma {:induction false} StaleSameKeys(entities: seq<Entity>, T: map<Entity, Transform>, U: map<Entity, Transform>, playerEntity: map<Entity, ClientId>, t: PlayerTable)
    requires T.Keys == U.Keys
    ensures Stale(entities, T, playerEntity, t) == Stale(entities, U, playerEntity, t)
  {
    if entities != [] {
      StaleSameKeys(entities[..|entities| - 1], T, U, playerEntity, t);
    }
  }

  // ----- client_send_input -----

  /** Matched by `Query<(&PlayerController, &Transform), With<PlayerEntity>>`. */
  predicate IsControlled(world: ClientWorld, e: Entity)
    reads world
  {
    e in world.controllers && e in world.transforms && e in world.playerEntity
  }

  /**
   * The position in query order of the first controlled player entity, or
   * the number of entities when there is none.
   */
  function FirstControlled(world: ClientWorld, from: nat): (i: nat)
    reads world
    requires from <= |world.entities|
    ensures from <= i <= |world.entities|
    ensures i < |world.entities| ==> IsControlled(world, world.entities[i])
    ensures forall j :: from <= j < i ==> !IsControlled(world, world.entities[j])
    decreases |world.entities| - from
  {
    if from == |world.entities| then from
    else if IsControlled(world, world.entities[from]) then from
    else FirstControlled(world, from + 1)
  }

  /**
   * `client_send_input`: sends at most one input, and only when a controlled
   * player entity exists; the input is the first such entity's move
   * direction.
   */
  method ClientSendInput(client: RenetClient, world: ClientWorld)
    modifies client`sentInputs
    ensures var i := FirstControlled(world, 0);
      client.sentInputs == old(client.sentInputs)
        + if i < |world.entities| then [world.controllers[world.entities[i]]] else []
    ensures |client.sentInputs| == |old(client.sentInputs)| + 1
        <==> exists j :: 0 <= j < |world.entities| && IsControlled(world, world.entities[j])
  {
    var i := FirstControlled(world, 0);
    if i < |world.entities| {
      var controller := world.controllers[world.entities[i]];
      client.SendInput(controller);
    }
  }
}
