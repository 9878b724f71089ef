/**
 * The render-decoupling layer: a renderer entity holds a reference to the
 * player entity it draws, and each frame its transform is interpolated
 * toward that player's transform.
 *
 * `interpolate_transform` (lerp of translation and scale, slerp of rotation)
 * is a parameter of the update: the model fixes what it is applied to and
 * with which factor, not its floating-point arithmetic.
 */
module Rendering {
  import opened Engine

  /** The `Renderer` component: the player entity this renderer tracks. */
  datatype Renderer = Renderer(player: Entity)

  /** The bundle `Factory::build` returns; its mesh and material are not modelled. */
  datatype RendererBundle = RendererBundle(renderer: Renderer, transform: Transform)

  /** `interpolate_transform(original, target, factor)`, returned rather than written in place. */
  type Interpolation = (Transform, Transform, real) -> Transform

  /** The factor `update` passes. */
  const Factor: real := 1.0

  /** `Factory::build(player)`: a renderer bound to `player`, drawn at (0, 0, 1) with no rotation and unit scale. */
  function Build(player: Entity): (b: RendererBundle)
    ensures b.renderer.player == player
    ensures b.transform.translation == Vec3(0.0, 0.0, 1.0)
  {
    RendererBundle(Renderer(player), FromTranslation(Vec3(0.0, 0.0, 1.0)))
  }

  /** The entities and components the renderer update queries. */
  class RenderWorld {
    /** Live entities, in the order queries visit them. */
    var entities: seq<Entity>
    var transforms: map<Entity, Transform>
    var renderers: map<Entity, Renderer>

    ghost predicate Valid()
      reads this
    {
      && Distinct(entities)
      && (forall e :: e in transforms ==> e in entities)
      && (forall e :: e in renderers ==> e in entities)
    }
  }

  /** `players.get(p)` succeeds: `p` has a transform and, by `Without<Renderer>`, is no renderer. */
  predicate IsTarget(transforms: map<Entity, Transform>, renderers: map<Entity, Renderer>, p: Entity)
  {
    p in transforms && p !in renderers
  }

  /** Matched by `Query<(&Renderer, &mut Transform)>` and bound to a target that exists. */
  predicate Tracks(transforms: map<Entity, Transform>, renderers: map<Entity, Renderer>, e: Entity)
  {
    e in transforms && e in renderers && IsTarget(transforms, renderers, renderers[e].player)
  }

  /**
   * The transforms once the renderers in `done` have been updated: each of
   * them that tracks a live target is interpolated toward it with factor 1,
   * one with a dangling binding is skipped, and no other transform (in
   * particular no player's) changes.
   */
  function Interpolated(transforms: map<Entity, Transform>, renderers: map<Entity, Renderer>, done: set<Entity>, interp: Interpolation): (r: map<Entity, Transform>)
    ensures r.Keys == transforms.Keys
    ensures forall e :: e in done && Tracks(transforms, renderers, e) ==>
      r[e] == interp(transforms[e], transforms[renderers[e].player], Factor)
    ensures forall e :: e in transforms && !(e in done && Tracks(transforms, renderers, e)) ==> r[e] == transforms[e]
    ensures forall e :: e in transforms && e !in renderers ==> r[e] == transforms[e]
  {
    map e | e in transforms :: if e in done && Tracks(transforms, renderers, e)
                               then interp(transforms[e], transforms[renderers[e].player], Factor)
                               else transforms[e]
  }

  /** The body of the loop for one renderer `e`, reading the transforms as they stand. */
  function UpdateOne(transforms: map<Entity, Transform>, renderers: map<Entity, Renderer>, e: Entity, interp: Interpolation): map<Entity, Transform>
  {
    if Tracks(transforms, renderers, e)
    then transforms[e := interp(transforms[e], transforms[renderers[e].player], Factor)]
    else transforms
  }

  /** Running the loop body over `order`, one entity after the other. */
  function UpdateInOrder(transforms: map<Entity, Transform>, renderers: map<Entity, Renderer>, order: seq<Entity>, interp: Interpolation): map<Entity, Transform>
  {
    if order == [] then transforms
    else
      var n := |order| - 1;
      UpdateOne(UpdateInOrder(transforms, renderers, order[..n], interp), renderers, order[n], interp)
  }

  /** One more renderer updated on top of the closed form gives the closed form over one more entity. */
  lemma UpdateOneExtends(transforms: map<Entity, Transform>, renderers: map<Entity, Renderer>, done: set<Entity>, x: Entity, interp: Interpolation)
    requires x !in done
    ensures UpdateOne(Interpolated(transforms, renderers, done, interp), renderers, x, interp)
         == Interpolated(transforms, renderers, done + {x}, interp)
  {
    var cur := Interpolated(transforms, renderers, done, interp);
    var next := UpdateOne(cur, renderers, x, interp);
    var want := Interpolated(transforms, renderers, done + {x}, interp);
    assert Tracks(cur, renderers, x) <==> Tracks(transforms, renderers, x);
    forall e | e in transforms
      ensures next[e] == want[e]
    {
      if e == x && Tracks(transforms, renderers, x) {
        var p := renderers[x].player;
        assert cur[x] == transforms[x];
        assert cur[p] == transforms[p];
      }
    }
    assert next.Keys == want.Keys;
  }

  /**
   * The order renderers are visited in does not matter: each update reads
   * only its own transform and its target's, and targets are never
   * renderers, so no update sees another's result.
   */
  lemma {:induction false} UpdateOrderIrrelevant(transforms: map<Entity, Transform>, renderers: map<Entity, Renderer>, order: seq<Entity>, interp: Interpolation)
    requires Distinct(order)
    ensures UpdateInOrder(transforms, renderers, order, interp) == Interpolated(transforms, renderers, Elements(order), interp)
  {
    if order != [] {
      var n := |order| - 1;
      assert Distinct(order[..n]);
      UpdateOrderIrrelevant(transforms, renderers, order[..n], interp);
      assert order[n] !in order[..n];
      ElementsExactly(order[..n]);
      UpdateOneExtends(transforms, renderers, Elements(order[..n]), order[n], interp);
    }
  }

  /**
   * `update`: visits every renderer in query order and, unless its target
   * is missing or is itself a renderer, interpolates it toward the target
   * with factor 1. Bindings and player transforms are left as they are.
   */
  method Update(world: RenderWorld, interp: Interpolation)
    requires world.Valid()
    modifies world`transforms
    ensures world.Valid()
    ensures world.transforms == Interpolated(old(world.transforms), world.renderers, Elements(world.entities), interp)
    ensures world.renderers == old(world.renderers) && world.entities == old(world.entities)
  {
    ghost var T0 := world.transforms;
    var es, renderers := world.entities, world.renderers;
    var transforms := world.transforms;
    for i := 0 to |es|
      invariant transforms == UpdateInOrder(T0, renderers, es[..i], interp)
    {
      var e := es[i];
      assert es[..i + 1][..i] == es[..i];
      if e in renderers && e in transforms {
        var player := renderers[e].player;
        if !(player in transforms && player !in renderers) {
          continue;
        }
        transforms := transforms[e := interp(transforms[e], transforms[player], Factor)];
      }
    }
    assert es[..|es|] == es;
    UpdateOrderIrrelevant(T0, renderers, es, interp);
    world.transforms := transforms;
  }
}
