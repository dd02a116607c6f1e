/**
 * The effect system of src/systems/EffectSystem.js: every frame each
 * effect grows one frame older, its particles drift and fall, and an effect
 * that has reached its lifetime is removed.
 */
module Effects {

  import opened Wrappers
  import opened Geometry
  import opened Entities
  import opened GameAssets
  import opened Seqs
  import opened Core

  /** What a particle's vertical velocity loses each frame. */
  const GRAVITY: real := 0.005

  /** A particle's frame: move by its velocity, then lose `GRAVITY` upward speed. */
  function Drift(p: Particle): (q: Particle)
    ensures q.pos == p.pos.Plus(p.vel)
    ensures q.vel.x == p.vel.x && q.vel.z == p.vel.z && q.vel.y == p.vel.y - GRAVITY
  {
    Particle(p.pos.Plus(p.vel), p.vel.(y := p.vel.y - GRAVITY))
  }

  function Drifted(ps: seq<Particle>): (qs: seq<Particle>)
    ensures |qs| == |ps|
    ensures forall i :: 0 <= i < |ps| ==> qs[i] == Drift(ps[i])
  {
    seq(|ps|, i requires 0 <= i < |ps| => Drift(ps[i]))
  }

  /** The particle loop of `update`. */
  method DriftParticles(ps: seq<Particle>) returns (qs: seq<Particle>)
    ensures qs == Drifted(ps)
  {
    qs := ps;
    for i := 0 to |ps|
      invariant |qs| == |ps|
      invariant forall j :: 0 <= j < i ==> qs[j] == Drift(ps[j])
      invariant forall j :: i <= j < |ps| ==> qs[j] == ps[j]
    {
      var p := qs[i];
      p := p.(pos := p.pos.Plus(p.vel));
      p := p.(vel := p.vel.(y := p.vel.y - GRAVITY));
      qs := qs[i := p];
    }
  }

  /** One frame older (whatever the frame's duration), particles drifted. */
  function Tick(e: Effect): (t: Effect)
    ensures t.age == e.age + 1 && t.lifetime == e.lifetime && t.pos == e.pos
    ensures |t.particles| == |e.particles|
    ensures forall i :: 0 <= i < |e.particles| ==> t.particles[i].vel.y == e.particles[i].vel.y - GRAVITY
  {
    e.(age := e.age + 1, particles := Drifted(e.particles))
  }

  predicate Expired(e: Effect)
  {
    e.age >= e.lifetime
  }

  /** An effect's frame: the older effect, or `None` once it has expired. */
  function Aging(e: Effect): (r: Option<Effect>)
    ensures r.Some? <==> e.age + 1 < e.lifetime
    ensures r.Some? ==> r.value == Tick(e)
  {
    var t := Tick(e);
    if Expired(t) then None else Some(t)
  }

  /** The body of `update` for the effect at index `i`. */
  method AgeAt(game: Game, i: nat)
    requires i < |game.effects|
    modifies game`effects
    ensures var r := Aging(old(game.effects)[i]);
      game.effects == if r.Some? then old(game.effects)[i := r.value] else RemoveAt(old(game.effects), i)
  {
    var effect := game.effects[i];
    effect := effect.(age := effect.age + 1);
    var particles := DriftParticles(effect.particles);
    effect := effect.(particles := particles);
    if effect.age >= effect.lifetime {
      game.effects := RemoveAt(game.effects, i);
    } else {
      game.effects := game.effects[i := effect];
    }
  }

  /** `EffectSystem.update`: the reverse index loop; `deltaTime` plays no part. */
  method Update(game: Game, deltaTime: real)
    modifies game`effects
    ensures game.effects == FilterMap(old(game.effects), Aging)
  {
    ghost var es := game.effects;
    var i := |game.effects|;
    assert es[..i] == es;
    while i > 0
      invariant 0 <= i <= |es| && i <= |game.effects|
      invariant game.effects[..i] == es[..i]
      invariant FilterMap(es[..i], Aging) + game.effects[i..] == FilterMap(es, Aging)
    {
      i := i - 1;
      ghost var cur := game.effects;
      assert cur[..i + 1] == es[..i + 1];
      AgeAt(game, i);
      FilterMapBackStep(es, cur, i, Aging, FilterMap(es, Aging), game.effects);
    }
  }

  /**
   * After an update the effects are the survivors of the old list in their
   * old order, each exactly one frame older, and an effect survives exactly
   * when its new age is below its lifetime.
   */
  lemma SurvivorsInOrder(es: seq<Effect>) returns (idx: seq<nat>)
    ensures var out := FilterMap(es, Aging);
      && |idx| == |out|
      && (forall t :: 0 <= t < |idx| ==> idx[t] < |es| && out[t] == Tick(es[idx[t]]) && out[t].age == es[idx[t]].age + 1)
      && (forall t, u :: 0 <= t < u < |idx| ==> idx[t] < idx[u])
      && (forall j :: 0 <= j < |es| ==> (j in idx <==> es[j].age + 1 < es[j].lifetime))
  {
    idx := FilterMapOrigins(es, Aging);
  }

  /** An effect's fate over `k` updates: `None` once it has been removed. */
  function AfterUpdates(e: Effect, k: nat): Option<Effect>
    decreases k
  {
    if k == 0 then Some(e)
    else
      var prev := AfterUpdates(e, k - 1);
      if prev.Some? then Aging(prev.value) else None
  }

  lemma {:induction false} AgesByOne(e: Effect, k: nat)
    requires AfterUpdates(e, k).Some?
    ensures AfterUpdates(e, k).value.age == e.age + k
    ensures AfterUpdates(e, k).value.lifetime == e.lifetime
    decreases k
  {
    if k > 0 {
      AgesByOne(e, k - 1);
    }
  }

  /**
   * A fresh effect (age 0) with lifetime `L` is still there after each of
   * the first `L - 1` updates and is removed by the `L`-th.
   */
  lemma {:induction false} Lifespan(e: Effect, k: nat)
    requires e.age == 0 && e.lifetime >= 1
    ensures k < e.lifetime ==> AfterUpdates(e, k).Some? && AfterUpdates(e, k).value.age == k
    ensures k == e.lifetime ==> AfterUpdates(e, k).None?
    decreases k
  {
    if k > 0 {
      Lifespan(e, k - 1);
      if k <= e.lifetime {
        AgesByOne(e, k - 1);
      }
    }
  }

  /** A death effect is removed by exactly its 60th update. */
  lemma DeathEffectLifespan(pos: Vec3, d: DeathDraws)
    requires ValidDraws(d)
    ensures AfterUpdates(DeathEffect(pos, d), 59).Some?
    ensures AfterUpdates(DeathEffect(pos, d), 60).None?
  {
    Lifespan(DeathEffect(pos, d), 59);
    Lifespan(DeathEffect(pos, d), 60);
  }
}
