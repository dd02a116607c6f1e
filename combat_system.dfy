/**
 * The combat system of src/systems/CombatSystem.js: towers count down their
 * cooldown and fire at the nearest enemy in range; projectiles home in on
 * their target, and a hit deals damage, pays a flat reward on a kill and
 * removes the dead enemy with a death effect.
 */
module Combat {

  import opened Wrappers
  import opened Geometry
  import opened Entities
  import opened GameAssets
  import opened Seqs
  import opened Targeting
  import opened Core

  /** What a tower gets on its first combat update. */
  const DEFAULT_STATS: TowerStats := TowerStats(5.0, 25, 1.0, 0.0)
  const PROJECTILE_SPEED: real := 10.0
  /** A projectile closer than this to its target hits it. */
  const HIT_RADIUS: real := 0.5
  /** Resources paid for a kill, whatever the enemy. */
  const KILL_REWARD: int := 10

  function StatsOrDefault(t: Tower): TowerStats
  {
    if t.stats.Some? then t.stats.value else DEFAULT_STATS
  }

  /** The projectile a tower fires at `target`, from its turret's muzzle. */
  function Shot(t: Tower, s: TowerStats, target: Enemy, m: Maths): (p: Projectile)
    ensures p.target == Some(target.id) && p.speed == PROJECTILE_SPEED && p.damage == s.damage
  {
    Projectile(m.muzzle(t.pos, target.pos), Some(target.id), PROJECTILE_SPEED, s.damage)
  }

  datatype TowerTurn = TowerTurn(tower: Tower, shot: Option<Projectile>)

  /** One tower's turn of `updateTowers` against the live enemies `es`. */
  function TowerStep(t: Tower, es: seq<Enemy>, dt: real, m: Maths): (r: TowerTurn)
    requires CanFire(t)
    ensures CanFire(r.tower)
  {
    var s := StatsOrDefault(t);
    var s1 := s.(cooldown := s.cooldown - dt);
    if s1.cooldown <= 0.0 then
      var pick := Nearest(Distances(t.pos, es, m), Below(s1.range));
      if pick.Some? then
        var target := es[pick.value];
        var s2 := s1.(cooldown := 1.0 / s1.attackSpeed);
        TowerTurn(t.(aim := Some(target.pos), stats := Some(s2)), Some(Shot(t, s1, target, m)))
      else TowerTurn(t.(stats := Some(s1)), None)
    else TowerTurn(t.(stats := Some(s1)), None)
  }

  /**
   * A tower's turn: first-time defaults (range 5, damage 25, attack speed
   * 1), the cooldown drops by exactly `dt`, and the tower fires exactly when
   * the cooldown has run out and some enemy is strictly within range; it
   * then aims at and shoots the nearest one and its cooldown restarts at
   * `1 / attackSpeed`.  Without a shot nothing but the cooldown changes.
   */
  lemma TowerStepSpec(t: Tower, es: seq<Enemy>, dt: real, m: Maths)
    requires CanFire(t)
    ensures var r := TowerStep(t, es, dt, m);
      && r.tower.pos == t.pos && r.tower.stats.Some?
      && var s, s' := StatsOrDefault(t), r.tower.stats.value;
      && s'.range == s.range && s'.damage == s.damage && s'.attackSpeed == s.attackSpeed
      && (t.stats.None? ==> s'.range == 5.0 && s'.damage == 25 && s'.attackSpeed == 1.0)
    ensures var r := TowerStep(t, es, dt, m);
      var s := StatsOrDefault(t);
      var pick := Nearest(Distances(t.pos, es, m), Below(s.range));
      && (r.shot.Some? <==> s.cooldown - dt <= 0.0 && pick.Some?)
      && (r.shot.None? ==> r.tower == t.(stats := Some(s.(cooldown := s.cooldown - dt))))
      && (r.shot.Some? ==>
            && r.tower.aim == Some(es[pick.value].pos)
            && r.tower.stats.value.cooldown == 1.0 / s.attackSpeed
            && r.shot.value == Shot(t, s, es[pick.value], m))
  {
  }

  /** The towers after their turns, in list order, and the shots fired, in firing order. */
  datatype TowerVolley = TowerVolley(towers: seq<Tower>, shots: seq<Projectile>)

  function TowersPass(ts: seq<Tower>, es: seq<Enemy>, dt: real, m: Maths): (r: TowerVolley)
    requires forall i :: 0 <= i < |ts| ==> CanFire(ts[i])
    ensures |r.towers| == |ts| && |r.shots| <= |ts|
    ensures forall i :: 0 <= i < |ts| ==> CanFire(r.towers[i])
    decreases |ts|
  {
    if ts == [] then TowerVolley([], [])
    else
      var n := |ts| - 1;
      var rest := TowersPass(ts[..n], es, dt, m);
      var turn := TowerStep(ts[n], es, dt, m);
      TowerVolley(rest.towers + [turn.tower], rest.shots + (if turn.shot.Some? then [turn.shot.value] else []))
  }

  /** `shootProjectile`: append the shot to the session's projectiles. */
  method ShootProjectile(game: Game, t: Tower, s: TowerStats, target: Enemy, m: Maths)
    modifies game`projectiles
    ensures game.projectiles == old(game.projectiles) + [Shot(t, s, target, m)]
  {
    var projectile := Projectile(m.muzzle(t.pos, target.pos), Some(target.id), PROJECTILE_SPEED, s.damage);
    game.projectiles := game.projectiles + [projectile];
  }

  /** The body of `updateTowers` for the tower at index `i`. */
  method TowerTurnAt(game: Game, i: nat, dt: real, m: Maths)
    requires i < |game.towers| && game.TowersReady()
    modifies game`towers, game`projectiles
    ensures game.TowersReady()
    ensures var r := TowerStep(old(game.towers)[i], game.enemies, dt, m);
      && game.towers == old(game.towers)[i := r.tower]
      && game.projectiles == old(game.projectiles) + (if r.shot.Some? then [r.shot.value] else [])
  {
    var t := game.towers[i];
    var s := StatsOrDefault(t);
    s := s.(cooldown := s.cooldown - dt);
    var aim := t.aim;
    if s.cooldown <= 0.0 {
      var target := ScanNearest(t.pos, game.enemies, m, Below(s.range));
      if target.Some? {
        var enemy := game.enemies[target.value];
        aim := Some(enemy.pos);
        ShootProjectile(game, t, s, enemy, m);
        s := s.(cooldown := 1.0 / s.attackSpeed);
      }
    }
    game.towers := game.towers[i := t.(aim := aim, stats := Some(s))];
  }

  /**
   * `updateTowers`: every tower takes its turn, in list order, and the
   * shots fired are appended in that order.
   */
  method UpdateTowers(game: Game, dt: real, m: Maths)
    requires game.TowersReady()
    modifies game`towers, game`projectiles
    ensures game.TowersReady()
    ensures var r := TowersPass(old(game.towers), game.enemies, dt, m);
      game.towers == r.towers && game.projectiles == old(game.projectiles) + r.shots
  {
    ghost var ts := game.towers;
    for i := 0 to |game.towers|
      invariant |game.towers| == |ts|
      invariant game.towers == TowersPass(ts[..i], game.enemies, dt, m).towers + ts[i..]
      invariant game.projectiles == old(game.projectiles) + TowersPass(ts[..i], game.enemies, dt, m).shots
    {
      ghost var cur := game.towers;
      TowerForwardStep(ts, cur, i, game.enemies, dt, m);
      TowerTurnAt(game, i, dt, m);
    }
    assert ts[..|ts|] == ts;
  }

  /** One step of the forward loop keeps it in line with `TowersPass`. */
  lemma TowerForwardStep(ts: seq<Tower>, cur: seq<Tower>, i: nat, es: seq<Enemy>, dt: real, m: Maths)
    requires forall j :: 0 <= j < |ts| ==> CanFire(ts[j])
    requires i < |ts| && cur == TowersPass(ts[..i], es, dt, m).towers + ts[i..]
    ensures cur[i] == ts[i]
    ensures var turn := TowerStep(ts[i], es, dt, m);
      var next := TowersPass(ts[..i + 1], es, dt, m);
      && cur[i := turn.tower] == next.towers + ts[i + 1..]
      && next.shots == TowersPass(ts[..i], es, dt, m).shots + (if turn.shot.Some? then [turn.shot.value] else [])
  {
    var rest := TowersPass(ts[..i], es, dt, m);
    var turn := TowerStep(ts[i], es, dt, m);
    assert ts[..i + 1][..i] == ts[..i];
    assert ts[..i + 1][i] == ts[i];
    assert TowersPass(ts[..i + 1], es, dt, m).towers == rest.towers + [turn.tower];
    assert ts[i..] == [ts[i]] + ts[i + 1..];
    assert cur[i := turn.tower] == rest.towers + [turn.tower] + ts[i + 1..];
  }

  /** What a projectile's turn can change besides the projectile itself. */
  datatype World = World(enemies: seq<Enemy>, resources: int, effects: seq<Effect>)

  /** The projectile after its turn (`None` once removed) and the world it leaves. */
  datatype Flight = Flight(kept: Option<Projectile>, world: World)

  /** The random draws of the death effect of each enemy id. */
  ghost predicate DrawsValid(draws: nat -> DeathDraws)
  {
    forall id :: ValidDraws(draws(id))
  }

  /** The target's current entry: `enemies.includes(target)` and `indexOf`. */
  predicate TargetAlive(p: Projectile, es: seq<Enemy>)
  {
    p.target.Some? && Includes(es, p.target.value)
  }

  /** A hit: damage dealt and the health bar refreshed. */
  function Struck(e: Enemy, damage: int): (h: Enemy)
    ensures h.id == e.id && h.pos == e.pos && h.health == e.health - damage
  {
    WithHealthBar(e.(health := e.health - damage))
  }

  /** A projectile's position after flying `speed * dt` toward `target`. */
  function Homing(p: Projectile, target: Vec3, dt: real, m: Maths): Vec3
  {
    Toward(p.pos, target, p.speed * dt, m.dist(p.pos, target))
  }

  /** One projectile's turn of `updateProjectiles`. */
  function ProjectileStep(p: Projectile, w: World, dt: real, m: Maths, draws: nat -> DeathDraws): Flight
    requires DrawsValid(draws)
  {
    if !TargetAlive(p, w.enemies) then Flight(None, w)
    else
      var id := p.target.value;
      var k := IndexOf(w.enemies, id);
      var t := w.enemies[k];
      var pos := Homing(p, t.pos, dt, m);
      if m.dist(pos, t.pos) < HIT_RADIUS then
        var hit := Struck(t, p.damage);
        if hit.health <= 0 then
          Flight(None, World(RemoveAt(w.enemies, k), w.resources + KILL_REWARD, w.effects + [DeathEffect(hit.pos, draws(id))]))
        else
          Flight(None, w.(enemies := w.enemies[k := hit]))
      else Flight(Some(p.(pos := pos)), w)
  }

  /**
   * A projectile whose target is gone is dropped and changes nothing; a
   * projectile that ends its flight of `speed * dt` toward its target less
   * than 0.5 from it hits, and otherwise keeps flying from its new position
   * and changes nothing else; a hit removes the projectile and lowers exactly the
   * target's health by exactly its damage; the reward of 10 and the death
   * effect come exactly with a kill, which removes exactly the target.
   */
  lemma ProjectileStepSpec(p: Projectile, w: World, dt: real, m: Maths, draws: nat -> DeathDraws)
    requires DrawsValid(draws)
    ensures var r := ProjectileStep(p, w, dt, m, draws);
      && (!TargetAlive(p, w.enemies) ==> r == Flight(None, w))
      && (r.kept.Some? ==> r.world == w && r.kept.value == p.(pos := r.kept.value.pos))
      && (TargetAlive(p, w.enemies) ==>
            var t := w.enemies[IndexOf(w.enemies, p.target.value)];
            var pos := Homing(p, t.pos, dt, m);
            && (r.kept.None? <==> m.dist(pos, t.pos) < HIT_RADIUS)
            && (r.kept.Some? ==> r.kept.value == p.(pos := pos)))
      && (r.kept.None? && TargetAlive(p, w.enemies) ==>
            var k := IndexOf(w.enemies, p.target.value);
            var left := w.enemies[k].health - p.damage;
            && 0 <= k < |w.enemies|
            && (left > 0 ==> r.world == w.(enemies := w.enemies[k := Struck(w.enemies[k], p.damage)]))
            && (left <= 0 ==>
                  && r.world.enemies == RemoveAt(w.enemies, k)
                  && r.world.resources == w.resources + KILL_REWARD
                  && r.world.effects == w.effects + [DeathEffect(w.enemies[k].pos, draws(p.target.value))]))
  {
  }

  datatype Volley = Volley(survivors: seq<Projectile>, world: World)

  /** The whole pass, last projectile first, as the reverse index loop runs it. */
  function ProjectilePass(ps: seq<Projectile>, w: World, dt: real, m: Maths, draws: nat -> DeathDraws): Volley
    requires DrawsValid(draws)
    decreases |ps|
  {
    if ps == [] then Volley([], w)
    else
      var n := |ps| - 1;
      var f := ProjectileStep(ps[n], w, dt, m, draws);
      var rest := ProjectilePass(ps[..n], f.world, dt, m, draws);
      Volley(rest.survivors + (if f.kept.Some? then [f.kept.value] else []), rest.world)
  }

  /**
   * With unique ids, a projectile acts on exactly the enemy it was fired at:
   * `indexOf` finds that enemy's own entry.
   */
  lemma HitsOwnTarget(p: Projectile, w: World, k: nat, next: nat)
    requires UniqueIds(w.enemies, next) && k < |w.enemies| && p.target == Some(w.enemies[k].id)
    ensures TargetAlive(p, w.enemies) && IndexOf(w.enemies, p.target.value) == k
  {
    IndexOfUnique(w.enemies, next, k);
  }

  /** A projectile's turn keeps enemy ids unique: it only strikes or removes an entry. */
  lemma ProjectileStepKeepsIds(p: Projectile, w: World, dt: real, m: Maths, draws: nat -> DeathDraws, next: nat)
    requires DrawsValid(draws) && UniqueIds(w.enemies, next)
    ensures UniqueIds(ProjectileStep(p, w, dt, m, draws).world.enemies, next)
  {
    if TargetAlive(p, w.enemies) {
      var k := IndexOf(w.enemies, p.target.value);
      RemoveAtKeepsIds(w.enemies, next, k);
    }
  }

  lemma {:induction false} ProjectilePassKeepsIds(ps: seq<Projectile>, w: World, dt: real, m: Maths, draws: nat -> DeathDraws, next: nat)
    requires DrawsValid(draws) && UniqueIds(w.enemies, next)
    ensures UniqueIds(ProjectilePass(ps, w, dt, m, draws).world.enemies, next)
    decreases |ps|
  {
    if ps != [] {
      var n := |ps| - 1;
      ProjectileStepKeepsIds(ps[n], w, dt, m, draws, next);
      ProjectilePassKeepsIds(ps[..n], ProjectileStep(ps[n], w, dt, m, draws).world, dt, m, draws, next);
    }
  }

  /** The body of `updateProjectiles` for the projectile at index `i`. */
  method ProjectileTurnAt(game: Game, i: nat, dt: real, m: Maths, draws: nat -> DeathDraws)
    requires DrawsValid(draws)
    requires i < |game.projectiles|
    modifies game`projectiles, game`enemies, game`resources, game`effects
    ensures var f := ProjectileStep(old(game.projectiles)[i], World(old(game.enemies), old(game.resources), old(game.effects)), dt, m, draws);
      && World(game.enemies, game.resources, game.effects) == f.world
      && game.projectiles == if f.kept.Some? then old(game.projectiles)[i := f.kept.value] else RemoveAt(old(game.projectiles), i)
  {
    var p := game.projectiles[i];
    ghost var w := World(game.enemies, game.resources, game.effects);
    if p.target.None? || !Includes(game.enemies, p.target.value) {
      game.RemoveProjectile(i);
      return;
    }
    var id := p.target.value;
    var k := IndexOf(game.enemies, id);
    var target := game.enemies[k];
    var pos := Homing(p, target.pos, dt, m);
    if m.dist(pos, target.pos) < HIT_RADIUS {
      var hit := Struck(target, p.damage);
      game.enemies := game.enemies[k := hit];
      if hit.health <= 0 {
        game.resources := game.resources + KILL_REWARD;
        var enemyIndex := IndexOf(game.enemies, id);
        FirstIndexKept(old(game.enemies), k, hit);
        if enemyIndex != -1 {
          game.RemoveEnemy(hit, enemyIndex, true, draws(id));
        }
      }
      game.RemoveProjectile(i);
    } else {
      game.projectiles := game.projectiles[i := p.(pos := pos)];
    }
  }

  /** Replacing the first entry with an id by one with the same id keeps it first. */
  lemma FirstIndexKept(es: seq<Enemy>, k: nat, e: Enemy)
    requires k < |es| && IndexOf(es, es[k].id) == k && e.id == es[k].id
    ensures IndexOf(es[k := e], e.id) == k
  {
    assert es[k := e][k].id == e.id;
  }

  /** `updateProjectiles`: the reverse index loop over the projectiles. */
  method UpdateProjectiles(game: Game, dt: real, m: Maths, draws: nat -> DeathDraws)
    requires DrawsValid(draws)
    modifies game`projectiles, game`enemies, game`resources, game`effects
    ensures var v := ProjectilePass(old(game.projectiles), World(old(game.enemies), old(game.resources), old(game.effects)), dt, m, draws);
      game.projectiles == v.survivors && World(game.enemies, game.resources, game.effects) == v.world
  {
    ghost var ps := game.projectiles;
    ghost var final := ProjectilePass(ps, World(game.enemies, game.resources, game.effects), dt, m, draws);
    var i := |game.projectiles|;
    assert ps[..i] == ps;
    while i > 0
      invariant 0 <= i <= |ps| && i <= |game.projectiles|
      invariant game.projectiles[..i] == ps[..i]
      invariant var v := ProjectilePass(ps[..i], World(game.enemies, game.resources, game.effects), dt, m, draws);
        v.survivors + game.projectiles[i..] == final.survivors && v.world == final.world
    {
      i := i - 1;
      ghost var cur := game.projectiles;
      ghost var w := World(game.enemies, game.resources, game.effects);
      assert cur[..i + 1] == ps[..i + 1];
      ProjectileTurnAt(game, i, dt, m, draws);
      ProjectileBackStep(ps, cur, i, w, dt, m, draws, final, game.projectiles);
    }
  }

  /** The pass over a non-empty list: its last projectile's turn, then the rest. */
  lemma ProjectilePassLast(ps: seq<Projectile>, w: World, dt: real, m: Maths, draws: nat -> DeathDraws)
    requires DrawsValid(draws) && ps != []
    ensures var f := ProjectileStep(ps[|ps| - 1], w, dt, m, draws);
      var rest := ProjectilePass(ps[..|ps| - 1], f.world, dt, m, draws);
      ProjectilePass(ps, w, dt, m, draws) == Volley(rest.survivors + (if f.kept.Some? then [f.kept.value] else []), rest.world)
  {
  }

  /** One step of the reverse loop keeps it in line with `ProjectilePass`. */
  lemma ProjectileBackStep(ps: seq<Projectile>, cur: seq<Projectile>, i: nat, w: World, dt: real, m: Maths,
                           draws: nat -> DeathDraws, final: Volley, out: seq<Projectile>)
    requires DrawsValid(draws)
    requires i < |ps| && i < |cur| && cur[..i + 1] == ps[..i + 1]
    requires var v := ProjectilePass(ps[..i + 1], w, dt, m, draws);
      v.survivors + cur[i + 1..] == final.survivors && v.world == final.world
    requires var f := ProjectileStep(cur[i], w, dt, m, draws);
      out == if f.kept.Some? then cur[i := f.kept.value] else RemoveAt(cur, i)
    ensures out[..i] == ps[..i]
    ensures var v := ProjectilePass(ps[..i], ProjectileStep(cur[i], w, dt, m, draws).world, dt, m, draws);
      v.survivors + out[i..] == final.survivors && v.world == final.world
  {
    assert ps[..i + 1][..i] == ps[..i];
    assert cur[..i] == ps[..i];
    assert cur[i] == ps[i] by { assert cur[..i + 1][i] == ps[..i + 1][i]; }
    var f := ProjectileStep(cur[i], w, dt, m, draws);
    var img := if f.kept.Some? then [f.kept.value] else [];
    ProjectilePassLast(ps[..i + 1], w, dt, m, draws);
    assert out[..i] == cur[..i] && out[i..] == img + cur[i + 1..] by {
      if f.kept.Some? {
        assert out == cur[i := f.kept.value];
      } else {
        assert out == cur[..i] + cur[i + 1..];
      }
    }
  }

  /** Each tower in the pass takes exactly its own turn. */
  lemma {:induction false} TowersPassEach(ts: seq<Tower>, es: seq<Enemy>, dt: real, m: Maths)
    requires forall i :: 0 <= i < |ts| ==> CanFire(ts[i])
    ensures forall i :: 0 <= i < |ts| ==> TowersPass(ts, es, dt, m).towers[i] == TowerStep(ts[i], es, dt, m).tower
    decreases |ts|
  {
    if ts != [] {
      var n := |ts| - 1;
      assert forall i :: 0 <= i < n ==> ts[..n][i] == ts[i];
      TowersPassEach(ts[..n], es, dt, m);
    }
  }

  /**
   * Towers shoot only at live enemies: every new projectile chases an enemy
   * of the list, flies at speed 10, and carries a damage some tower has.
   */
  lemma {:induction false} ShotsAtLiveEnemies(ts: seq<Tower>, es: seq<Enemy>, dt: real, m: Maths)
    requires forall i :: 0 <= i < |ts| ==> CanFire(ts[i])
    ensures forall p :: p in TowersPass(ts, es, dt, m).shots ==>
      && p.target.Some? && Includes(es, p.target.value) && p.speed == PROJECTILE_SPEED
      && exists i :: 0 <= i < |ts| && p.damage == StatsOrDefault(ts[i]).damage
    decreases |ts|
  {
    if ts != [] {
      var n := |ts| - 1;
      assert forall i :: 0 <= i < n ==> ts[..n][i] == ts[i];
      ShotsAtLiveEnemies(ts[..n], es, dt, m);
      TowerStepSpec(ts[n], es, dt, m);
      var turn := TowerStep(ts[n], es, dt, m);
      if turn.shot.Some? {
        var k := Nearest(Distances(ts[n].pos, es, m), Below(StatsOrDefault(ts[n]).range)).value;
        assert es[k].id == turn.shot.value.target.value;
      }
    }
  }

  /**
   * The pass pays exactly 10 per enemy it removes and leaves exactly one
   * death effect per removal; it never adds enemies or projectiles.
   */
  lemma {:induction false} KillsPaid(ps: seq<Projectile>, w: World, dt: real, m: Maths, draws: nat -> DeathDraws)
    requires DrawsValid(draws)
    ensures var v := ProjectilePass(ps, w, dt, m, draws);
      && |v.survivors| <= |ps|
      && |v.world.enemies| <= |w.enemies|
      && v.world.resources == w.resources + KILL_REWARD * (|w.enemies| - |v.world.enemies|)
      && |v.world.effects| == |w.effects| + (|w.enemies| - |v.world.enemies|)
    decreases |ps|
  {
    if ps != [] {
      var n := |ps| - 1;
      ProjectileStepSpec(ps[n], w, dt, m, draws);
      KillsPaid(ps[..n], ProjectileStep(ps[n], w, dt, m, draws).world, dt, m, draws);
    }
  }

  /** A projectile that reaches the only enemy, its target, hits it; a kill empties the list and pays. */
  lemma OneHit(p: Projectile, e: Enemy, r: int, fx: seq<Effect>, dt: real, m: Maths, draws: nat -> DeathDraws)
    requires DrawsValid(draws) && p.target == Some(e.id)
    requires m.dist(Homing(p, e.pos, dt, m), e.pos) < HIT_RADIUS
    ensures var f := ProjectileStep(p, World([e], r, fx), dt, m, draws);
      && f.kept.None?
      && (e.health - p.damage > 0 ==> f.world == World([Struck(e, p.damage)], r, fx))
      && (e.health - p.damage <= 0 ==>
            f.world.enemies == [] && f.world.resources == r + KILL_REWARD && |f.world.effects| == |fx| + 1)
  {
    assert [e][0].id == e.id;
    assert IndexOf([e], e.id) == 0;
  }

  /**
   * Four hits from a default tower's projectiles (damage 25) take a
   * 100-health enemy to 0: the first three leave it in the list with 75,
   * 50 and 25 and pay nothing; the fourth removes it, pays the reward of 10
   * and leaves one death effect.
   */
  lemma FourHitsKill(p: Projectile, e: Enemy, r: int, fx: seq<Effect>, dt: real, m: Maths, draws: nat -> DeathDraws)
    requires DrawsValid(draws) && p.target == Some(e.id) && p.damage == DEFAULT_STATS.damage && e.health == 100
    requires m.dist(Homing(p, e.pos, dt, m), e.pos) < HIT_RADIUS
    ensures var w1 := ProjectileStep(p, World([e], r, fx), dt, m, draws).world;
      var w2 := ProjectileStep(p, w1, dt, m, draws).world;
      var w3 := ProjectileStep(p, w2, dt, m, draws).world;
      var w4 := ProjectileStep(p, w3, dt, m, draws).world;
      && |w3.enemies| == 1 && w3.enemies[0].health == 25 && w3.resources == r && w3.effects == fx
      && w4.enemies == [] && w4.resources == r + KILL_REWARD && |w4.effects| == |fx| + 1
  {
    OneHit(p, e, r, fx, dt, m, draws);
    var e1 := Struck(e, 25);
    OneHit(p, e1, r, fx, dt, m, draws);
    var e2 := Struck(e1, 25);
    OneHit(p, e2, r, fx, dt, m, draws);
    var e3 := Struck(e2, 25);
    OneHit(p, e3, r, fx, dt, m, draws);
  }

  /** `CombatSystem.update`: the towers' turns, then the projectile pass. */
  method Update(game: Game, dt: real, m: Maths, draws: nat -> DeathDraws)
    requires game.TowersReady() && DrawsValid(draws)
    modifies game`towers, game`projectiles, game`enemies, game`resources, game`effects
    ensures game.TowersReady()
    ensures var r := TowersPass(old(game.towers), old(game.enemies), dt, m);
      var v := ProjectilePass(old(game.projectiles) + r.shots, World(old(game.enemies), old(game.resources), old(game.effects)), dt, m, draws);
      && game.towers == r.towers
      && game.projectiles == v.survivors
      && World(game.enemies, game.resources, game.effects) == v.world
    ensures old(game.IdsFresh()) ==> game.IdsFresh()
  {
    ghost var w := World(game.enemies, game.resources, game.effects);
    UpdateTowers(game, dt, m);
    ghost var ps := game.projectiles;
    UpdateProjectiles(game, dt, m, draws);
    if UniqueIds(w.enemies, game.nextEnemyId) {
      ProjectilePassKeepsIds(ps, w, dt, m, draws, game.nextEnemyId);
    }
  }
}
