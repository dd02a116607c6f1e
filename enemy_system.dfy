/**
 * The enemy stepper of src/systems/EnemySystem.js: one pass over the live
 * enemies, from the last index to the first, that drops malformed entries,
 * charges the base for enemies that reached the last waypoint, and moves
 * the others one step along the path.
 */
module Enemies {

  import opened Wrappers
  import opened Geometry
  import opened Constants
  import opened Entities
  import opened GameAssets
  import opened Seqs
  import opened Core

  /** Turn rate applied to the normalised angle difference. */
  const ROTATION_SPEED: real := 5.0

  /** Height a flying enemy keeps above its waypoint when it has none of its own. */
  const DEFAULT_HOVER: real := 2.0

  /** What one enemy's turn of the pass does to it. */
  datatype StepResult =
    | Dropped              // malformed, or its update threw: removed, base untouched
    | Leaked(damage: int)  // reached the last waypoint: removed, base charged
    | Advanced(e: Enemy)   // moved and kept

  /** `damage || 10`: an absent (or zero, hence falsy) damage counts as 10. */
  function LeakDamage(e: Enemy): (d: int)
    ensures d != 0
    ensures e.damage.None? || e.damage.value == 0 ==> d == 10
    ensures e.damage.Some? && e.damage.value != 0 ==> d == e.damage.value
  {
    if e.damage.Some? && e.damage.value != 0 then e.damage.value else 10
  }

  function HoverOrDefault(h: Option<real>): real
  {
    if h.Some? && h.value != 0.0 then h.value else DEFAULT_HOVER
  }

  /**
   * The discrete part of `updateSpecialBehaviors`: only the flying branch
   * reads state, `path[pathIndex].y`, and it throws when that index is out
   * of the path (the enemy is then dropped by the pass's catch).
   */
  function Special(e: Enemy, path: seq<Vec3>): (r: StepResult)
    requires e.pathIndex.Some?
    ensures r.Dropped? <==> e.kind == Flying && !(0 <= e.pathIndex.value < |path|)
    ensures r.Advanced? && e.kind != Flying ==> r.e == e
    ensures r.Advanced? ==> r.e.(pos := e.pos) == e && r.e.pos.x == e.pos.x && r.e.pos.z == e.pos.z
    ensures r.Advanced? && e.kind == Flying ==> r.e.pos.y == path[e.pathIndex.value].y + HoverOrDefault(e.hoverHeight)
  {
    if e.kind == Flying then
      var k := e.pathIndex.value;
      if 0 <= k < |path| then Advanced(e.(pos := e.pos.(y := path[k].y + HoverOrDefault(e.hoverHeight))))
      else Dropped
    else Advanced(e)
  }

  /** The step of one live enemy, `path[pathIndex + 1]` being its next waypoint. */
  function EnemyStep(e: Enemy, path: seq<Vec3>, dt: real, m: Maths): (r: StepResult)
    ensures e.pathIndex.None? ==> r == Dropped
    ensures e.pathIndex.Some? && e.pathIndex.value >= |path| - 1 ==> r == Leaked(LeakDamage(e))
    ensures r.Leaked? ==> e.pathIndex.Some? && e.pathIndex.value >= |path| - 1
    ensures r.Advanced? ==> e.pathIndex.Some? && -1 <= e.pathIndex.value < |path| - 1
    ensures r.Advanced? ==>
      var k := e.pathIndex.value;
      var target := path[k + 1];
      var d := m.dist(e.pos, target);
      && r.e.id == e.id && r.e.kind == e.kind && r.e.health == e.health && r.e.speed == e.speed
      && r.e.pos.x == (if e.speed * dt >= d then target else Toward(e.pos, target, e.speed * dt, d)).x
      && r.e.pos.z == (if e.speed * dt >= d then target else Toward(e.pos, target, e.speed * dt, d)).z
      && (e.speed * dt >= d ==> r.e.pathIndex == Some(k + 1) && r.e.heading == e.heading)
      && (e.speed * dt < d ==>
            r.e.pathIndex == Some(k) && r.e.heading == e.heading + Wrap(m.bearing(e.pos, target) - e.heading) * dt * ROTATION_SPEED)
    ensures r.Advanced? && e.kind != Flying ==>
      var target := path[e.pathIndex.value + 1];
      var d := m.dist(e.pos, target);
      r.e.pos == (if e.speed * dt >= d then target else Toward(e.pos, target, e.speed * dt, d))
  {
    if e.pathIndex.None? then Dropped
    else
      var k := e.pathIndex.value;
      if k >= |path| - 1 then Leaked(LeakDamage(e))
      else if k + 1 < 0 then Dropped
      else
        Special(Moved(e, k, path[k + 1], dt, m, Wrap(m.bearing(e.pos, path[k + 1]) - e.heading)), path)
  }

  /**
   * An enemy still on the path is kept: one with an index before the last
   * waypoint always advances, and one at index -1 advances unless it flies
   * and does not reach the first waypoint.  A kept enemy changes only its
   * position, index and heading, and a flying one hovers above the waypoint
   * its index names.
   */
  lemma EnemyStepKeeps(e: Enemy, path: seq<Vec3>, dt: real, m: Maths)
    ensures var r := EnemyStep(e, path, dt, m);
      && (e.pathIndex.Some? && 0 <= e.pathIndex.value < |path| - 1 ==> r.Advanced?)
      && (e.pathIndex == Some(-1) && |path| > 1 ==>
            (r.Advanced? <==> e.kind != Flying || e.speed * dt >= m.dist(e.pos, path[0])))
      && (r.Advanced? ==> r.e == e.(pos := r.e.pos, pathIndex := r.e.pathIndex, heading := r.e.heading))
      && (r.Advanced? && e.kind == Flying ==>
            r.e.pos.y == path[r.e.pathIndex.value].y + HoverOrDefault(e.hoverHeight))
  {
  }

  /**
   * The move toward waypoint `k + 1` at `target`: snap onto it when the
   * step reaches it, otherwise turn by the normalised difference `diff`
   * and advance `speed * dt` toward it.
   */
  function Moved(e: Enemy, k: int, target: Vec3, dt: real, m: Maths, diff: real): Enemy
  {
    var d := m.dist(e.pos, target);
    var move := e.speed * dt;
    if move >= d then e.(pos := target, pathIndex := Some(k + 1))
    else e.(heading := e.heading + diff * dt * ROTATION_SPEED, pos := Toward(e.pos, target, move, d))
  }

  /** One enemy's turn, with the angle normalised by the source's two loops. */
  method StepEnemy(e: Enemy, path: seq<Vec3>, dt: real, m: Maths) returns (r: StepResult)
    ensures r == EnemyStep(e, path, dt, m)
  {
    if e.pathIndex.None? {
      return Dropped;
    }
    var k := e.pathIndex.value;
    if k >= |path| - 1 {
      return Leaked(LeakDamage(e));
    }
    if k + 1 < 0 {
      return Dropped;
    }
    var target := path[k + 1];
    var diff := 0.0;
    if e.speed * dt < m.dist(e.pos, target) {
      diff := NormalizeAngle(m.bearing(e.pos, target) - e.heading);
    }
    r := Special(Moved(e, k, target, dt, m, diff), path);
  }

  /** Base health, state and announcements: what a leak can change on the session. */
  datatype Ledger = Ledger(baseHealth: int, state: GameState, alerts: seq<GameState>)

  /** Charge a leak; request GAME_OVER (through `setGameState`) when health is gone. */
  function AfterLeak(l: Ledger, d: int): (r: Ledger)
    ensures r.baseHealth == l.baseHealth - d
    ensures r.state == GameOver <==> l.state == GameOver || r.baseHealth <= 0
    ensures r.state != GameOver ==> r.state == l.state && r.alerts == l.alerts
    ensures l.state == GameOver ==> r.alerts == l.alerts
    ensures l.state != GameOver && r.state == GameOver ==> r.alerts == l.alerts + [GameOver]
  {
    var hp := l.baseHealth - d;
    if hp <= 0 && l.state != GameOver then Ledger(hp, GameOver, l.alerts + Announce(GameOver))
    else Ledger(hp, l.state, l.alerts)
  }

  datatype PassResult = PassResult(survivors: seq<Enemy>, ledger: Ledger)

  /**
   * The whole pass: the last enemy takes its step first, then the rest of
   * the list is processed against the ledger that step left.
   */
  function EnemyPass(es: seq<Enemy>, l: Ledger, path: seq<Vec3>, dt: real, m: Maths): PassResult
    decreases |es|
  {
    if es == [] then PassResult([], l)
    else
      var n := |es| - 1;
      match EnemyStep(es[n], path, dt, m)
      case Dropped => EnemyPass(es[..n], l, path, dt, m)
      case Leaked(d) => EnemyPass(es[..n], AfterLeak(l, d), path, dt, m)
      case Advanced(moved) =>
        var rest := EnemyPass(es[..n], l, path, dt, m);
        PassResult(rest.survivors + [moved], rest.ledger)
  }

  /** The list and ledger after entry `i`, whose step is `r`, has been handled in place. */
  function Handled(cur: seq<Enemy>, i: nat, l: Ledger, r: StepResult): PassResult
    requires i < |cur|
  {
    match r
    case Dropped => PassResult(cur[..i] + cur[i + 1..], l)
    case Leaked(d) => PassResult(cur[..i] + cur[i + 1..], AfterLeak(l, d))
    case Advanced(moved) => PassResult(cur[i := moved], l)
  }

  /** The body of `update` for the enemy at index `i`. */
  method EnemyAt(game: Game, i: nat, dt: real, m: Maths)
    requires i < |game.enemies|
    modifies game`enemies, game`effects, game`baseHealth, game`gameState, game`alerts
    ensures game.effects == old(game.effects)
    ensures var r := Handled(old(game.enemies), i, Ledger(old(game.baseHealth), old(game.gameState), old(game.alerts)),
                             EnemyStep(old(game.enemies)[i], game.path, dt, m));
      game.enemies == r.survivors && Ledger(game.baseHealth, game.gameState, game.alerts) == r.ledger
  {
    var noDraws := DeathDraws(0.0, []);
    var e := game.enemies[i];
    var r := StepEnemy(e, game.path, dt, m);
    match r {
      case Dropped =>
        game.RemoveEnemy(e, i, false, noDraws);
      case Leaked(d) =>
        game.baseHealth := game.baseHealth - d;
        game.RemoveEnemy(e, i, false, noDraws);
        if game.baseHealth <= 0 && game.gameState != GameOver {
          game.SetGameState(GameOver);
        }
      case Advanced(moved) =>
        game.enemies := game.enemies[i := moved];
    }
  }

  /** One step of the reverse loop keeps it in line with `EnemyPass`. */
  lemma EnemyBackStep(es: seq<Enemy>, cur: seq<Enemy>, i: nat, l: Ledger, path: seq<Vec3>, dt: real, m: Maths, final: PassResult)
    requires i < |es| && i < |cur| && cur[..i + 1] == es[..i + 1]
    requires var r := EnemyPass(es[..i + 1], l, path, dt, m);
      r.survivors + cur[i + 1..] == final.survivors && r.ledger == final.ledger
    ensures var h := Handled(cur, i, l, EnemyStep(cur[i], path, dt, m));
      && h.survivors[..i] == es[..i]
      && var r := EnemyPass(es[..i], h.ledger, path, dt, m);
         r.survivors + h.survivors[i..] == final.survivors && r.ledger == final.ledger
  {
    assert es[..i + 1][..i] == es[..i];
    assert cur[..i] == es[..i];
    assert cur[i] == es[i] by { assert cur[..i + 1][i] == es[..i + 1][i]; }
    var h := Handled(cur, i, l, EnemyStep(cur[i], path, dt, m));
    match EnemyStep(es[i], path, dt, m)
    case Dropped =>
      assert h.survivors[..i] == cur[..i] && h.survivors[i..] == cur[i + 1..];
    case Leaked(d) =>
      assert h.survivors[..i] == cur[..i] && h.survivors[i..] == cur[i + 1..];
    case Advanced(moved) =>
      assert h.survivors[..i] == cur[..i] && h.survivors[i..] == [moved] + cur[i + 1..];
  }

  /**
   * `EnemySystem.update`: the reverse index loop, splicing entry `i` out of
   * `game.enemies` when it is dropped or leaks.
   */
  method Update(game: Game, dt: real, m: Maths)
    modifies game`enemies, game`effects, game`baseHealth, game`gameState, game`alerts
    ensures var r := EnemyPass(old(game.enemies), Ledger(old(game.baseHealth), old(game.gameState), old(game.alerts)), game.path, dt, m);
      && game.enemies == r.survivors
      && game.baseHealth == r.ledger.baseHealth
      && game.gameState == r.ledger.state
      && game.alerts == r.ledger.alerts
    ensures game.effects == old(game.effects)
    ensures old(game.IdsFresh()) ==> game.IdsFresh()
  {
    ghost var es := game.enemies;
    ghost var final := EnemyPass(es, Ledger(game.baseHealth, game.gameState, game.alerts), game.path, dt, m);
    var i := |game.enemies|;
    assert es[..i] == es;
    while i > 0
      invariant 0 <= i <= |es| && i <= |game.enemies|
      invariant game.enemies[..i] == es[..i]
      invariant var r := EnemyPass(es[..i], Ledger(game.baseHealth, game.gameState, game.alerts), game.path, dt, m);
        r.survivors + game.enemies[i..] == final.survivors && r.ledger == final.ledger
      invariant game.effects == old(game.effects)
    {
      i := i - 1;
      ghost var cur := game.enemies;
      ghost var l := Ledger(game.baseHealth, game.gameState, game.alerts);
      assert cur[..i + 1] == es[..i + 1];
      EnemyAt(game, i, dt, m);
      EnemyBackStep(es, cur, i, l, game.path, dt, m, final);
    }
    if UniqueIds(es, game.nextEnemyId) {
      PassKeepsIds(es, Ledger(old(game.baseHealth), old(game.gameState), old(game.alerts)), game.path, dt, m, game.nextEnemyId);
    }
  }

  /** The enemy an entry becomes when it stays in the list, if it does. */
  function Survivor(path: seq<Vec3>, dt: real, m: Maths): Enemy -> Option<Enemy>
  {
    e => if EnemyStep(e, path, dt, m).Advanced? then Some(EnemyStep(e, path, dt, m).e) else None
  }

  /** The survivors of a pass do not depend on base health or state. */
  lemma {:induction false} PassSurvivors(es: seq<Enemy>, l: Ledger, path: seq<Vec3>, dt: real, m: Maths)
    ensures EnemyPass(es, l, path, dt, m).survivors == FilterMap(es, Survivor(path, dt, m))
    decreases |es|
  {
    if es != [] {
      var n := |es| - 1;
      match EnemyStep(es[n], path, dt, m)
      case Dropped => PassSurvivors(es[..n], l, path, dt, m);
      case Leaked(d) => PassSurvivors(es[..n], AfterLeak(l, d), path, dt, m);
      case Advanced(moved) => PassSurvivors(es[..n], l, path, dt, m);
    }
  }

  /**
   * Walking the list from the back while splicing visits every enemy
   * exactly once: each survivor is the step of its own original entry, the
   * originals are taken in list order, and an entry survives exactly when
   * its step keeps it.
   */
  lemma VisitsEachOnce(es: seq<Enemy>, l: Ledger, path: seq<Vec3>, dt: real, m: Maths) returns (idx: seq<nat>)
    ensures var out := EnemyPass(es, l, path, dt, m).survivors;
      && |idx| == |out|
      && (forall t :: 0 <= t < |idx| ==> idx[t] < |es| && EnemyStep(es[idx[t]], path, dt, m) == Advanced(out[t]))
      && (forall t, u :: 0 <= t < u < |idx| ==> idx[t] < idx[u])
      && (forall j :: 0 <= j < |es| ==> (EnemyStep(es[j], path, dt, m).Advanced? <==> j in idx))
  {
    PassSurvivors(es, l, path, dt, m);
    idx := FilterMapOrigins(es, Survivor(path, dt, m));
  }

  /**
   * A pass keeps enemy ids unique: the survivors are entries of the old list,
   * taken in order and each under its own id.
   */
  lemma PassKeepsIds(es: seq<Enemy>, l: Ledger, path: seq<Vec3>, dt: real, m: Maths, next: nat)
    requires UniqueIds(es, next)
    ensures UniqueIds(EnemyPass(es, l, path, dt, m).survivors, next)
  {
    var out := EnemyPass(es, l, path, dt, m).survivors;
    var idx := VisitsEachOnce(es, l, path, dt, m);
    forall t | 0 <= t < |out|
      ensures out[t].id == es[idx[t]].id
    {
      assert EnemyStep(es[idx[t]], path, dt, m) == Advanced(out[t]);
    }
    forall t, u | 0 <= t < u < |out|
      ensures out[t].id != out[u].id
    {
      assert idx[t] < idx[u];
    }
  }

  /** Every enemy still in the list after a pass has `pathIndex` within the path. */
  lemma SurvivorsOnPath(es: seq<Enemy>, l: Ledger, path: seq<Vec3>, dt: real, m: Maths)
    requires forall j :: 0 <= j < |es| ==> es[j].pathIndex.Some? && 0 <= es[j].pathIndex.value <= |path| - 1
    ensures forall s :: s in EnemyPass(es, l, path, dt, m).survivors ==>
      s.pathIndex.Some? && 0 <= s.pathIndex.value <= |path| - 1
  {
    var out := EnemyPass(es, l, path, dt, m).survivors;
    var idx := VisitsEachOnce(es, l, path, dt, m);
    forall s | s in out
      ensures s.pathIndex.Some? && 0 <= s.pathIndex.value <= |path| - 1
    {
      var t :| 0 <= t < |out| && out[t] == s;
      assert EnemyStep(es[idx[t]], path, dt, m) == Advanced(s);
    }
  }

  /** Total damage the leaking enemies of `es` deal. */
  function TotalLeak(es: seq<Enemy>, path: seq<Vec3>, dt: real, m: Maths): int
    decreases |es|
  {
    if es == [] then 0
    else
      var n := |es| - 1;
      TotalLeak(es[..n], path, dt, m) + (if EnemyStep(es[n], path, dt, m).Leaked? then LeakDamage(es[n]) else 0)
  }

  predicate HasLeak(es: seq<Enemy>, path: seq<Vec3>, dt: real, m: Maths)
  {
    exists j :: 0 <= j < |es| && EnemyStep(es[j], path, dt, m).Leaked?
  }

  /** The base is charged exactly the sum of the leak damages, without clamping. */
  lemma {:induction false} PassCharges(es: seq<Enemy>, l: Ledger, path: seq<Vec3>, dt: real, m: Maths)
    ensures EnemyPass(es, l, path, dt, m).ledger.baseHealth == l.baseHealth - TotalLeak(es, path, dt, m)
    decreases |es|
  {
    if es != [] {
      var n := |es| - 1;
      match EnemyStep(es[n], path, dt, m)
      case Dropped => PassCharges(es[..n], l, path, dt, m);
      case Leaked(d) => PassCharges(es[..n], AfterLeak(l, d), path, dt, m);
      case Advanced(moved) => PassCharges(es[..n], l, path, dt, m);
    }
  }

  lemma {:induction false} TotalLeakNonNegative(es: seq<Enemy>, path: seq<Vec3>, dt: real, m: Maths)
    requires forall j :: 0 <= j < |es| ==> LeakDamage(es[j]) >= 0
    ensures TotalLeak(es, path, dt, m) >= 0
    ensures !HasLeak(es, path, dt, m) ==> TotalLeak(es, path, dt, m) == 0
    decreases |es|
  {
    if es != [] {
      var n := |es| - 1;
      assert forall j :: 0 <= j < n ==> es[..n][j] == es[j];
      TotalLeakNonNegative(es[..n], path, dt, m);
      if !HasLeak(es, path, dt, m) {
        assert !EnemyStep(es[n], path, dt, m).Leaked?;
        assert !HasLeak(es[..n], path, dt, m);
      }
    }
  }

  /**
   * GAME_OVER after a pass: kept once reached (with no new announcement);
   * otherwise entered exactly when some enemy leaked and the base ended at
   * or below 0, announced exactly once. Nothing else moves the state.
   */
  lemma {:induction false} PassGameOver(es: seq<Enemy>, l: Ledger, path: seq<Vec3>, dt: real, m: Maths)
    requires forall j :: 0 <= j < |es| ==> LeakDamage(es[j]) >= 0
    ensures var f := EnemyPass(es, l, path, dt, m).ledger;
      && (l.state == GameOver ==> f.state == GameOver && f.alerts == l.alerts)
      && (l.state != GameOver ==>
            && (f.state == GameOver <==> HasLeak(es, path, dt, m) && f.baseHealth <= 0)
            && (f.state != GameOver ==> f.state == l.state && f.alerts == l.alerts)
            && (f.state == GameOver ==> f.alerts == l.alerts + [GameOver]))
    decreases |es|
  {
    if es != [] {
      var n := |es| - 1;
      var pre := es[..n];
      assert forall j :: 0 <= j < n ==> pre[j] == es[j];
      PassCharges(es, l, path, dt, m);
      match EnemyStep(es[n], path, dt, m)
      case Dropped =>
        PassGameOver(pre, l, path, dt, m);
        assert HasLeak(es, path, dt, m) <==> HasLeak(pre, path, dt, m);
      case Advanced(moved) =>
        PassGameOver(pre, l, path, dt, m);
        assert HasLeak(es, path, dt, m) <==> HasLeak(pre, path, dt, m);
      case Leaked(d) =>
        var l1 := AfterLeak(l, d);
        PassGameOver(pre, l1, path, dt, m);
        PassCharges(pre, l1, path, dt, m);
        TotalLeakNonNegative(pre, path, dt, m);
        assert HasLeak(es, path, dt, m) by {
          assert EnemyStep(es[n], path, dt, m).Leaked?;
        }
    }
  }

  /**
   * Whatever the damages, a pass either leaves the state and the
   * announcements alone or enters GAME_OVER from another state and
   * announces it exactly once.
   */
  lemma {:induction false} PassStateOrGameOver(es: seq<Enemy>, l: Ledger, path: seq<Vec3>, dt: real, m: Maths)
    ensures var f := EnemyPass(es, l, path, dt, m).ledger;
      || (f.state == l.state && f.alerts == l.alerts)
      || (l.state != GameOver && f.state == GameOver && f.alerts == l.alerts + [GameOver])
    decreases |es|
  {
    if es != [] {
      var n := |es| - 1;
      match EnemyStep(es[n], path, dt, m)
      case Dropped => PassStateOrGameOver(es[..n], l, path, dt, m);
      case Advanced(moved) => PassStateOrGameOver(es[..n], l, path, dt, m);
      case Leaked(d) =>
        var l1 := AfterLeak(l, d);
        PassStateOrGameOver(es[..n], l1, path, dt, m);
        if l1.state == GameOver && l.state != GameOver {
          PassKeepsGameOver(es[..n], l1, path, dt, m);
        }
    }
  }

  /** Once GAME_OVER, the rest of the pass neither leaves it nor announces again. */
  lemma {:induction false} PassKeepsGameOver(es: seq<Enemy>, l: Ledger, path: seq<Vec3>, dt: real, m: Maths)
    requires l.state == GameOver
    ensures EnemyPass(es, l, path, dt, m).ledger.state == GameOver
    ensures EnemyPass(es, l, path, dt, m).ledger.alerts == l.alerts
    decreases |es|
  {
    if es != [] {
      var n := |es| - 1;
      match EnemyStep(es[n], path, dt, m)
      case Dropped => PassKeepsGameOver(es[..n], l, path, dt, m);
      case Advanced(moved) => PassKeepsGameOver(es[..n], l, path, dt, m);
      case Leaked(d) => PassKeepsGameOver(es[..n], AfterLeak(l, d), path, dt, m);
    }
  }

  /** On a turning step the heading moves by at most `PI * dt * 5` either way. */
  lemma TurnBounded(e: Enemy, path: seq<Vec3>, dt: real, m: Maths)
    requires dt >= 0.0
    requires EnemyStep(e, path, dt, m).Advanced?
    ensures var h := EnemyStep(e, path, dt, m).e.heading - e.heading;
      -PI * dt * ROTATION_SPEED <= h <= PI * dt * ROTATION_SPEED
  {
    var h := EnemyStep(e, path, dt, m).e.heading - e.heading;
    var target := path[e.pathIndex.value + 1];
    if e.speed * dt < m.dist(e.pos, target) {
      TurnScale(h, Wrap(m.bearing(e.pos, target) - e.heading), dt);
    } else {
      TurnScale(h, 0.0, dt);
    }
  }

  lemma TurnScale(h: real, diff: real, dt: real)
    requires -PI <= diff <= PI && dt >= 0.0 && h == diff * dt * ROTATION_SPEED
    ensures -PI * dt * ROTATION_SPEED <= h <= PI * dt * ROTATION_SPEED
  {
    var t := dt * ROTATION_SPEED;
    assert t >= 0.0;
    assert h == diff * t && PI * dt * ROTATION_SPEED == PI * t;
    assert (diff + PI) * t >= 0.0 && (PI - diff) * t >= 0.0;
  }
}
