/**
 * The live entities of a session: enemies, towers and projectiles, with the
 * per-type statistics the enemy factories give a new enemy.  An enemy is
 * identified by `id`, so a projectile's reference to its target is an id that
 * may no longer be found among the live enemies.
 */
module Entities {

  import opened Wrappers
  import opened Geometry

  datatype EnemyKind = Basic | Fast | Tank | Flying | Swarm | Boss

  /**
   * An enemy.  Fields that the source reads but that a factory may leave
   * unset are options: `pathIndex` (an entry without a numeric one is
   * malformed), `maxHealth`, the leak `damage` and `hoverHeight`.
   * `healthBar` is the visibility of the health bar, `None` when the enemy
   * has no health bar.
   */
  datatype Enemy = Enemy(
    id: nat,
    kind: EnemyKind,
    pos: Vec3,
    heading: real,
    health: int,
    maxHealth: Option<int>,
    speed: real,
    value: int,
    pathIndex: Option<int>,
    damage: Option<int>,
    flying: bool,
    hoverHeight: Option<real>,
    healthBar: Option<bool>)

  /** What an enemy factory sets: health, speed, reward value, flying flag, hover height. */
  datatype KindStats = KindStats(health: int, speed: real, value: int, flying: bool, hoverHeight: Option<real>)

  function StatsOf(kind: EnemyKind): KindStats
  {
    match kind
    case Basic => KindStats(100, 1.5, 10, false, None)
    case Fast => KindStats(60, 2.5, 15, false, None)
    case Tank => KindStats(250, 0.8, 30, false, None)
    case Flying => KindStats(100, 1.2, 25, true, Some(2.0))
    case Swarm => KindStats(140, 1.0, 35, false, None)
    case Boss => KindStats(600, 0.4, 100, false, None)
  }

  /**
   * A fresh enemy as its factory returns it: at the origin, heading 0, with a
   * visible health bar, and with neither `pathIndex`, `maxHealth` nor
   * `damage` set.
   */
  function NewEnemy(id: nat, kind: EnemyKind): (e: Enemy)
    ensures e.id == id && e.kind == kind
    ensures e.health > 0 && e.speed > 0.0
    ensures e.flying <==> kind == Flying
    ensures e.pathIndex.None? && e.maxHealth.None? && e.damage.None?
  {
    var s := StatsOf(kind);
    Enemy(id, kind, Vec3(0.0, 0.0, 0.0), 0.0, s.health, None, s.speed, s.value,
          None, None, s.flying, s.hoverHeight, Some(true))
  }

  /** Combat figures of a tower, set on its first combat update. */
  datatype TowerStats = TowerStats(range: real, damage: int, attackSpeed: real, cooldown: real)

  /**
   * A tower.  `aim` is the point its turret was last turned toward;
   * `stats` is `None` until the combat system first sees the tower.
   */
  datatype Tower = Tower(pos: Vec3, hasTurret: bool, aim: Option<Vec3>, stats: Option<TowerStats>)

  /** A tower the combat system can work with: it has a turret to aim, and its attack speed is not zero. */
  predicate CanFire(t: Tower)
  {
    t.hasTurret && (t.stats.Some? ==> t.stats.value.attackSpeed != 0.0)
  }

  /** A homing projectile; `target` is the id of the enemy it chases. */
  datatype Projectile = Projectile(pos: Vec3, target: Option<nat>, speed: real, damage: int)

  /** `enemies.includes(target)`. */
  predicate Includes(es: seq<Enemy>, id: nat)
  {
    exists j :: 0 <= j < |es| && es[j].id == id
  }

  /** `enemies.indexOf(target)`: the first index holding `id`, or -1. */
  function IndexOf(es: seq<Enemy>, id: nat): (r: int)
    ensures -1 <= r < |es|
    ensures r == -1 <==> !Includes(es, id)
    ensures r >= 0 ==> es[r].id == id && forall j :: 0 <= j < r ==> es[j].id != id
  {
    if es == [] then -1
    else if es[0].id == id then 0
    else
      var r := IndexOf(es[1..], id);
      assert forall j :: 0 < j < |es| ==> es[j] == es[1..][j - 1];
      if r == -1 then -1 else r + 1
  }

  /**
   * Enemy ids stand in for object identity: no two live enemies share one,
   * and every one was handed out before `next`.
   */
  predicate UniqueIds(es: seq<Enemy>, next: nat)
  {
    && (forall i :: 0 <= i < |es| ==> es[i].id < next)
    && (forall i, j :: 0 <= i < j < |es| ==> es[i].id != es[j].id)
  }

  /** With unique ids, the entry `indexOf` finds is the only one holding the id. */
  lemma IndexOfUnique(es: seq<Enemy>, next: nat, k: nat)
    requires UniqueIds(es, next) && k < |es|
    ensures IndexOf(es, es[k].id) == k
  {
    assert Includes(es, es[k].id);
  }

  /** Splicing an entry out keeps the ids unique. */
  lemma RemoveAtKeepsIds(es: seq<Enemy>, next: nat, index: nat)
    requires UniqueIds(es, next) && index < |es|
    ensures UniqueIds(RemoveAt(es, index), next)
  {
    var r := RemoveAt(es, index);
    forall i, j | 0 <= i < j < |r|
      ensures r[i].id != r[j].id
    {
      var i', j' := if i < index then i else i + 1, if j < index then j else j + 1;
      assert r[i] == es[i'] && r[j] == es[j'] && i' < j';
    }
    forall i | 0 <= i < |r|
      ensures r[i].id < next
    {
      assert r[i] == es[if i < index then i else i + 1];
    }
  }

  /** `splice(index, 1)`: the list without the element at `index`. */
  function RemoveAt<T>(s: seq<T>, index: nat): (r: seq<T>)
    requires index < |s|
    ensures |r| == |s| - 1
    ensures forall j :: 0 <= j < index ==> r[j] == s[j]
    ensures forall j :: index <= j < |r| ==> r[j] == s[j + 1]
  {
    s[..index] + s[index + 1..]
  }
}
