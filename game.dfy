/**
 * The game session: the live entity lists, the ledger fields, the game state
 * and the map, with the session's own operations (state changes, spawning,
 * bounds-checked removal, the click-to-build rule and the health-bar
 * fraction).  The per-frame systems work on a `Game` from their own modules.
 */
module Core {

  import opened Wrappers
  import opened Geometry
  import opened Constants
  import opened Entities
  import opened GameAssets

  /** A JavaScript number as far as the health bar can see it. */
  datatype Percent = Fraction(f: real) | Unbounded | NotANumber

  /** `Math.max(0, health / maxHealth)`, where an unset `maxHealth` gives NaN. */
  function HealthPercent(health: int, maxHealth: Option<int>): (p: Percent)
    ensures p.Fraction? ==> p.f >= 0.0
    ensures maxHealth.Some? && maxHealth.value > 0 && 0 <= health <= maxHealth.value ==> p.Fraction? && p.f <= 1.0
    ensures maxHealth.None? ==> p == NotANumber
  {
    match maxHealth
    case None => NotANumber
    case Some(m) =>
      if m != 0 then
        var q := health as real / m as real;
        Fraction(if q > 0.0 then q else 0.0)
      else if health > 0 then Unbounded
      else if health < 0 then Fraction(0.0)
      else NotANumber
  }

  /** `fraction > 0`, which is false for NaN. */
  predicate BarVisible(p: Percent)
  {
    match p
    case Fraction(f) => f > 0.0
    case Unbounded => true
    case NotANumber => false
  }

  /** `updateEnemyHealthBar`: an enemy with a health bar shows it iff its fraction is positive. */
  function WithHealthBar(e: Enemy): Enemy
  {
    if e.healthBar.None? then e
    else e.(healthBar := Some(BarVisible(HealthPercent(e.health, e.maxHealth))))
  }

  /**
   * With a positive maximum the bar is shown exactly while health is
   * positive; without a maximum it is never shown.  Only the bar changes.
   */
  lemma HealthBarShown(e: Enemy)
    requires e.healthBar.Some?
    ensures e.maxHealth.Some? && e.maxHealth.value > 0 ==> (WithHealthBar(e).healthBar == Some(true) <==> e.health > 0)
    ensures e.maxHealth.None? ==> WithHealthBar(e).healthBar == Some(false)
    ensures WithHealthBar(e).(healthBar := e.healthBar) == e
  {
    if e.maxHealth.Some? && e.maxHealth.value > 0 {
      var h, m := e.health as real, e.maxHealth.value as real;
      if e.health > 0 {
        assert h / m > 0.0;
      } else {
        assert h / m <= 0.0;
      }
    }
  }

  /** `hoverHeight || 0`. */
  function HoverOrZero(h: Option<real>): real
  {
    if h.Some? then h.value else 0.0
  }

  /**
   * The enemy `spawnEnemy` appends: a fresh enemy of `kind` placed on the
   * first waypoint, raised by its hover height if it flies, with pathIndex 0
   * and its health bar refreshed.
   */
  function Spawned(id: nat, kind: EnemyKind, path: seq<Vec3>): (e: Enemy)
    requires |path| > 0
    ensures e.id == id && e.kind == kind && e.pathIndex == Some(0)
    ensures e.pos.x == path[0].x && e.pos.z == path[0].z
    ensures e.pos.y == path[0].y + (if kind == Flying then 2.0 else 0.0)
    ensures e.health == NewEnemy(id, kind).health && e.speed == NewEnemy(id, kind).speed
  {
    var made := NewEnemy(id, kind);
    var p := path[0];
    var at := if made.flying then p.(y := p.y + HoverOrZero(made.hoverHeight)) else p;
    WithHealthBar(made.(pos := at, pathIndex := Some(0), healthBar := if made.healthBar.Some? then Some(true) else None))
  }

  /** A tower built on a tile stands on the tile's position at height 0.2. */
  function NewTower(tilePos: Vec3): Tower
  {
    Tower(tilePos.(y := 0.2), true, None, None)
  }

  /** The notices (`alert`) a change into state `s` raises. */
  function Announce(s: GameState): seq<GameState>
  {
    if Terminal(s) then [s] else []
  }

  /** Everything of a session that a frame can change, as one value. */
  datatype Session = Session(
    towers: seq<Tower>, enemies: seq<Enemy>, projectiles: seq<Projectile>, effects: seq<Effect>,
    resources: int, baseHealth: int, gameState: GameState, alerts: seq<GameState>,
    tiles: seq<Tile>, nextEnemyId: nat)

  /** `setGameState` on a session value. */
  function WithState(s: Session, to: GameState): Session
  {
    if to == s.gameState then s else s.(gameState := to, alerts := s.alerts + Announce(to))
  }

  class Game {
    var towers: seq<Tower>
    var enemies: seq<Enemy>
    var projectiles: seq<Projectile>
    var effects: seq<Effect>
    var resources: int
    var baseHealth: int
    var gameState: GameState
    /** The GAME_OVER and VICTORY notices shown so far, in order. */
    var alerts: seq<GameState>
    /** The map tiles, x-major. */
    var tiles: seq<Tile>
    /** The id the next spawned enemy receives. */
    var nextEnemyId: nat
    const path: seq<Vec3> := EnemyPath()

    /** Every tower can aim, and none would divide by a zero attack speed. */
    predicate TowersReady()
      reads this
    {
      forall i :: 0 <= i < |towers| ==> CanFire(towers[i])
    }

    /** The session's current values. */
    function Snap(): Session
      reads this
    {
      Session(towers, enemies, projectiles, effects, resources, baseHealth, gameState, alerts, tiles, nextEnemyId)
    }

    /** Live enemies carry distinct ids, all handed out already: an id picks out one enemy. */
    ghost predicate IdsFresh()
      reads this
    {
      UniqueIds(enemies, nextEnemyId)
    }

    constructor()
      ensures IdsFresh()
      ensures towers == [] && enemies == [] && projectiles == [] && effects == []
      ensures resources == 100 && baseHealth == 100 && gameState == Idle && alerts == []
      ensures nextEnemyId == 0
      ensures |tiles| == DEFAULT_MAP_SIZE * DEFAULT_MAP_SIZE
      ensures forall i :: 0 <= i < |tiles| ==> tiles[i] == WorldTile(i / DEFAULT_MAP_SIZE, i % DEFAULT_MAP_SIZE)
      ensures TowersReady()
    {
      var world := CreateGameWorld(DEFAULT_MAP_SIZE);
      towers, enemies, projectiles, effects := [], [], [], [];
      resources, baseHealth := 100, 100;
      gameState, alerts := Idle, [];
      nextEnemyId := 0;
      tiles := world;
    }

    /** `setGameState`: a change of state, with its notice; setting the current state does nothing. */
    method SetGameState(s: GameState)
      modifies this`gameState, this`alerts
      ensures s == old(gameState) ==> gameState == old(gameState) && alerts == old(alerts)
      ensures s != old(gameState) ==> gameState == s && alerts == old(alerts) + Announce(s)
    {
      if gameState == s {
        return;
      }
      gameState := s;
      alerts := alerts + Announce(s);
    }

    /** `spawnEnemy`: exactly one new enemy, appended, with a fresh id. */
    method SpawnEnemy(kind: EnemyKind)
      modifies this`enemies, this`nextEnemyId
      ensures nextEnemyId == old(nextEnemyId) + 1
      ensures enemies == old(enemies) + [Spawned(old(nextEnemyId), kind, path)]
      ensures old(IdsFresh()) ==> IdsFresh()
    {
      enemies := enemies + [Spawned(nextEnemyId, kind, path)];
      nextEnemyId := nextEnemyId + 1;
    }

    /**
     * `removeEnemy`: optionally leaves a death effect where `enemy` stood,
     * then splices out the entry at `index` if `index` is in range.
     */
    method RemoveEnemy(enemy: Enemy, index: int, useEffect: bool, draws: DeathDraws)
      requires useEffect ==> ValidDraws(draws)
      modifies this`enemies, this`effects
      ensures useEffect ==> effects == old(effects) + [DeathEffect(enemy.pos, draws)]
      ensures !useEffect ==> effects == old(effects)
      ensures 0 <= index < |old(enemies)| ==> enemies == RemoveAt(old(enemies), index)
      ensures !(0 <= index < |old(enemies)|) ==> enemies == old(enemies)
      ensures old(IdsFresh()) ==> IdsFresh()
    {
      if 0 <= index < |enemies| && IdsFresh() {
        RemoveAtKeepsIds(enemies, nextEnemyId, index);
      }
      if useEffect {
        var effect := CreateDeathEffect(enemy.pos, draws);
        effects := effects + [effect];
      }
      if 0 <= index < |enemies| {
        enemies := RemoveAt(enemies, index);
      }
    }

    /** `removeProjectile`: splices out the entry at `index` if it is in range. */
    method RemoveProjectile(index: int)
      modifies this`projectiles
      ensures 0 <= index < |old(projectiles)| ==> projectiles == RemoveAt(old(projectiles), index)
      ensures !(0 <= index < |old(projectiles)|) ==> projectiles == old(projectiles)
    {
      if 0 <= index < |projectiles| {
        projectiles := RemoveAt(projectiles, index);
      }
    }

    /**
     * The purchase rule of `onMouseClick`, given the tile the click landed
     * on (if any): a buildable tile and enough resources buy one tower there
     * and make the tile unbuildable; anything else changes nothing.
     */
    method OnMouseClick(tile: Option<nat>)
      requires tile.Some? ==> tile.value < |tiles|
      modifies this`towers, this`resources, this`tiles
      ensures old(TowersReady()) ==> TowersReady()
      ensures var bought := tile.Some? && old(tiles)[tile.value].buildable && old(resources) >= TOWER_COST;
        if bought then
          && resources == old(resources) - TOWER_COST
          && towers == old(towers) + [NewTower(old(tiles)[tile.value].pos)]
          && tiles == old(tiles)[tile.value := old(tiles)[tile.value].(buildable := false)]
        else
          resources == old(resources) && towers == old(towers) && tiles == old(tiles)
    {
      if tile.Some? && tiles[tile.value].buildable {
        var t := tile.value;
        if resources >= TOWER_COST {
          towers := towers + [NewTower(tiles[t].pos)];
          resources := resources - TOWER_COST;
          tiles := tiles[t := tiles[t].(buildable := false)];
        }
      }
    }
  }
}
