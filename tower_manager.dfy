/**
 * The tower manager of src/managers/TowerManager.js: its own tower list,
 * a purchase rule that spends from the session and marks the tile taken,
 * and a turret update that turns each turret toward the nearest enemy when
 * it is close enough.
 */
module Towers {

  import opened Wrappers
  import opened Geometry
  import opened Constants
  import opened Entities
  import opened GameAssets
  import opened Targeting
  import opened Core

  /** The distance under which a turret turns toward the nearest enemy. */
  const TURN_RANGE: real := 5.0

  /**
   * A tower after `updateTower`: with a turret, aimed at the nearest enemy
   * when that one is closer than `TURN_RANGE`; otherwise as it was.
   */
  function Aimed(t: Tower, es: seq<Enemy>, m: Maths): Tower
  {
    if !t.hasTurret then t
    else
      var pick := Nearest(Distances(t.pos, es, m), Unlimited);
      if pick.Some? && m.dist(t.pos, es[pick.value].pos) < TURN_RANGE then t.(aim := Some(es[pick.value].pos))
      else t
  }

  /**
   * The turret turns exactly toward the enemy the combat scan with range
   * `TURN_RANGE` would pick, and stays put when there is none; nothing but
   * the aim changes, and a tower without a turret is left alone.
   */
  lemma AimedAtNearestInRange(t: Tower, es: seq<Enemy>, m: Maths)
    ensures var a := Aimed(t, es, m);
      var pick := Nearest(Distances(t.pos, es, m), Below(TURN_RANGE));
      && a.(aim := t.aim) == t
      && (!t.hasTurret ==> a == t)
      && (t.hasTurret && pick.Some? ==> a.aim == Some(es[pick.value].pos))
      && (pick.None? ==> a == t)
  {
    UnlimitedThenBound(Distances(t.pos, es, m), TURN_RANGE);
  }

  class TowerManager {
    const game: Game
    var towers: seq<Tower>

    constructor(game: Game)
      ensures this.game == game && towers == []
    {
      this.game := game;
      towers := [];
    }

    /**
     * `tryBuildTower` on the map tile at index `tile` (`None`: no tile was
     * hit).  `factoryFails` says whether building the tower's model throws.
     * A purchase needs a buildable tile and at least `TOWER_COST`; it then
     * adds one tower on the tile, charges exactly `TOWER_COST` and marks the
     * tile taken.  Otherwise nothing changes.
     */
    method TryBuildTower(tile: Option<nat>, factoryFails: bool) returns (ok: bool)
      requires tile.Some? ==> tile.value < |game.tiles|
      modifies this`towers, game`resources, game`tiles
      ensures ok <==> tile.Some? && old(game.tiles)[tile.value].buildable && old(game.resources) >= TOWER_COST && !factoryFails
      ensures ok ==>
        && towers == old(towers) + [NewTower(old(game.tiles)[tile.value].pos)]
        && game.resources == old(game.resources) - TOWER_COST
        && game.tiles == old(game.tiles)[tile.value := old(game.tiles)[tile.value].(buildable := false)]
      ensures !ok ==> towers == old(towers) && game.resources == old(game.resources) && game.tiles == old(game.tiles)
    {
      if tile.None? || !game.tiles[tile.value].buildable {
        return false;
      }
      if game.resources < TOWER_COST {
        return false;
      }
      var tower := BuildTower(game.tiles[tile.value].pos, factoryFails);
      if tower.Some? {
        game.resources := game.resources - TOWER_COST;
        var t := game.tiles[tile.value];
        game.tiles := game.tiles[tile.value := t.(buildable := false)];
        return true;
      }
      return false;
    }

    /** `buildTower`: a tower on `tilePos`, or `None` when the factory throws. */
    method BuildTower(tilePos: Vec3, factoryFails: bool) returns (tower: Option<Tower>)
      modifies this`towers
      ensures tower.Some? <==> !factoryFails
      ensures tower.Some? ==> tower.value == NewTower(tilePos) && towers == old(towers) + [tower.value]
      ensures tower.None? ==> towers == old(towers)
    {
      if factoryFails {
        return None;
      }
      var t := NewTower(tilePos);
      towers := towers + [t];
      return Some(t);
    }

    /** `updateTower` for the tower at index `i`. */
    method UpdateTower(i: nat, m: Maths)
      requires i < |towers|
      modifies this`towers
      ensures towers == old(towers)[i := Aimed(old(towers)[i], game.enemies, m)]
    {
      var tower := towers[i];
      if !tower.hasTurret {
        return;
      }
      var nearest := ScanNearest(tower.pos, game.enemies, m, Unlimited);
      if nearest.Some? && m.dist(tower.pos, game.enemies[nearest.value].pos) < TURN_RANGE {
        towers := towers[i := tower.(aim := Some(game.enemies[nearest.value].pos))];
      }
    }

    /** `update`: every tower's turret is brought up to date; `deltaTime` plays no part. */
    method Update(deltaTime: real, m: Maths)
      modifies this`towers
      ensures |towers| == |old(towers)|
      ensures forall i :: 0 <= i < |towers| ==> towers[i] == Aimed(old(towers)[i], game.enemies, m)
    {
      for i := 0 to |towers|
        invariant |towers| == |old(towers)|
        invariant forall j :: 0 <= j < i ==> towers[j] == Aimed(old(towers)[j], game.enemies, m)
        invariant forall j :: i <= j < |towers| ==> towers[j] == old(towers)[j]
      {
        UpdateTower(i, m);
      }
    }

    /** `removeTower`: splice `index` out, only for a given tower and an index in range. */
    method RemoveTower(tower: Option<Tower>, index: int)
      modifies this`towers
      ensures tower.Some? && 0 <= index < |old(towers)| ==> towers == RemoveAt(old(towers), index)
      ensures !(tower.Some? && 0 <= index < |old(towers)|) ==> towers == old(towers)
    {
      if tower.Some? && 0 <= index < |towers| {
        towers := RemoveAt(towers, index);
      }
    }

    method Cleanup()
      modifies this`towers
      ensures towers == []
    {
      towers := [];
    }
  }
}
