/**
 * The simulation-relevant part of the asset factories: the flags of a map
 * tile, the layout of the 8 x 8 map with its L-shaped path, and the death
 * effect (a burst of particles with an age and a lifetime).
 */
module GameAssets {

  import opened Geometry
  import opened Constants

  datatype TileType = BuildableTile | PathTile | StartTile | EndTile | OtherTile

  /** A map tile: its type, whether enemies walk it, whether a tower may be built on it, and where it stands. */
  datatype Tile = Tile(tileType: TileType, walkable: bool, buildable: bool, pos: Vec3)

  /** A tile as created, before the map places it. */
  function CreateTile(t: TileType): Tile
  {
    Tile(t, t == PathTile || t == StartTile || t == EndTile, t == BuildableTile, Vec3(0.0, 0.0, 0.0))
  }

  /** Walkable and buildable exclude each other, and only the four known types set either flag. */
  lemma TileFlags(t: TileType)
    ensures CreateTile(t).buildable <==> t == BuildableTile
    ensures CreateTile(t).walkable <==> t in {PathTile, StartTile, EndTile}
    ensures !(CreateTile(t).walkable && CreateTile(t).buildable)
    ensures t == OtherTile ==> !CreateTile(t).walkable && !CreateTile(t).buildable
  {
  }

  const DEFAULT_MAP_SIZE: nat := 8

  /** The type of cell (x, z): a column and a row form the L-shaped path from (2, 0) to (6, 5). */
  function CellType(x: int, z: int): TileType
  {
    if x == 2 && z == 0 then StartTile
    else if x == 6 && z == 5 then EndTile
    else if (x == 2 && z <= 5) || (z == 5 && x >= 2 && x <= 6) then PathTile
    else BuildableTile
  }

  /** Hexagonal placement: odd rows shift half a tile; tiles are 2 apart in x and 1.75 in z. */
  function CellPosition(x: nat, z: nat): Vec3
  {
    var offset := if z % 2 == 0 then 0.0 else 1.0;
    Vec3((x as real + offset * 0.5) * 2.0, 0.0, (z as real) * 1.75)
  }

  function WorldTile(x: nat, z: nat): Tile
  {
    CreateTile(CellType(x, z)).(pos := CellPosition(x, z))
  }

  /** On the default map, exactly the cells of the L walk are walkable; the one start and the one end are its corners' ends. */
  lemma DefaultLayout(x: nat, z: nat)
    requires x < DEFAULT_MAP_SIZE && z < DEFAULT_MAP_SIZE
    ensures WorldTile(x, z).walkable <==> (x == 2 && z <= 5) || (z == 5 && 2 <= x <= 6)
    ensures WorldTile(x, z).buildable <==> !WorldTile(x, z).walkable
    ensures WorldTile(x, z).tileType == StartTile <==> x == 2 && z == 0
    ensures WorldTile(x, z).tileType == EndTile <==> x == 6 && z == 5
  {
  }

  lemma {:induction false} MulAtLeast(k: nat, n: nat)
    requires k >= 1
    ensures k * n >= n
  {
    if k > 1 {
      MulAtLeast(k - 1, n);
      assert k * n == (k - 1) * n + n;
    }
  }

  /** Row-major index arithmetic: cell (x, z) of an n-wide grid sits at x * n + z. */
  lemma CellIndex(x: nat, z: nat, n: nat)
    requires z < n
    ensures (x * n + z) / n == x && (x * n + z) % n == z
  {
    var i := x * n + z;
    var q, r := i / n, i % n;
    assert i == q * n + r && 0 <= r < n;
    if q > x {
      MulAtLeast(q - x, n);
      assert false;
    } else if q < x {
      MulAtLeast(x - q, n);
      assert false;
    }
  }

  /** `createGameWorld`: a tile for every cell, x-major, as the nested loops add them. */
  method CreateGameWorld(mapSize: nat) returns (tiles: seq<Tile>)
    ensures |tiles| == mapSize * mapSize
    ensures forall i :: 0 <= i < |tiles| ==> tiles[i] == WorldTile(i / mapSize, i % mapSize)
  {
    tiles := [];
    for x := 0 to mapSize
      invariant |tiles| == x * mapSize
      invariant forall i :: 0 <= i < |tiles| ==> tiles[i] == WorldTile(i / mapSize, i % mapSize)
    {
      for z := 0 to mapSize
        invariant |tiles| == x * mapSize + z
        invariant forall i :: 0 <= i < |tiles| ==> tiles[i] == WorldTile(i / mapSize, i % mapSize)
      {
        AppendCell(tiles, x, z, mapSize);
        tiles := tiles + [WorldTile(x, z)];
      }
      assert x * mapSize + mapSize == (x + 1) * mapSize;
    }
  }

  /** Adding cell (x, z) next keeps every tile at its row-major index. */
  lemma AppendCell(tiles: seq<Tile>, x: nat, z: nat, n: nat)
    requires z < n && |tiles| == x * n + z
    requires forall i :: 0 <= i < |tiles| ==> tiles[i] == WorldTile(i / n, i % n)
    ensures forall i :: 0 <= i < |tiles| + 1 ==> (tiles + [WorldTile(x, z)])[i] == WorldTile(i / n, i % n)
  {
    CellIndex(x, z, n);
    forall i | 0 <= i < |tiles| + 1
      ensures (tiles + [WorldTile(x, z)])[i] == WorldTile(i / n, i % n)
    {
      if i < |tiles| {
        assert (tiles + [WorldTile(x, z)])[i] == tiles[i];
      }
    }
  }

  /**
   * The first and last waypoints stand over the start and end tiles, but the
   * corner waypoint stands over no tile centre at all: the corner tile (2, 5)
   * is in an odd row and so is centred half a tile further along x.
   */
  lemma PathAgainstTiles()
    ensures EnemyPath()[0].x == CellPosition(2, 0).x && EnemyPath()[0].z == CellPosition(2, 0).z
    ensures EnemyPath()[2].x == CellPosition(6, 5).x && EnemyPath()[2].z == CellPosition(6, 5).z
    ensures EnemyPath()[1].x != CellPosition(2, 5).x
    ensures forall x: nat, z: nat :: CellPosition(x, z).x != EnemyPath()[1].x || CellPosition(x, z).z != EnemyPath()[1].z
  {
    forall x: nat, z: nat
      ensures CellPosition(x, z).x != EnemyPath()[1].x || CellPosition(x, z).z != EnemyPath()[1].z
    {
      if CellPosition(x, z).z == 8.75 {
        assert z == 5;
        assert CellPosition(x, z).x == (x as real) * 2.0 + 1.0;
      }
    }
  }

  datatype Particle = Particle(pos: Vec3, vel: Vec3)

  /** A particle burst at `pos`; `age` counts frames up to `lifetime`. */
  datatype Effect = Effect(pos: Vec3, age: int, lifetime: int, particles: seq<Particle>)

  /**
   * The random draws of one death effect: `countRoll` is the `Math.random()`
   * that sets the particle count, `particles` the randomly placed and
   * launched particles to take them from.
   */
  datatype DeathDraws = DeathDraws(countRoll: real, particles: seq<Particle>)

  predicate ValidDraws(d: DeathDraws)
  {
    0.0 <= d.countRoll < 1.0 && |d.particles| >= 10
  }

  /** `8 + Math.floor(Math.random() * 3)`. */
  function ParticleCount(roll: real): (n: int)
    requires 0.0 <= roll < 1.0
    ensures 8 <= n <= 10
  {
    8 + (roll * 3.0).Floor
  }

  function DeathEffect(pos: Vec3, d: DeathDraws): Effect
    requires ValidDraws(d)
  {
    Effect(pos, 0, 60, d.particles[..ParticleCount(d.countRoll)])
  }

  /** `createDeathEffect`: a fresh burst of 8 to 10 particles, age 0, living 60 frames. */
  method CreateDeathEffect(pos: Vec3, d: DeathDraws) returns (e: Effect)
    requires ValidDraws(d)
    ensures e == DeathEffect(pos, d)
    ensures e.pos == pos && e.age == 0 && e.lifetime == 60
    ensures 8 <= |e.particles| <= 10
  {
    var n := ParticleCount(d.countRoll);
    var particles: seq<Particle> := [];
    for i := 0 to n
      invariant particles == d.particles[..i]
    {
      particles := particles + [d.particles[i]];
    }
    e := Effect(pos, 0, 60, particles);
  }
}
