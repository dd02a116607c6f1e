/** The game's fixed tables: tower price, enemy path, wave table and game states. */
module Constants {

  import opened Geometry

  /** Price of one tower, in resources. */
  const TOWER_COST: int := 50

  /**
   * The waypoints every enemy walks, from the start portal, round one
   * corner, to the end portal.
   */
  function EnemyPath(): (p: seq<Vec3>)
    ensures |p| == 3
    ensures forall i :: 0 <= i < |p| - 1 ==> p[i] != p[i + 1]
    ensures forall i :: 0 <= i < |p| ==> p[i].y == 0.5
  {
    [Vec3(4.0, 0.5, 0.0), Vec3(4.0, 0.5, 8.75), Vec3(13.0, 0.5, 8.75)]
  }

  /** One row of the wave table: how many enemies, and seconds between spawns. */
  datatype WaveDef = WaveDef(count: int, delay: real)

  /**
   * The three waves.  Waves escalate: each has more enemies than the one
   * before and releases them faster.
   */
  function WaveConfig(): (w: seq<WaveDef>)
    ensures |w| == 3
    ensures forall i :: 0 <= i < |w| ==> w[i].count > 0 && w[i].delay > 0.0
    ensures forall i :: 0 <= i < |w| - 1 ==> w[i].count < w[i + 1].count && w[i].delay > w[i + 1].delay
  {
    [WaveDef(5, 1.0), WaveDef(8, 0.8), WaveDef(12, 0.6)]
  }

  datatype GameState = Idle | WaveSpawning | WaveActive | WaveComplete | GameOver | Victory

  /** The string each state stands for in the game. */
  function StateName(s: GameState): string
  {
    match s
    case Idle => "idle"
    case WaveSpawning => "wave_spawning"
    case WaveActive => "wave_active"
    case WaveComplete => "wave_complete"
    case GameOver => "game_over"
    case Victory => "victory"
  }

  /** No two states share a name, so comparing names compares states. */
  lemma StateNamesDistinct(s: GameState, t: GameState)
    ensures StateName(s) == StateName(t) <==> s == t
  {
  }

  /** The states in which the simulation is frozen. */
  predicate Terminal(s: GameState)
  {
    s == GameOver || s == Victory
  }
}
