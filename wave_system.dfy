/**
 * The wave spawner: a countdown that releases the enemies of the current
 * wave one at a time, then hands the game from WAVE_SPAWNING to WAVE_ACTIVE.
 * It keeps only a count: every enemy it releases is a basic one.
 */
module Waves {

  import opened Wrappers
  import opened Geometry
  import opened Constants
  import opened Entities
  import opened Core

  /** The spawner's counters, as one value. */
  datatype Countdown = Countdown(currentWave: nat, enemiesToSpawn: int, spawnTimer: real, spawnDelay: real)

  /** The spawner's counters and the session after the spawner's turn. */
  datatype WaveFrame = WaveFrame(countdown: Countdown, session: Session)

  /**
   * The spawner's turn on values: outside WAVE_SPAWNING nothing happens;
   * otherwise the timer runs down, and once it is out with enemies left one
   * basic enemy is appended under the next id, the count drops and the timer
   * restarts, the spawn that empties the count entering WAVE_ACTIVE.
   */
  function SpawnTick(c: Countdown, s: Session, path: seq<Vec3>, dt: real): WaveFrame
    requires |path| > 0
  {
    if s.gameState != WaveSpawning then WaveFrame(c, s)
    else
      var timer := c.spawnTimer - dt;
      if timer <= 0.0 && c.enemiesToSpawn > 0 then
        var left := c.enemiesToSpawn - 1;
        var grown := s.(enemies := s.enemies + [Spawned(s.nextEnemyId, Basic, path)], nextEnemyId := s.nextEnemyId + 1);
        WaveFrame(c.(enemiesToSpawn := left, spawnTimer := c.spawnDelay), if left == 0 then WithState(grown, WaveActive) else grown)
      else WaveFrame(c.(spawnTimer := timer), s)
  }

  class WaveSystem {
    const waveConfig: seq<WaveDef> := WaveConfig()
    /** Waves started so far; the current wave is `waveConfig[currentWave - 1]`. */
    var currentWave: nat
    var enemiesToSpawn: int
    var spawnTimer: real
    var spawnDelay: real
    /** Enemies released in the current wave. */
    ghost var spawned: nat

    /** Released plus still-to-release is always the current wave's count. */
    ghost predicate Valid()
      reads this
    {
      && currentWave <= |waveConfig|
      && enemiesToSpawn >= 0
      && (currentWave == 0 ==> enemiesToSpawn == 0 && spawned == 0)
      && (currentWave > 0 ==> spawned + enemiesToSpawn == waveConfig[currentWave - 1].count)
    }

    /** The counters' current values. */
    function Snap(): Countdown
      reads this
    {
      Countdown(currentWave, enemiesToSpawn, spawnTimer, spawnDelay)
    }

    constructor()
      ensures Valid()
      ensures currentWave == 0 && enemiesToSpawn == 0 && spawnTimer == 0.0 && spawnDelay == 0.0
    {
      currentWave, enemiesToSpawn := 0, 0;
      spawnTimer, spawnDelay := 0.0, 0.0;
      spawned := 0;
    }

    /**
     * `startNextWave`: from IDLE or WAVE_COMPLETE, with a wave left, arms
     * the next wave from the table and switches to WAVE_SPAWNING; otherwise
     * does nothing.
     */
    method StartNextWave(game: Game)
      requires Valid()
      modifies this, game`gameState, game`alerts
      ensures Valid()
      ensures var armed := old(game.gameState) in {Idle, WaveComplete} && old(currentWave) < |waveConfig|;
        if armed then
          && currentWave == old(currentWave) + 1
          && enemiesToSpawn == waveConfig[old(currentWave)].count
          && spawnDelay == waveConfig[old(currentWave)].delay
          && spawnTimer == spawnDelay
          && spawned == 0
          && game.gameState == WaveSpawning && game.alerts == old(game.alerts)
        else
          unchanged(this) && game.gameState == old(game.gameState) && game.alerts == old(game.alerts)
    {
      var state := game.gameState;
      if (state == Idle || state == WaveComplete) && currentWave < |waveConfig| {
        currentWave := currentWave + 1;
        var wave := waveConfig[currentWave - 1];
        enemiesToSpawn := wave.count;
        spawnDelay := wave.delay;
        spawnTimer := spawnDelay;
        spawned := 0;
        game.SetGameState(WaveSpawning);
      }
    }

    /**
     * `update`: only in WAVE_SPAWNING, the timer runs down by `deltaTime`;
     * once it is out and enemies remain, exactly one basic enemy is spawned,
     * the count drops by one and the timer restarts, and the spawn that
     * empties the count moves the game to WAVE_ACTIVE.
     */
    method Update(game: Game, deltaTime: real)
      requires Valid()
      modifies this, game`enemies, game`nextEnemyId, game`gameState, game`alerts
      ensures Valid()
      ensures old(game.IdsFresh()) ==> game.IdsFresh()
      ensures WaveFrame(Snap(), game.Snap()) == SpawnTick(old(Snap()), old(game.Snap()), game.path, deltaTime)
      ensures old(game.gameState) != WaveSpawning ==> unchanged(this) && unchanged(game)
      ensures old(game.gameState) == WaveSpawning ==>
        var timer := old(spawnTimer) - deltaTime;
        var spawns := timer <= 0.0 && old(enemiesToSpawn) > 0;
        && currentWave == old(currentWave) && spawnDelay == old(spawnDelay)
        && game.alerts == old(game.alerts)
        && (spawns ==>
              && enemiesToSpawn == old(enemiesToSpawn) - 1
              && spawned == old(spawned) + 1
              && spawnTimer == spawnDelay
              && game.enemies == old(game.enemies) + [Spawned(old(game.nextEnemyId), Basic, game.path)]
              && game.nextEnemyId == old(game.nextEnemyId) + 1
              && game.gameState == (if enemiesToSpawn == 0 then WaveActive else WaveSpawning))
        && (!spawns ==>
              && enemiesToSpawn == old(enemiesToSpawn) && spawned == old(spawned)
              && spawnTimer == timer
              && game.enemies == old(game.enemies) && game.nextEnemyId == old(game.nextEnemyId)
              && game.gameState == WaveSpawning)
    {
      if game.gameState == WaveSpawning {
        spawnTimer := spawnTimer - deltaTime;
        if spawnTimer <= 0.0 && enemiesToSpawn > 0 {
          game.SpawnEnemy(Basic);
          enemiesToSpawn := enemiesToSpawn - 1;
          spawned := spawned + 1;
          spawnTimer := spawnDelay;
          if enemiesToSpawn == 0 {
            game.SetGameState(WaveActive);
          }
        }
      }
    }

    /** `getCurrentWaveNumber`: never beyond the last wave of the table. */
    function GetCurrentWaveNumber(): (n: nat)
      reads this
      requires Valid()
      ensures n <= |WaveConfig()|
    {
      currentWave
    }

    /** `isWaveComplete`: the wave is fully released and every enemy is gone. */
    predicate IsWaveComplete(game: Game)
      reads this, game
    {
      game.gameState == WaveActive && |game.enemies| == 0 && enemiesToSpawn == 0
    }

    /** `isAllWavesComplete`. */
    predicate IsAllWavesComplete()
      reads this
    {
      currentWave >= |waveConfig|
    }
  }

  /** A complete wave has released its whole count. */
  lemma CompleteWaveFullyReleased(w: WaveSystem, game: Game)
    requires w.Valid() && w.currentWave > 0 && w.IsWaveComplete(game)
    ensures w.spawned == w.waveConfig[w.currentWave - 1].count
  {
  }

  /** All waves are complete exactly when the third and last wave has been started. */
  lemma AllWavesMeansLastStarted(w: WaveSystem)
    requires w.Valid()
    ensures w.IsAllWavesComplete() <==> w.currentWave == |WaveConfig()|
    ensures w.IsAllWavesComplete() <==> w.GetCurrentWaveNumber() == 3
  {
  }

  /**
   * Wave 1 from a fresh session: start it, then five updates of one second
   * each release its five basic enemies, all on the first waypoint, and
   * leave the game in WAVE_ACTIVE.
   */
  method FirstWaveScenario() returns (enemies: seq<Enemy>, state: GameState)
    ensures |enemies| == 5
    ensures forall i :: 0 <= i < |enemies| ==> enemies[i].kind == Basic && enemies[i].pathIndex == Some(0)
    ensures state == WaveActive
  {
    var game := new Game();
    var waves := new WaveSystem();
    waves.StartNextWave(game);
    assert waves.enemiesToSpawn == 5 && waves.spawnTimer == 1.0;
    waves.Update(game, 1.0);
    waves.Update(game, 1.0);
    waves.Update(game, 1.0);
    waves.Update(game, 1.0);
    assert game.gameState == WaveSpawning && waves.enemiesToSpawn == 1;
    waves.Update(game, 1.0);
    enemies, state := game.enemies, game.gameState;
  }
}
