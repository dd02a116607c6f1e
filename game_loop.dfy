/**
 * One frame of `Game.animate` (src/core/Game.js): unless the game is over
 * or won, run the wave spawner, the enemy stepper, combat and effects in
 * that order, then acknowledge a completed wave, and the victory once the
 * last wave is complete.
 */
module Loop {

  import opened Geometry
  import opened Constants
  import opened Entities
  import opened GameAssets
  import opened Core
  import Waves
  import Enemies
  import Combat
  import Effects
  import opened Seqs

  /** The enemy stepper's turn on a session value. */
  function EnemyFrame(s: Session, path: seq<Vec3>, dt: real, m: Maths): Session
  {
    var r := Enemies.EnemyPass(s.enemies, Enemies.Ledger(s.baseHealth, s.gameState, s.alerts), path, dt, m);
    s.(enemies := r.survivors, baseHealth := r.ledger.baseHealth, gameState := r.ledger.state, alerts := r.ledger.alerts)
  }

  /** Every tower of the list can fire. */
  predicate Ready(ts: seq<Tower>)
  {
    forall i :: 0 <= i < |ts| ==> CanFire(ts[i])
  }

  /**
   * Combat, then effects, on a session value: the towers' turns, the
   * projectile pass over the old projectiles and the new shots, then every
   * effect one frame older and the expired ones gone.
   */
  function CombatFrame(s: Session, dt: real, m: Maths, draws: nat -> DeathDraws): Session
    requires Ready(s.towers) && Combat.DrawsValid(draws)
  {
    var r := Combat.TowersPass(s.towers, s.enemies, dt, m);
    var v := Combat.ProjectilePass(s.projectiles + r.shots, Combat.World(s.enemies, s.resources, s.effects), dt, m, draws);
    s.(towers := r.towers, projectiles := v.survivors, enemies := v.world.enemies, resources := v.world.resources,
       effects := FilterMap(v.world.effects, Effects.Aging))
  }

  /** The four systems of a frame, in the order `animate` runs them. */
  function Systems(c: Waves.Countdown, s: Session, dt: real, m: Maths, draws: nat -> DeathDraws): Waves.WaveFrame
    requires Ready(s.towers) && Combat.DrawsValid(draws)
  {
    var w := Waves.SpawnTick(c, s, EnemyPath(), dt);
    Waves.WaveFrame(w.countdown, CombatFrame(EnemyFrame(w.session, EnemyPath(), dt, m), dt, m, draws))
  }

  /** The completion check on values: WAVE_COMPLETE, then VICTORY once every wave has started. */
  function Completed(f: Waves.WaveFrame): Session
  {
    var c, s := f.countdown, f.session;
    if s.gameState == WaveActive && |s.enemies| == 0 && c.enemiesToSpawn == 0 then
      var done := WithState(s, WaveComplete);
      if c.currentWave >= |WaveConfig()| then WithState(done, Victory) else done
    else s
  }

  /** A whole frame on values: frozen in GAME_OVER and VICTORY, else the systems and the completion check. */
  function Frame(c: Waves.Countdown, s: Session, dt: real, m: Maths, draws: nat -> DeathDraws): Waves.WaveFrame
    requires Ready(s.towers) && Combat.DrawsValid(draws)
  {
    if Terminal(s.gameState) then Waves.WaveFrame(c, s)
    else
      var w := Systems(c, s, dt, m, draws);
      Waves.WaveFrame(w.countdown, Completed(w))
  }

  /**
   * What a frame promises: GAME_OVER and VICTORY freeze it; otherwise it
   * never ends with a complete wave left unacknowledged, and VICTORY comes
   * only with every wave started and no enemy left, announced once.
   */
  lemma FrameOutcome(c: Waves.Countdown, s: Session, dt: real, m: Maths, draws: nat -> DeathDraws)
    requires Ready(s.towers) && Combat.DrawsValid(draws)
    ensures var r := Frame(c, s, dt, m, draws);
      && (Terminal(s.gameState) ==> r == Waves.WaveFrame(c, s))
      && (!Terminal(s.gameState) ==>
            && !(r.session.gameState == WaveActive && |r.session.enemies| == 0 && r.countdown.enemiesToSpawn == 0)
            && (r.session.gameState == Victory ==>
                  && r.countdown.currentWave >= |WaveConfig()| && |r.session.enemies| == 0
                  && r.session.alerts == s.alerts + [Victory]))
  {
    if !Terminal(s.gameState) {
      var w := Waves.SpawnTick(c, s, EnemyPath(), dt);
      assert w.session.gameState != Victory && w.session.alerts == s.alerts;
      var e := w.session;
      Enemies.PassStateOrGameOver(e.enemies, Enemies.Ledger(e.baseHealth, e.gameState, e.alerts), EnemyPath(), dt, m);
      var k := Systems(c, s, dt, m, draws).session;
      assert k.gameState != Victory && (k.gameState == GameOver || k.alerts == s.alerts);
    }
  }

  /** The enemy stepper, which may only enter GAME_OVER and announce it. */
  method EnemyPhase(game: Game, dt: real, m: Maths)
    modifies game`enemies, game`effects, game`baseHealth, game`gameState, game`alerts
    ensures game.Snap() == EnemyFrame(old(game.Snap()), game.path, dt, m)
    ensures old(game.IdsFresh()) ==> game.IdsFresh()
    ensures || (game.gameState == old(game.gameState) && game.alerts == old(game.alerts))
            || (game.gameState == GameOver && game.alerts == old(game.alerts) + [GameOver])
  {
    ghost var before := Enemies.Ledger(game.baseHealth, game.gameState, game.alerts);
    ghost var es := game.enemies;
    Enemies.Update(game, dt, m);
    Enemies.PassStateOrGameOver(es, before, game.path, dt, m);
  }

  /** The four system updates of a frame, in the order `animate` runs them. */
  method RunSystems(game: Game, waves: Waves.WaveSystem, dt: real, m: Maths, draws: nat -> DeathDraws)
    requires waves.Valid() && game.TowersReady() && game.IdsFresh() && Combat.DrawsValid(draws)
    modifies game, waves
    ensures waves.Valid() && game.TowersReady() && game.IdsFresh()
    ensures Waves.WaveFrame(waves.Snap(), game.Snap()) == Systems(old(waves.Snap()), old(game.Snap()), dt, m, draws)
    ensures game.tiles == old(game.tiles) && game.nextEnemyId >= old(game.nextEnemyId)
    ensures !Terminal(old(game.gameState)) ==>
      game.gameState != Victory && (game.gameState == GameOver || game.alerts == old(game.alerts))
  {
    waves.Update(game, dt);
    EnemyPhase(game, dt, m);
    CombatPhase(game, dt, m, draws);
  }

  /** Combat, then effects: neither touches the state, the announcements or the map. */
  method CombatPhase(game: Game, dt: real, m: Maths, draws: nat -> DeathDraws)
    requires game.TowersReady() && Combat.DrawsValid(draws)
    modifies game`towers, game`projectiles, game`enemies, game`resources, game`effects
    ensures game.TowersReady()
    ensures game.Snap() == CombatFrame(old(game.Snap()), dt, m, draws)
    ensures old(game.IdsFresh()) ==> game.IdsFresh()
  {
    Combat.Update(game, dt, m, draws);
    Effects.Update(game, dt);
  }

  /**
   * `animate` minus rendering: `dt` is the clock's delta, `m` the vector
   * maths, `draws` the random draws of each enemy's death effect.  GAME_OVER
   * and VICTORY freeze the simulation; otherwise a frame never ends with a
   * complete wave left unacknowledged, and VICTORY is only declared with
   * every wave started and no enemy left.
   */
  method Animate(game: Game, waves: Waves.WaveSystem, dt: real, m: Maths, draws: nat -> DeathDraws)
    requires waves.Valid() && game.TowersReady() && game.IdsFresh() && Combat.DrawsValid(draws)
    modifies game, waves
    ensures waves.Valid() && game.TowersReady() && game.IdsFresh()
    ensures Terminal(old(game.gameState)) ==> unchanged(game) && unchanged(waves)
    ensures Waves.WaveFrame(waves.Snap(), game.Snap()) == Frame(old(waves.Snap()), old(game.Snap()), dt, m, draws)
    ensures !Terminal(old(game.gameState)) ==>
      && !waves.IsWaveComplete(game)
      && (game.gameState == Victory ==> waves.IsAllWavesComplete() && |game.enemies| == 0)
      && (game.gameState == Victory ==> game.alerts == old(game.alerts) + [Victory])
    ensures game.tiles == old(game.tiles) && game.nextEnemyId >= old(game.nextEnemyId)
  {
    if game.gameState != GameOver && game.gameState != Victory {
      RunSystems(game, waves, dt, m, draws);
      CheckCompletion(game, waves);
    }
  }

  /**
   * The completion check at the end of a frame: a complete wave moves the
   * game to WAVE_COMPLETE, and straight on to VICTORY (with its notice) when
   * every wave has been started; otherwise nothing changes.
   */
  method CheckCompletion(game: Game, waves: Waves.WaveSystem)
    modifies game`gameState, game`alerts
    ensures game.Snap() == Completed(Waves.WaveFrame(waves.Snap(), old(game.Snap())))
    ensures old(waves.IsWaveComplete(game)) ==>
      && game.gameState == (if waves.IsAllWavesComplete() then Victory else WaveComplete)
      && game.alerts == old(game.alerts) + (if waves.IsAllWavesComplete() then [Victory] else [])
    ensures !old(waves.IsWaveComplete(game)) ==>
      game.gameState == old(game.gameState) && game.alerts == old(game.alerts)
  {
    if waves.IsWaveComplete(game) {
      game.SetGameState(WaveComplete);
      if waves.IsAllWavesComplete() {
        game.SetGameState(Victory);
      }
    }
  }
}
