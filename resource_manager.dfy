/**
 * The ledger of src/managers/ResourceManager.js: resources, base health
 * and score, with a spend that never overdraws and base damage clamped at
 * zero that asks the session for GAME_OVER.
 */
module Resources {

  import opened Constants
  import opened Core

  const START_RESOURCES: int := 100
  const START_HEALTH: int := 100

  datatype Stats = Stats(resources: int, baseHealth: int, score: int)

  /** `Math.max(0, health - amount)`. */
  function ClampedHealth(health: int, amount: int): (r: int)
    ensures r >= 0
    ensures r == 0 <==> health - amount <= 0
    ensures r > 0 ==> r == health - amount
  {
    if health - amount > 0 then health - amount else 0
  }

  class ResourceManager {
    const game: Game
    var resources: int
    var baseHealth: int
    var score: int

    /** The clamp keeps base health from going negative. */
    predicate Valid()
      reads this
    {
      baseHealth >= 0
    }

    constructor(game: Game)
      ensures Valid()
      ensures this.game == game
      ensures resources == START_RESOURCES && baseHealth == START_HEALTH && score == 0
    {
      this.game := game;
      resources := START_RESOURCES;
      baseHealth := START_HEALTH;
      score := 0;
    }

    method AddResources(amount: int)
      modifies this`resources
      ensures resources == old(resources) + amount
    {
      resources := resources + amount;
    }

    /** Whether `amount` can be spent now. */
    function HasEnoughResources(amount: int): bool
      reads this
    {
      resources >= amount
    }

    /**
     * Spend `amount` if the balance covers it; succeeds exactly when
     * `HasEnoughResources(amount)` held, and a failed spend changes nothing.
     */
    method SpendResources(amount: int) returns (ok: bool)
      modifies this`resources
      ensures ok == old(HasEnoughResources(amount))
      ensures ok ==> resources == old(resources) - amount
      ensures !ok ==> resources == old(resources)
      ensures old(resources) >= 0 ==> resources >= 0
    {
      if resources >= amount {
        resources := resources - amount;
        return true;
      }
      return false;
    }

    /** Damage the base, clamped at 0; at 0 the session is told GAME_OVER. */
    method DamageBase(amount: int)
      modifies this`baseHealth, game`gameState, game`alerts
      ensures Valid()
      ensures baseHealth == ClampedHealth(old(baseHealth), amount)
      ensures baseHealth == 0 ==> game.gameState == GameOver
      ensures baseHealth == 0 && old(game.gameState) != GameOver ==> game.alerts == old(game.alerts) + [GameOver]
      ensures baseHealth > 0 ==> game.gameState == old(game.gameState) && game.alerts == old(game.alerts)
      ensures old(game.gameState) == GameOver ==> game.gameState == GameOver && game.alerts == old(game.alerts)
    {
      baseHealth := if baseHealth - amount > 0 then baseHealth - amount else 0;
      if baseHealth <= 0 {
        game.SetGameState(GameOver);
      }
    }

    method AddScore(amount: int)
      modifies this`score
      ensures score == old(score) + amount
    {
      score := score + amount;
    }

    function GetStats(): (s: Stats)
      reads this
      ensures s.resources == resources && s.baseHealth == baseHealth && s.score == score
    {
      Stats(resources, baseHealth, score)
    }

    /** Back to the starting figures, as the constructor leaves them. */
    method Reset()
      modifies this`resources, this`baseHealth, this`score
      ensures Valid()
      ensures GetStats() == Stats(START_RESOURCES, START_HEALTH, 0)
    {
      resources := START_RESOURCES;
      baseHealth := START_HEALTH;
      score := 0;
    }
  }
}
