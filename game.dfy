/** The game scene's level bookkeeping: the objectives of each level, the
    completion check, the once-only level-complete and game-over screens, the
    fuel lost in collisions and the two end-of-game checks. The screens
    themselves are the engine's; the model keeps only whether the scene was
    paused and, as ghost counters, how often each screen was put up. */
module Game {
  import opened Wrappers
  import opened Ships

  /** A level objective: how many are required and how many were gathered so
      far (for rescue pods, how many were rescued). */
  datatype Goal = Goal(required: nat, collected: nat)

  /** The three mission descriptions; their text is display only. */
  datatype Brief = RepairSystems | RescueSurvivors | Explore

  function BriefText(b: Brief): string {
    match b
    case RepairSystems => "Collect 10 metal and 5 fuel to repair your systems"
    case RescueSurvivors => "Rescue 3 survivor pods and collect resources for repairs"
    case Explore => "Collect resources and explore the sector"
  }

  /** The objectives object: a goal per kind the level asks for. */
  datatype Objectives = Objectives(
    metal: Option<Goal>, crystal: Option<Goal>, fuel: Option<Goal>,
    rescuePods: Option<Goal>, artifact: Option<Goal>, description: Option<Brief>)

  /** The objectives table: level 1, level 2, and free play for every other
      level. */
  function ObjectivesFor(level: int): Objectives {
    match level
    case 1 =>
      Objectives(Some(Goal(10, 0)), None, Some(Goal(5, 0)), None, None, Some(RepairSystems))
    case 2 =>
      Objectives(Some(Goal(15, 0)), Some(Goal(8, 0)), Some(Goal(10, 0)), Some(Goal(3, 0)), None, Some(RescueSurvivors))
    case _ =>
      Objectives(Some(Goal(20, 0)), Some(Goal(15, 0)), None, None, Some(Goal(5, 0)), Some(Explore))
  }

  /** Every goal a level sets starts at zero gathered and requires a
      positive number. */
  predicate Fresh(g: Option<Goal>) {
    g.Some? ==> g.value.collected == 0 && g.value.required > 0
  }

  lemma ObjectivesStartFresh(level: int)
    ensures var o := ObjectivesFor(level);
      Fresh(o.metal) && Fresh(o.crystal) && Fresh(o.fuel) && Fresh(o.rescuePods) && Fresh(o.artifact)
    ensures ObjectivesFor(level).metal.Some?
  {
  }

  /** Only the levels with a table entry of their own differ from free play. */
  lemma FreePlayDefault(level: int)
    requires level != 1 && level != 2
    ensures ObjectivesFor(level) == ObjectivesFor(0)
  {
  }

  /** Whether a goal, if the level sets it, has been reached. */
  predicate Met(g: Option<Goal>) {
    g.None? || g.value.collected >= g.value.required
  }

  /** The completion test: metal, crystal, fuel and rescue pods, each when
      present, have reached their requirement. The artifact goal is not
      consulted. */
  predicate AllComplete(o: Objectives) {
    Met(o.metal) && Met(o.crystal) && Met(o.fuel) && Met(o.rescuePods)
  }

  /** The artifact goal never decides completion. */
  lemma ArtifactIgnored(o: Objectives, g: Option<Goal>)
    ensures AllComplete(o.(artifact := g)) == AllComplete(o)
  {
  }

  /** No level is complete the moment it is set up. */
  lemma NotCompleteAtStart(level: int)
    ensures !AllComplete(ObjectivesFor(level))
  {
    ObjectivesStartFresh(level);
  }

  /** The level a scene start selects: the level passed in when it is
      truthy (a non-zero number), otherwise free play, level 0. */
  function LevelOf(data: Option<int>): (level: int)
    ensures level == (if data.Some? then data.value else 0)
  {
    if data.Some? && data.value != 0 then data.value else 0
  }

  /** Only a start with level 1 or 2 gets that level's objectives; a start
      without a level, with level 0 or with any other level plays free play. */
  lemma LevelObjectives(data: Option<int>)
    ensures ObjectivesFor(LevelOf(data)) ==
      if data == Some(1) || data == Some(2) then ObjectivesFor(data.value) else ObjectivesFor(0)
    ensures data.None? ==> LevelOf(data) == 0
  {
    if data != Some(1) && data != Some(2) {
      FreePlayDefault(LevelOf(data));
    }
  }

  /** Fuel left after a collision at the given impact speed: a hit above 50
      costs a fortieth of the speed, at most 5, and never takes the tank
      below empty; a gentler one costs nothing. */
  function FuelAfterHit(fuel: real, speed: real): (f: real)
    ensures speed <= 50.0 ==> f == fuel
    ensures fuel >= 0.0 ==> 0.0 <= f <= fuel
    ensures f >= fuel - 5.0
  {
    if speed > 50.0 then Max(0.0, fuel - Min(5.0, speed / 40.0)) else fuel
  }

  /** A fast enough hit on a full-enough tank costs exactly a fortieth of
      the speed, capped at 5. */
  lemma HitCost(fuel: real, speed: real)
    requires speed > 50.0 && fuel >= 5.0
    ensures FuelAfterHit(fuel, speed) == fuel - (if speed >= 200.0 then 5.0 else speed / 40.0)
  {
  }

  /** Whether the victory check fires: the "artifacts" counter is a number
      of at least 10 (a missing or NaN counter compares false). */
  predicate Victorious(counters: map<string, Tally>) {
    "artifacts" in counters && counters["artifacts"].Count? && counters["artifacts"].n >= 10
  }

  /** Collecting any resource type leaves the victory check as it was, since
      no type is named "artifacts". */
  lemma CollectionKeepsVictory(counters: map<string, Tally>, t: string, amount: int)
    requires t != "artifacts"
    ensures Victorious(Added(counters, t, amount)) == Victorious(counters)
  {
  }

  class GameScene {
    var isGameOver: bool
    var hasWon: bool
    var showedMissionIntro: bool
    var currentLevel: int
    var objectives: Objectives
    /** Whether the scene has been paused by one of the end screens. */
    var paused: bool
    /** How many times the game-over, level-complete and victory screens
        were put up since the last start. */
    ghost var gameOverScreens: nat
    ghost var levelCompleteScreens: nat
    ghost var victoryScreens: nat

    /** Each guarded screen was put up once if its flag is set, else never. */
    ghost predicate Valid()
      reads this
    {
      && gameOverScreens == (if isGameOver then 1 else 0)
      && levelCompleteScreens == (if hasWon then 1 else 0)
    }

    constructor ()
      ensures Valid() && !isGameOver && !hasWon && !showedMissionIntro && !paused
      ensures currentLevel == 1 && victoryScreens == 0
    {
      isGameOver, hasWon, showedMissionIntro, paused := false, false, false, false;
      currentLevel := 1;
      objectives := Objectives(None, None, None, None, None, None);
      gameOverScreens, levelCompleteScreens, victoryScreens := 0, 0, 0;
    }

    /** Starts (or restarts) the scene: clears the end-of-game flags, picks
        the level and sets its objectives. */
    method Init(data: Option<int>)
      modifies this`isGameOver, this`hasWon, this`showedMissionIntro, this`currentLevel, this`objectives
      modifies this`gameOverScreens, this`levelCompleteScreens, this`victoryScreens
      ensures Valid() && !isGameOver && !hasWon && !showedMissionIntro
      ensures currentLevel == LevelOf(data) && objectives == ObjectivesFor(currentLevel)
      ensures paused == old(paused) && victoryScreens == 0
    {
      isGameOver, hasWon, showedMissionIntro := false, false, false;
      gameOverScreens, levelCompleteScreens, victoryScreens := 0, 0, 0;
      if data.Some? && data.value != 0 {
        currentLevel := data.value;
      } else {
        currentLevel := 0;
      }
      SetupLevelObjectives(currentLevel);
    }

    method SetupLevelObjectives(level: int)
      modifies this`objectives
      ensures objectives == ObjectivesFor(level)
    {
      objectives := ObjectivesFor(level);
    }

    /** Checks the objectives one by one and completes the level when none
        falls short. */
    method CheckLevelObjectives()
      requires Valid()
      modifies this`hasWon, this`paused, this`levelCompleteScreens
      ensures Valid()
      ensures hasWon == (old(hasWon) || AllComplete(objectives))
      ensures levelCompleteScreens == old(levelCompleteScreens) + (if !old(hasWon) && AllComplete(objectives) then 1 else 0)
      ensures paused == (old(paused) || (!old(hasWon) && AllComplete(objectives)))
    {
      var allComplete := true;
      if objectives.metal.Some? && objectives.metal.value.collected < objectives.metal.value.required {
        allComplete := false;
      }
      if objectives.crystal.Some? && objectives.crystal.value.collected < objectives.crystal.value.required {
        allComplete := false;
      }
      if objectives.fuel.Some? && objectives.fuel.value.collected < objectives.fuel.value.required {
        allComplete := false;
      }
      if objectives.rescuePods.Some? && objectives.rescuePods.value.collected < objectives.rescuePods.value.required {
        allComplete := false;
      }
      if allComplete {
        LevelComplete();
      }
    }

    /** Puts up the level-complete screen, once: a second call does nothing. */
    method LevelComplete()
      requires Valid()
      modifies this`hasWon, this`paused, this`levelCompleteScreens
      ensures Valid() && hasWon
      ensures levelCompleteScreens == old(levelCompleteScreens) + (if old(hasWon) then 0 else 1)
      ensures paused == (old(paused) || !old(hasWon))
    {
      if hasWon {
        return;
      }
      hasWon := true;
      paused := true;
      levelCompleteScreens := levelCompleteScreens + 1;
    }

    /** Puts up the game-over screen, once: a second call does nothing. */
    method GameOver()
      requires Valid()
      modifies this`isGameOver, this`paused, this`gameOverScreens
      ensures Valid() && isGameOver
      ensures gameOverScreens == old(gameOverScreens) + (if old(isGameOver) then 0 else 1)
      ensures paused == (old(paused) || !old(isGameOver))
    {
      if isGameOver {
        return;
      }
      isGameOver := true;
      paused := true;
      gameOverScreens := gameOverScreens + 1;
    }

    /** Puts up the victory screen; unlike the other two it has no guard. */
    method Victory()
      modifies this`paused, this`victoryScreens
      ensures paused && victoryScreens == old(victoryScreens) + 1
    {
      paused := true;
      victoryScreens := victoryScreens + 1;
    }

    /** A collision with an obstacle at the given impact speed. */
    method HandleCollision(ship: Ship, speed: real)
      requires ship.Valid()
      modifies ship`fuel
      ensures ship.Valid()
      ensures ship.fuel == FuelAfterHit(old(ship.fuel), speed)
    {
      if speed > 50.0 {
        var fuelLost := Min(5.0, speed / 40.0);
        ship.fuel := Max(0.0, ship.fuel - fuelLost);
      }
    }

    /** The periodic victory check on the ship's "artifacts" counter. */
    method CheckVictoryCondition(ship: Ship)
      modifies this`paused, this`victoryScreens
      ensures victoryScreens == old(victoryScreens) + (if Victorious(ship.resources) then 1 else 0)
      ensures paused == (old(paused) || Victorious(ship.resources))
    {
      if "artifacts" in ship.resources && ship.resources["artifacts"].Count? && ship.resources["artifacts"].n >= 10 {
        Victory();
      }
    }

    /** The end of a frame: out of fuel and drifting slower than 1 is game over. */
    method CheckOutOfFuel(ship: Ship, speed: real)
      requires Valid()
      modifies this`isGameOver, this`paused, this`gameOverScreens
      ensures Valid()
      ensures isGameOver == (old(isGameOver) || (ship.fuel <= 0.0 && speed < 1.0))
      ensures paused == (old(paused) || (!old(isGameOver) && ship.fuel <= 0.0 && speed < 1.0))
      ensures gameOverScreens == old(gameOverScreens) + (if !old(isGameOver) && ship.fuel <= 0.0 && speed < 1.0 then 1 else 0)
      ensures gameOverScreens <= 1
    {
      if ship.fuel <= 0.0 && speed < 1.0 {
        GameOver();
      }
    }
  }
}
