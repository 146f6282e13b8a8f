/** The player ship's accounting: fuel, cargo, the collected-resource
    counters and the four upgrade levels. Motion, sprites, particles and sound
    are the engine's and are not part of this model; the ship's position is
    kept as two plain fields that the physics engine would update. */
module Ships {

  /** The four upgrades the ship can buy. */
  datatype Upgrade = CargoCapacity | FuelEfficiency | EnginePower | SalvageRange

  /** A price in metal and crystal. */
  datatype Price = Price(metal: int, crystal: int)

  /** The fixed upgrade cost table. */
  function Cost(k: Upgrade): (p: Price)
    ensures p.metal > 0 && p.crystal > 0
  {
    match k
    case CargoCapacity => Price(10, 5)
    case FuelEfficiency => Price(5, 10)
    case EnginePower => Price(15, 15)
    case SalvageRange => Price(10, 20)
  }

  /** A collected counter. Adding to a counter the ship does not keep is
      JavaScript's `undefined + n`, which is NaN; NaN absorbs later additions
      and compares false with every number. */
  datatype Tally = Count(n: int) | NotANumber

  /** `counters[t] += amount` on the ship's counter object. */
  function Added(counters: map<string, Tally>, t: string, amount: int): map<string, Tally> {
    counters[t := if t in counters && counters[t].Count? then Count(counters[t].n + amount) else NotANumber]
  }

  /** The counters are keyed "artifacts", but collection is keyed by the
      resource type, which is "artifact": collecting artifacts never moves the
      "artifacts" counter and files them under a NaN counter instead. */
  lemma ArtifactMisfiled(counters: map<string, Tally>, amount: int)
    requires "artifacts" in counters && "artifact" !in counters
    ensures var after := Added(counters, "artifact", amount);
      after["artifacts"] == counters["artifacts"] && after["artifact"] == NotANumber
  {
  }

  function Min(a: real, b: real): real { if a <= b then a else b }
  function Max(a: real, b: real): real { if a >= b then a else b }

  /** Fuel burnt by one frame of thrust at the given efficiency level. */
  function Burn(efficiency: real): (b: real)
    requires efficiency >= 1.0
    ensures 0.0 < b <= 0.1
  {
    0.1 / efficiency
  }

  /** The collection check's bound: the cargo held is within the maximum
      times the cargo level. */
  predicate CargoFits(cargo: int, maxCargo: real, level: real) {
    cargo as real <= maxCargo * level
  }

  /** Raising the cargo level by a quarter, with the maximum following it,
      keeps a cargo that fitted before. */
  lemma CargoFitsRaised(cargo: int, level: real)
    requires level >= 1.0 && CargoFits(cargo, 50.0 * level, level)
    ensures CargoFits(cargo, 50.0 * (level + 0.25), level + 0.25)
  {
    assert 50.0 * level * level <= 50.0 * (level + 0.25) * (level + 0.25);
  }

  class Ship {
    var x: real
    var y: real
    var fuel: real
    var maxFuel: real
    var cargo: int
    var maxCargo: real
    var salvageRange: real
    var resources: map<string, Tally>
    var upgrades: map<Upgrade, real>

    /** The invariant every mutator keeps: fuel in [0, maxFuel], every level at
        least 1, the two derived fields following their levels, the cargo
        within the capacity the collection check enforces, and the metal and
        crystal counters numeric. */
    ghost predicate Valid()
      reads this
    {
      && 0.0 <= fuel <= maxFuel
      && (forall k: Upgrade :: k in upgrades && upgrades[k] >= 1.0)
      && maxCargo == 50.0 * upgrades[CargoCapacity]
      && salvageRange == 100.0 * upgrades[SalvageRange]
      && CargoFits(cargo, maxCargo, upgrades[CargoCapacity])
      && "metal" in resources && resources["metal"].Count?
      && "crystal" in resources && resources["crystal"].Count?
      && "artifacts" in resources
    }

    function Metal(): int
      reads this
      requires Valid()
    {
      resources["metal"].n
    }

    function Crystal(): int
      reads this
      requires Valid()
    {
      resources["crystal"].n
    }

    /** The cargo capacity the collection check compares against: the cargo
        level enters twice, once through maxCargo and once directly. */
    function Capacity(): (c: real)
      reads this
      requires Valid()
      ensures c == 50.0 * upgrades[CargoCapacity] * upgrades[CargoCapacity]
      ensures c >= 50.0
    {
      var level := upgrades[CargoCapacity];
      assert level * level >= 1.0 by { assert (level - 1.0) * (level + 1.0) >= 0.0; }
      maxCargo * level
    }

    constructor (x0: real, y0: real)
      ensures Valid()
      ensures x == x0 && y == y0
      ensures fuel == 100.0 && maxFuel == 100.0 && cargo == 0
      ensures maxCargo == 50.0 && salvageRange == 100.0
      ensures resources == map["metal" := Count(0), "crystal" := Count(0), "artifacts" := Count(0)]
      ensures forall k: Upgrade :: upgrades[k] == 1.0
      ensures UpgradeTotal() == 0.0
    {
      x, y := x0, y0;
      fuel, maxFuel := 100.0, 100.0;
      cargo, maxCargo := 0, 50.0;
      salvageRange := 100.0;
      resources := map["metal" := Count(0), "crystal" := Count(0), "artifacts" := Count(0)];
      upgrades := map[CargoCapacity := 1.0, FuelEfficiency := 1.0, EnginePower := 1.0, SalvageRange := 1.0];
      new;
      forall k: Upgrade
        ensures k in upgrades && upgrades[k] == 1.0
      {
        match k
        case CargoCapacity =>
        case FuelEfficiency =>
        case EnginePower =>
        case SalvageRange =>
      }
    }

    /** Takes `amount` of `t` aboard iff it fits the capacity; otherwise nothing changes. */
    method CollectResource(t: string, amount: int) returns (ok: bool)
      requires Valid()
      modifies this`resources, this`cargo
      ensures Valid()
      ensures ok <==> (old(cargo) + amount) as real <= Capacity()
      ensures ok ==> cargo == old(cargo) + amount && resources == Added(old(resources), t, amount)
      ensures !ok ==> cargo == old(cargo) && resources == old(resources)
    {
      if (cargo + amount) as real <= maxCargo * upgrades[CargoCapacity] {
        resources := Added(resources, t, amount);
        cargo := cargo + amount;
        ok := true;
      } else {
        ok := false;
      }
    }

    /** Adds fuel up to the tank's limit and reports how much was added. */
    method Refuel(amount: real) returns (refueled: real)
      requires Valid()
      modifies this`fuel
      ensures fuel == Min(maxFuel, old(fuel) + amount) && fuel <= maxFuel
      ensures refueled == fuel - old(fuel)
      ensures refueled > 0.0 <==> amount > 0.0 && old(fuel) < maxFuel
      ensures amount >= 0.0 ==> Valid() && 0.0 <= refueled <= amount
    {
      var previous := fuel;
      fuel := Min(maxFuel, fuel + amount);
      refueled := fuel - previous;
    }

    /** Whether the counters cover the price of upgrade `k`: 15 metal and 20
        crystal cover every price, and under 5 of either covers none. */
    predicate CanAffordUpgrade(k: Upgrade): (r: bool)
      reads this
      requires Valid()
      ensures Metal() >= 15 && Crystal() >= 20 ==> r
      ensures Metal() < 5 || Crystal() < 5 ==> !r
    {
      Metal() >= Cost(k).metal && Crystal() >= Cost(k).crystal
    }

    /** Buys upgrade `k` when affordable: pays its price, raises its level by
        a quarter, and refreshes the field the level drives. */
    method PurchaseUpgrade(k: Upgrade) returns (ok: bool)
      requires Valid()
      modifies this`resources, this`upgrades, this`maxCargo, this`salvageRange
      ensures Valid()
      ensures ok == old(CanAffordUpgrade(k))
      ensures ok ==> Metal() == old(Metal()) - Cost(k).metal >= 0 && Crystal() == old(Crystal()) - Cost(k).crystal >= 0
      ensures ok ==> resources == old(resources)["metal" := Count(Metal())]["crystal" := Count(Crystal())]
      ensures ok ==> upgrades == old(upgrades)[k := old(upgrades[k]) + 0.25]
      ensures k != CargoCapacity ==> maxCargo == old(maxCargo)
      ensures k != SalvageRange ==> salvageRange == old(salvageRange)
      ensures !ok ==> resources == old(resources) && upgrades == old(upgrades)
      ensures !ok ==> maxCargo == old(maxCargo) && salvageRange == old(salvageRange)
      ensures UpgradeTotal() == old(UpgradeTotal()) + (if ok then 0.25 else 0.0)
    {
      if CanAffordUpgrade(k) {
        var price := Cost(k);
        resources := resources["metal" := Count(Metal() - price.metal)];
        resources := resources["crystal" := Count(Crystal() - price.crystal)];
        var level := upgrades[k];
        upgrades := upgrades[k := level + 0.25];
        if k == CargoCapacity {
          CargoFitsRaised(cargo, level);
          maxCargo := 50.0 * upgrades[CargoCapacity];
        }
        if k == SalvageRange {
          salvageRange := 100.0 * upgrades[SalvageRange];
        }
        ok := true;
      } else {
        ok := false;
      }
    }

    /** How many levels were bought in all, a quarter per purchase. */
    function UpgradeTotal(): (t: real)
      reads this
      requires forall k: Upgrade :: k in upgrades && upgrades[k] >= 1.0
      ensures t >= 0.0
    {
      (upgrades[CargoCapacity] - 1.0) + (upgrades[FuelEfficiency] - 1.0)
        + (upgrades[EnginePower] - 1.0) + (upgrades[SalvageRange] - 1.0)
    }

    /** The fuel side of a frame: thrusting with fuel left burns 0.1 divided
        by the efficiency level, never below empty. */
    method Update(thrusting: bool)
      requires Valid()
      modifies this`fuel
      ensures Valid()
      ensures fuel == if thrusting && old(fuel) > 0.0 then Max(0.0, old(fuel) - Burn(upgrades[FuelEfficiency])) else old(fuel)
      ensures old(fuel) - 0.1 <= fuel <= old(fuel)
    {
      if thrusting && fuel > 0.0 {
        var consumption := Burn(upgrades[FuelEfficiency]);
        fuel := Max(0.0, fuel - consumption);
      }
    }
  }
}
