/** A collectible resource: its look chosen by type, the range test against
    the ship, and collection, which hands the resource to the ship's cargo or
    its tank according to the type. */
module Resources {
  import opened Ships

  /** The four resource types with a texture and tint of their own. */
  const Kinds: seq<string> := ["metal", "crystal", "fuel", "artifact"]

  /** The types that go into the cargo hold when collected. */
  const CargoKinds: seq<string> := ["metal", "crystal", "artifact"]

  /** The sprite texture of a type. */
  function TextureFor(kind: string): string {
    match kind
    case "metal" => "metal"
    case "crystal" => "crystal"
    case "fuel" => "fuel"
    case "artifact" => "artifact"
    case _ => "metal"
  }

  /** Each of the four known types has a texture of its own; anything else
      is drawn with metal's. */
  lemma TextureKnown(kind: string)
    ensures TextureFor(kind) in Kinds
    ensures kind in Kinds ==> TextureFor(kind) == kind
    ensures kind !in Kinds ==> TextureFor(kind) == "metal"
  {
  }

  const White: int := 0xffffff

  /** The tint of a type: grey, blue, orange and purple for the four known
      types, white for anything else. */
  function TintFor(kind: string): (c: int)
    ensures 0 <= c <= White
  {
    match kind
    case "metal" => 0xaaaaaa
    case "crystal" => 0x55aaff
    case "fuel" => 0xffaa00
    case "artifact" => 0xaa00ff
    case _ => White
  }

  /** Only a type outside the four known ones is left untinted. */
  lemma TintMarksUnknown(kind: string)
    ensures TintFor(kind) == White <==> kind !in Kinds
  {
  }

  /** Different known types are told apart by their tint. */
  lemma TintsDistinct(a: string, b: string)
    requires a in Kinds && b in Kinds && a != b
    ensures TintFor(a) != TintFor(b)
  {
  }

  /** The range test on squared distances: within `range` of each other. */
  predicate WithinRange(ax: real, ay: real, sx: real, sy: real, range: real) {
    range >= 0.0 && (ax - sx) * (ax - sx) + (ay - sy) * (ay - sy) <= range * range
  }

  /** The squared test agrees with comparing the Euclidean distance `d`
      against the range. */
  lemma RangeIsDistance(ax: real, ay: real, sx: real, sy: real, range: real, d: real)
    requires d >= 0.0 && d * d == (ax - sx) * (ax - sx) + (ay - sy) * (ay - sy)
    ensures WithinRange(ax, ay, sx, sy, range) <==> d <= range
  {
    if range >= 0.0 {
      if d <= range {
        assert range * range - d * d == (range - d) * (range + d);
      } else {
        var gap, sum := d - range, d + range;
        assert gap > 0.0 && sum > 0.0;
        assert gap * sum > 0.0;
        assert d * d - range * range == gap * sum;
      }
    }
  }

  class Resource {
    const x: real
    const y: real
    const kind: string
    const amount: nat
    const texture: string
    const tint: int
    /** The sprite's active and visible flags. */
    var active: bool
    var visible: bool
    var destroyed: bool
    /** The opacity of the collection indicator ring. */
    var indicatorAlpha: real

    constructor (x0: real, y0: real, kind0: string, amount0: nat)
      ensures x == x0 && y == y0 && kind == kind0 && amount == amount0
      ensures texture == TextureFor(kind0) && tint == TintFor(kind0)
      ensures active && visible && !destroyed && indicatorAlpha == 0.0
    {
      x, y, kind, amount := x0, y0, kind0, amount0;
      texture, tint := TextureFor(kind0), TintFor(kind0);
      active, visible, destroyed := true, true, false;
      indicatorAlpha := 0.0;
    }

    /** Whether the ship is within its salvage range; the indicator ring
        shows faintly exactly when it is. */
    method IsInRange(ship: Ship) returns (inRange: bool)
      modifies this`indicatorAlpha
      ensures inRange == WithinRange(x, y, ship.x, ship.y, ship.salvageRange)
      ensures indicatorAlpha == if inRange then 0.2 else 0.0
    {
      inRange := WithinRange(x, y, ship.x, ship.y, ship.salvageRange);
      if inRange {
        indicatorAlpha := 0.2;
      } else {
        indicatorAlpha := 0.0;
      }
    }

    /** Removes the resource from play; the engine's destroy clears the
        sprite's active and visible flags. */
    method Destroy()
      modifies this`destroyed, this`active, this`visible
      ensures destroyed && !active && !visible
    {
      destroyed, active, visible := true, false, false;
    }

    /** Hands the resource to the ship when in range: cargo types go through
        the cargo check, fuel tops up the tank by ten per unit and counts only
        if the tank took some, and any other type is never collected. A
        collected resource is destroyed. */
    method Collect(ship: Ship) returns (collected: bool)
      requires ship.Valid()
      modifies this`indicatorAlpha, this`destroyed, this`active, this`visible
      modifies ship`resources, ship`cargo, ship`fuel
      ensures ship.Valid()
      ensures var near := WithinRange(x, y, ship.x, ship.y, ship.salvageRange);
        && (!near || kind !in Kinds ==>
              !collected && ship.resources == old(ship.resources)
              && ship.cargo == old(ship.cargo) && ship.fuel == old(ship.fuel))
        && (near && kind in CargoKinds ==>
              && ship.fuel == old(ship.fuel)
              && (collected <==> (old(ship.cargo) + amount) as real <= old(ship.Capacity()))
              && (collected ==> ship.cargo == old(ship.cargo) + amount
                                && ship.resources == Added(old(ship.resources), kind, amount))
              && (!collected ==> ship.cargo == old(ship.cargo) && ship.resources == old(ship.resources)))
        && (near && kind == "fuel" ==>
              && ship.fuel == Min(ship.maxFuel, old(ship.fuel) + (10 * amount) as real)
              && (collected <==> amount > 0 && old(ship.fuel) < ship.maxFuel)
              && ship.cargo == old(ship.cargo) && ship.resources == old(ship.resources))
      ensures ship.resources["artifacts"] == old(ship.resources["artifacts"])
      ensures collected ==> destroyed && !active && !visible
      ensures !collected ==> destroyed == old(destroyed) && active == old(active) && visible == old(visible)
    {
      var inRange := IsInRange(ship);
      collected := false;
      if inRange {
        if kind in CargoKinds {
          collected := ship.CollectResource(kind, amount);
        } else if kind == "fuel" {
          var refueled := ship.Refuel((amount * 10) as real);
          collected := refueled > 0.0;
        }
        if collected {
          Destroy();
        }
      }
    }
  }
}
