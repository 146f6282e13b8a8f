/** What a sector contains once generated, as a pure function of the random
    stream: the specification that the sector generator's imperative
    per-type generators are proved against.

    Each generator's loop body is one `Step` over the stream; a loop of k
    iterations is `Repeat(..., k)`. Positions are reals; the anchor of a step
    is the sector origin for the field generators and the station centre for
    the two station rings. */
module Content {
  import opened Rng
  import opened Trig

  /** World units per sector edge. */
  const SectorSize: int := 1000

  /** The four sector types, in the order the type pick lists them. */
  const SectorTypes: seq<string> := ["empty", "asteroid_field", "debris_field", "abandoned_station"]

  const CommonKinds: seq<string> := ["metal", "crystal", "fuel"]
  const AllKinds: seq<string> := ["metal", "crystal", "fuel", "artifact"]

  /** A resource as generated: position, type and amount. */
  datatype ResourceSpec = ResourceSpec(x: real, y: real, kind: string, amount: int)

  /** An obstacle as generated: position, texture, scale and drift rate. */
  datatype ObstacleSpec = ObstacleSpec(x: real, y: real, texture: string, scale: real, rotationSpeed: real)

  /** Content generated so far, and the stream left over. */
  datatype Batch = Batch(resources: seq<ResourceSpec>, obstacles: seq<ObstacleSpec>, rest: Stream)

  /** `b` generated after `a`, from the stream `a` left over. */
  function Then(a: Batch, b: Batch): Batch {
    Batch(a.resources + b.resources, a.obstacles + b.obstacles, b.rest)
  }

  /** The seed sown for a sector before its type pick and its content. */
  function SeedOf(gx: int, gy: int): int {
    gx * 1000 + gy
  }

  /** Sectors of a grid at most 1000 sectors tall get distinct seeds. */
  lemma SeedsDistinct(gx: int, gy: int, hx: int, hy: int)
    requires 0 <= gy < 1000 && 0 <= hy < 1000
    requires (gx, gy) != (hx, hy)
    ensures SeedOf(gx, gy) != SeedOf(hx, hy)
  {
    if gx == hx {
    } else if gx < hx {
      assert gx * 1000 + 1000 <= hx * 1000;
    } else {
      assert hx * 1000 + 1000 <= gx * 1000;
    }
  }

  /** The type of sector (gx, gy): the first draw after sowing its seed. */
  function SectorTypeAt(o: Oracle, gx: int, gy: int): string {
    Pick(Draw(o, Sown(SeedOf(gx, gy))), SectorTypes)
  }

  /** Every sector gets one of the four listed types, whatever the oracle. */
  lemma SectorTypeKnown(o: Oracle, gx: int, gy: int)
    ensures SectorTypeAt(o, gx, gy) in SectorTypes
  {
    PickIn(Draw(o, Sown(SeedOf(gx, gy))), SectorTypes);
  }

  /** Every type occurs: fractions 0, 1/2, 3/4 and 15/16 pick the four types
      in turn. */
  lemma TypesReachable()
    ensures Pick(0, SectorTypes) == "empty"
    ensures Pick(FracResolution / 2, SectorTypes) == "asteroid_field"
    ensures Pick(FracResolution / 4 * 3, SectorTypes) == "debris_field"
    ensures Pick(FracResolution / 16 * 15, SectorTypes) == "abandoned_station"
  {
    assert Frac(0) == 0.0 && SkewedIndex(0.0, 4) == 0;
    assert Frac(FracResolution / 2) == 0.5 && SkewedIndex(0.5, 4) == 1;
    assert Frac(FracResolution / 4 * 3) == 0.75 && SkewedIndex(0.75, 4) == 2;
    assert Frac(FracResolution / 16 * 15) == 0.9375 && SkewedIndex(0.9375, 4) == 3;
  }

  lemma SquareOrder(a: real, b: real)
    requires 0.0 <= a <= b
    ensures a * a <= b * b
  {
    assert b * b - a * a == (b - a) * (b + a);
  }

  /** The type pick and the first call of the type's generator read the same
      fraction, since both follow a sowing of the sector's seed: an empty
      sector draws at most one pickup, an asteroid field 14-17 asteroids, a
      debris field 13-15 pieces, and a station lies 166-200 units right of
      the sector centre. */
  lemma SharedDraw(d: nat)
    ensures Pick(d, SectorTypes) == "empty" ==> Between(d, 0, 3) <= 1
    ensures Pick(d, SectorTypes) == "asteroid_field" ==> 14 <= Between(d, 10, 20) <= 17
    ensures Pick(d, SectorTypes) == "debris_field" ==> 13 <= Between(d, 8, 15) <= 15
    ensures Pick(d, SectorTypes) == "abandoned_station" ==> 166 <= Between(d, -200, 200)
  {
    var f := Frac(d);
    var i := SkewedIndex(f, 4);
    assert Pick(d, SectorTypes) == SectorTypes[i];
    if i == 0 {
      FirstQuarterDraw(f);
    } else if i == 1 {
      SecondQuarterDraw(f);
    } else if i == 2 {
      ThirdQuarterDraw(f);
    } else {
      LastQuarterDraw(f);
    }
  }

  /** A fraction picking the first of four options is below 0.41. */
  lemma FirstQuarterDraw(f: real)
    requires 0.0 <= f < 1.0 && SkewedIndex(f, 4) == 0
    ensures (f * 4.0).Floor <= 1
  {
    if f >= 0.41 { SquareOrder(0.41, f); }
  }

  /** A fraction picking the second of four options lies in [0.4, 0.71). */
  lemma SecondQuarterDraw(f: real)
    requires 0.0 <= f < 1.0 && SkewedIndex(f, 4) == 1
    ensures 4 <= (f * 11.0).Floor <= 7
  {
    if f < 0.4 { SquareOrder(f, 0.4); }
    if f >= 0.71 { SquareOrder(0.71, f); }
  }

  /** A fraction picking the third of four options lies in (0.7, 0.92). */
  lemma ThirdQuarterDraw(f: real)
    requires 0.0 <= f < 1.0 && SkewedIndex(f, 4) == 2
    ensures 5 <= (f * 8.0).Floor <= 7
  {
    if f <= 0.7 { SquareOrder(f, 0.7); }
    if f >= 0.92 { SquareOrder(0.92, f); }
  }

  /** A fraction picking the last of four options is above 0.9128. */
  lemma LastQuarterDraw(f: real)
    requires 0.0 <= f < 1.0 && SkewedIndex(f, 4) == 3
    ensures 366 <= (f * 401.0).Floor
  {
    if f <= 0.9128 { SquareOrder(f, 0.9128); }
  }


  // ---------------------------------------------------------------------------
  // One iteration of each generator loop

  /** Kinds of pieces the generators place, one per loop body. */
  datatype Piece = EmptyPickup | Asteroid | Debris | RingPickup | RingDebris

  /** A resource of an empty sector: position, type (metal/crystal/fuel), amount 1-2. */
  function EmptyPickupStep(o: Oracle, s: Stream, ox: real, oy: real): Batch {
    var x := ox + Between(Draw(o, s), 100, SectorSize - 100) as real;
    var s1 := s.Next();
    var y := oy + Between(Draw(o, s1), 100, SectorSize - 100) as real;
    var s2 := s1.Next();
    var kind := Pick(Draw(o, s2), CommonKinds);
    var s3 := s2.Next();
    var amount := Between(Draw(o, s3), 1, 2);
    Batch([ResourceSpec(x, y, kind, amount)], [], s3.Next())
  }

  /** The three asteroid sizes, in the order the size pick lists them. */
  datatype Size = Small | Medium | Large

  /** The texture, scale range and resource chance of each size. */
  function AsteroidKey(size: Size): string {
    match size
    case Small => "asteroid-small"
    case Medium => "asteroid-medium"
    case Large => "asteroid-large"
  }

  function ScaleRange(size: Size): (r: (real, real))
    ensures r.0 <= r.1
  {
    match size
    case Small => (0.6, 0.9)
    case Medium => (0.8, 1.2)
    case Large => (1.0, 1.5)
  }

  function ResourceChance(size: Size): real {
    match size
    case Small => 0.3
    case Medium => 0.6
    case Large => 0.9
  }

  /** An asteroid of a picked size, its scale in the size's range and its
      drift rate in [-0.2, 0.2]; with the size and the stream left over. */
  function AsteroidPiece(o: Oracle, s: Stream, ox: real, oy: real): (ObstacleSpec, Size, Stream) {
    var x := ox + Between(Draw(o, s), 100, SectorSize - 100) as real;
    var s1 := s.Next();
    var y := oy + Between(Draw(o, s1), 100, SectorSize - 100) as real;
    var s2 := s1.Next();
    var size := Pick(Draw(o, s2), [Small, Medium, Large]);
    var s3 := s2.Next();
    var scale := RealInRange(Draw(o, s3), ScaleRange(size).0, ScaleRange(size).1);
    var s4 := s3.Next();
    var spin := RealInRange(Draw(o, s4), -0.2, 0.2);
    (ObstacleSpec(x, y, AsteroidKey(size), scale, spin), size, s4.Next())
  }

  /** An asteroid, and with a size-dependent chance one resource within 50
      units of it. */
  function AsteroidStep(o: Oracle, s: Stream, ox: real, oy: real): Batch {
    var (asteroid, size, rest) := AsteroidPiece(o, s, ox, oy);
    Then(Batch([], [asteroid], rest), NearbyPickup(o, rest, ResourceChance(size), asteroid.x, asteroid.y, 50, CommonKinds, 1, 3))
  }

  /** The chance roll after an asteroid or a debris piece at (x, y) and, when
      the roll is under `chance`, one resource within `reach` units of it. */
  function NearbyPickup(o: Oracle, s: Stream, chance: real, x: real, y: real, reach: nat,
                        kinds: seq<string>, lo: int, hi: int): Batch
    requires |kinds| > 0 && lo <= hi
  {
    var s1 := s.Next();
    if Frac(Draw(o, s)) < chance then
      var rx := x + Between(Draw(o, s1), -(reach as int), reach) as real;
      var s2 := s1.Next();
      var ry := y + Between(Draw(o, s2), -(reach as int), reach) as real;
      var s3 := s2.Next();
      var kind := Pick(Draw(o, s3), kinds);
      var s4 := s3.Next();
      var amount := Between(Draw(o, s4), lo, hi);
      Batch([ResourceSpec(rx, ry, kind, amount)], [], s4.Next())
    else
      Batch([], [], s1)
  }

  /** The texture of debris variant 1 or 2. */
  function DebrisTexture(variant: int): string {
    if variant == 1 then "debris-1" else "debris-2"
  }

  /** A debris piece of a field, with the stream left over. The facing
      angle drawn for it consumes a draw; it is not part of the
      specification record. */
  function DebrisPiece(o: Oracle, s: Stream, ox: real, oy: real): (ObstacleSpec, Stream) {
    var x := ox + Between(Draw(o, s), 100, SectorSize - 100) as real;
    var s1 := s.Next();
    var y := oy + Between(Draw(o, s1), 100, SectorSize - 100) as real;
    var s2 := s1.Next();
    var variant := Pick(Draw(o, s2), [1, 2]);
    var s3 := s2.Next();
    var scale := RealInRange(Draw(o, s3), 0.7, 1.2);
    var s4 := s3.Next();   // facing angle: between(0, 360)
    var s5 := s4.Next();
    var spin := RealInRange(Draw(o, s5), -0.3, 0.3);
    (ObstacleSpec(x, y, DebrisTexture(variant), scale, spin), s5.Next())
  }

  /** A debris piece, and with chance 0.7 one resource within 30 units of it. */
  function DebrisStep(o: Oracle, s: Stream, ox: real, oy: real): Batch {
    var (debris, rest) := DebrisPiece(o, s, ox, oy);
    Then(Batch([], [debris], rest), NearbyPickup(o, rest, 0.7, debris.x, debris.y, 30, AllKinds, 2, 4))
  }

  /** A resource on the ring of radius 100-200 around a station at (cx, cy). */
  function RingPickupStep(o: Oracle, trig: Circle, s: Stream, cx: real, cy: real): Batch {
    var turn := Frac(Draw(o, s));
    var s1 := s.Next();
    var distance := Between(Draw(o, s1), 100, 200) as real;
    var s2 := s1.Next();
    var kind := Pick(Draw(o, s2), AllKinds);
    var s3 := s2.Next();
    var amount := Between(Draw(o, s3), 3, 5);
    var x := cx + OffsetX(trig, turn, distance);
    var y := cy + OffsetY(trig, turn, distance);
    Batch([ResourceSpec(x, y, kind, amount)], [], s3.Next())
  }

  /** A debris piece on the ring of radius 220-350 around a station at (cx, cy). */
  function RingDebrisStep(o: Oracle, trig: Circle, s: Stream, cx: real, cy: real): Batch {
    var turn := Frac(Draw(o, s));
    var s1 := s.Next();
    var distance := Between(Draw(o, s1), 220, 350) as real;
    var s2 := s1.Next();
    var variant := Pick(Draw(o, s2), [1, 2]);
    var s3 := s2.Next();
    var scale := RealInRange(Draw(o, s3), 0.6, 1.0);
    var s4 := s3.Next();   // facing angle: between(0, 360)
    var s5 := s4.Next();
    var spin := RealInRange(Draw(o, s5), -0.2, 0.2);
    var x := cx + OffsetX(trig, turn, distance);
    var y := cy + OffsetY(trig, turn, distance);
    Batch([], [ObstacleSpec(x, y, DebrisTexture(variant), scale, spin)], s5.Next())
  }

  function Step(o: Oracle, trig: Circle, p: Piece, s: Stream, ax: real, ay: real): Batch {
    match p
    case EmptyPickup => EmptyPickupStep(o, s, ax, ay)
    case Asteroid => AsteroidStep(o, s, ax, ay)
    case Debris => DebrisStep(o, s, ax, ay)
    case RingPickup => RingPickupStep(o, trig, s, ax, ay)
    case RingDebris => RingDebrisStep(o, trig, s, ax, ay)
  }

  /** The first k iterations of a generator loop. */
  function Repeat(o: Oracle, trig: Circle, p: Piece, s: Stream, ax: real, ay: real, k: nat): Batch
    decreases k, 0
  {
    if k == 0 then Batch([], [], s)
    else Extend(o, trig, p, s, ax, ay, k - 1)
  }

  /** Iteration k + 1 after the first k. */
  function Extend(o: Oracle, trig: Circle, p: Piece, s: Stream, ax: real, ay: real, k: nat): Batch
    decreases k, 1
  {
    var b := Repeat(o, trig, p, s, ax, ay, k);
    Then(b, Step(o, trig, p, b.rest, ax, ay))
  }

  // ---------------------------------------------------------------------------
  // Whole sectors

  /** Every generator loop: a count drawn from [lo, hi], then that many
      steps placing `p` around (ax, ay). */
  function Scatter(o: Oracle, trig: Circle, p: Piece, s: Stream, ax: real, ay: real, lo: int, hi: int): Batch
    requires 0 <= lo <= hi
  {
    Repeat(o, trig, p, s.Next(), ax, ay, Between(Draw(o, s), lo, hi))
  }

  /** An empty sector: 0-3 resources. */
  function EmptySector(o: Oracle, trig: Circle, s: Stream, ox: real, oy: real): Batch {
    Scatter(o, trig, EmptyPickup, s, ox, oy, 0, 3)
  }

  /** An asteroid field: 10-20 asteroids. */
  function AsteroidField(o: Oracle, trig: Circle, s: Stream, ox: real, oy: real): Batch {
    Scatter(o, trig, Asteroid, s, ox, oy, 10, 20)
  }

  /** A debris field: 8-15 debris pieces. */
  function DebrisField(o: Oracle, trig: Circle, s: Stream, ox: real, oy: real): Batch {
    Scatter(o, trig, Debris, s, ox, oy, 8, 15)
  }

  /** An abandoned station within 200 units of the sector centre, 8-12
      resources on a ring around it, then 5-8 debris pieces on a wider ring. */
  function AbandonedStation(o: Oracle, trig: Circle, s: Stream, ox: real, oy: real): Batch {
    var cx := ox + (SectorSize / 2) as real + Between(Draw(o, s), -200, 200) as real;
    var s1 := s.Next();
    var cy := oy + (SectorSize / 2) as real + Between(Draw(o, s1), -200, 200) as real;
    var s2 := s1.Next();
    var spin := RealInRange(Draw(o, s2), -0.05, 0.05);
    StationRings(o, trig, s2.Next(), cx, cy, spin)
  }

  /** The station at (cx, cy) followed by its two rings, drawn from `s`. */
  function StationRings(o: Oracle, trig: Circle, s: Stream, cx: real, cy: real, spin: real): Batch {
    var ring := Scatter(o, trig, RingPickup, s, cx, cy, 8, 12);
    var debris := Scatter(o, trig, RingDebris, ring.rest, cx, cy, 5, 8);
    Batch(ring.resources, [ObstacleSpec(cx, cy, "station", 1.5, spin)] + debris.obstacles, debris.rest)
  }

  /** Content of a sector of type `t` generated from stream `s`; a type
      outside the four names generates nothing. */
  function ContentOf(o: Oracle, trig: Circle, t: string, s: Stream, ox: real, oy: real): Batch {
    if t == "empty" then EmptySector(o, trig, s, ox, oy)
    else if t == "asteroid_field" then AsteroidField(o, trig, s, ox, oy)
    else if t == "debris_field" then DebrisField(o, trig, s, ox, oy)
    else if t == "abandoned_station" then AbandonedStation(o, trig, s, ox, oy)
    else Batch([], [], s)
  }

  /** The content of sector (gx, gy): a function of its coordinates alone. */
  function SectorContent(o: Oracle, trig: Circle, gx: int, gy: int): Batch {
    ContentOf(o, trig, SectorTypeAt(o, gx, gy), Sown(SeedOf(gx, gy)),
              (gx * SectorSize) as real, (gy * SectorSize) as real)
  }

  // ---------------------------------------------------------------------------
  // Bounds of one step and of a loop

  /** The half-open sector box [ox, ox+1000) x [oy, oy+1000). */
  predicate InsideSector(x: real, y: real, ox: real, oy: real) {
    ox <= x < ox + SectorSize as real && oy <= y < oy + SectorSize as real
  }

  /** Whether each step of a piece places exactly one obstacle (otherwise none). */
  predicate PlacesObstacle(p: Piece) {
    p != EmptyPickup && p != RingPickup
  }

  /** Whether each step of a piece places exactly one resource. */
  predicate AlwaysPlacesResource(p: Piece) {
    p == EmptyPickup || p == RingPickup
  }

  /** Whether a step of a piece can place a resource at all. */
  predicate MayPlaceResource(p: Piece) {
    p != RingDebris
  }

  /** Where a piece's resources land, relative to the anchor, in each axis. */
  function ResourceReach(p: Piece): (real, real) {
    match p
    case EmptyPickup => (100.0, 900.0)
    case Asteroid => (50.0, 950.0)
    case Debris => (70.0, 930.0)
    case RingPickup => (-200.0, 200.0)
    case RingDebris => (0.0, 0.0)
  }

  /** Where a piece's obstacles land, relative to the anchor, in each axis. */
  function ObstacleReach(p: Piece): (real, real) {
    match p
    case EmptyPickup => (0.0, 0.0)
    case Asteroid => (100.0, 900.0)
    case Debris => (100.0, 900.0)
    case RingPickup => (0.0, 0.0)
    case RingDebris => (-350.0, 350.0)
  }

  /** The amounts a piece's resources carry. */
  function AmountRange(p: Piece): (int, int) {
    match p
    case EmptyPickup => (1, 2)
    case Asteroid => (1, 3)
    case Debris => (2, 4)
    case RingPickup => (3, 5)
    case RingDebris => (0, 0)
  }

  /** The types a piece's resources may have. */
  function KindsOf(p: Piece): seq<string> {
    if p == EmptyPickup || p == Asteroid then CommonKinds else AllKinds
  }

  predicate ResourceFits(p: Piece, r: ResourceSpec, ax: real, ay: real) {
    && ax + ResourceReach(p).0 <= r.x <= ax + ResourceReach(p).1
    && ay + ResourceReach(p).0 <= r.y <= ay + ResourceReach(p).1
    && AmountRange(p).0 <= r.amount <= AmountRange(p).1
    && r.kind in KindsOf(p)
  }

  predicate ObstacleFits(p: Piece, b: ObstacleSpec, ax: real, ay: real) {
    && ax + ObstacleReach(p).0 <= b.x <= ax + ObstacleReach(p).1
    && ay + ObstacleReach(p).0 <= b.y <= ay + ObstacleReach(p).1
  }

  /** Everything a batch holds fits the piece's bounds. */
  predicate AllFit(p: Piece, b: Batch, ax: real, ay: real) {
    && (forall i :: 0 <= i < |b.resources| ==> ResourceFits(p, b.resources[i], ax, ay))
    && (forall i :: 0 <= i < |b.obstacles| ==> ObstacleFits(p, b.obstacles[i], ax, ay))
  }

  /** What k iterations of a piece's loop started on stream `s` promise:
      k obstacles (or none), at most k resources (exactly k for the pieces
      that always place one), all within the piece's bounds, and at least k
      draws taken from the same seed. */
  predicate Shaped(p: Piece, b: Batch, s: Stream, ax: real, ay: real, k: nat) {
    && |b.obstacles| == (if PlacesObstacle(p) then k else 0)
    && |b.resources| <= (if MayPlaceResource(p) then k else 0)
    && (AlwaysPlacesResource(p) ==> |b.resources| == k)
    && AllFit(p, b, ax, ay)
    && b.rest.seed == s.seed && b.rest.cursor >= s.cursor + k
  }

  /** One step keeps its piece's promise. */
  lemma StepFits(o: Oracle, trig: Circle, p: Piece, s: Stream, ax: real, ay: real)
    ensures Shaped(p, Step(o, trig, p, s, ax, ay), s, ax, ay, 1)
  {
    forall d: nat
      ensures Pick(d, CommonKinds) in CommonKinds && Pick(d, AllKinds) in AllKinds
    {
      PickIn(d, CommonKinds);
      PickIn(d, AllKinds);
    }
    match p
    case EmptyPickup =>
    case Asteroid =>
    case Debris =>
    case RingPickup =>
    case RingDebris =>
  }

  /** A loop of k steps keeps its piece's promise for k iterations. */
  lemma {:induction false} RepeatFits(o: Oracle, trig: Circle, p: Piece, s: Stream, ax: real, ay: real, k: nat)
    ensures Shaped(p, Repeat(o, trig, p, s, ax, ay, k), s, ax, ay, k)
  {
    if k > 0 {
      var b := Repeat(o, trig, p, s, ax, ay, k - 1);
      var st := Step(o, trig, p, b.rest, ax, ay);
      RepeatFits(o, trig, p, s, ax, ay, k - 1);
      StepFits(o, trig, p, b.rest, ax, ay);
      ShapedThen(p, b, st, s, ax, ay, k - 1);
      assert Repeat(o, trig, p, s, ax, ay, k) == Then(b, st);
    }
  }

  /** k iterations followed by one more make k + 1. */
  lemma ShapedThen(p: Piece, b: Batch, st: Batch, s: Stream, ax: real, ay: real, k: nat)
    requires Shaped(p, b, s, ax, ay, k) && Shaped(p, st, b.rest, ax, ay, 1)
    ensures Shaped(p, Then(b, st), s, ax, ay, k + 1)
  {
    ThenFits(p, b, st, ax, ay);
  }

  /** Two batches that fit a piece's bounds still fit them joined. */
  lemma ThenFits(p: Piece, b: Batch, st: Batch, ax: real, ay: real)
    requires AllFit(p, b, ax, ay) && AllFit(p, st, ax, ay)
    ensures AllFit(p, Then(b, st), ax, ay)
  {
    var c := Then(b, st);
    forall i | 0 <= i < |c.resources|
      ensures ResourceFits(p, c.resources[i], ax, ay)
    {
      if i < |b.resources| {
        assert c.resources[i] == b.resources[i];
      } else {
        assert c.resources[i] == st.resources[i - |b.resources|];
      }
    }
    forall i | 0 <= i < |c.obstacles|
      ensures ObstacleFits(p, c.obstacles[i], ax, ay)
    {
      if i < |b.obstacles| {
        assert c.obstacles[i] == b.obstacles[i];
      } else {
        assert c.obstacles[i] == st.obstacles[i - |b.obstacles|];
      }
    }
  }

  /** A generator loop places between lo and hi obstacles (or none), never
      more resources than steps, all within the piece's bounds. */
  lemma ScatterFits(o: Oracle, trig: Circle, p: Piece, s: Stream, ax: real, ay: real, lo: int, hi: int)
    requires 0 <= lo <= hi
    ensures var b := Scatter(o, trig, p, s, ax, ay, lo, hi);
      && (if PlacesObstacle(p) then lo <= |b.obstacles| <= hi else b.obstacles == [])
      && (PlacesObstacle(p) ==> |b.resources| <= |b.obstacles|)
      && (if MayPlaceResource(p) then |b.resources| <= hi else b.resources == [])
      && (AlwaysPlacesResource(p) ==> lo <= |b.resources|)
      && AllFit(p, b, ax, ay)
      && b.rest.seed == s.seed && b.rest.cursor > s.cursor
  {
    RepeatFits(o, trig, p, s.Next(), ax, ay, Between(Draw(o, s), lo, hi));
  }

  /** A loop of resource-only pieces places no obstacle, and one of
      obstacle-only pieces no resource. */
  lemma ScatterBare(o: Oracle, trig: Circle, p: Piece, s: Stream, ax: real, ay: real, lo: int, hi: int)
    requires 0 <= lo <= hi
    ensures var b := Scatter(o, trig, p, s, ax, ay, lo, hi);
      && (!PlacesObstacle(p) ==> b.obstacles == [])
      && (!MayPlaceResource(p) ==> b.resources == [])
  {
    ScatterFits(o, trig, p, s, ax, ay, lo, hi);
  }

  // ---------------------------------------------------------------------------
  // Bounds of whole sectors

  /** Every resource amount of `b` lies in [lo, hi]. */
  predicate AmountsWithin(b: Batch, lo: int, hi: int) {
    forall i :: 0 <= i < |b.resources| ==> lo <= b.resources[i].amount <= hi
  }

  /** Every resource of `b` lies in the sector with origin (ox, oy). */
  predicate ResourcesInside(b: Batch, ox: real, oy: real) {
    forall i :: 0 <= i < |b.resources| ==> InsideSector(b.resources[i].x, b.resources[i].y, ox, oy)
  }

  /** Every obstacle of `b` lies in the sector with origin (ox, oy). */
  predicate ObstaclesInside(b: Batch, ox: real, oy: real) {
    forall i :: 0 <= i < |b.obstacles| ==> InsideSector(b.obstacles[i].x, b.obstacles[i].y, ox, oy)
  }

  /** The counts, amounts and placement each sector type promises. */
  predicate ShapedAs(t: string, b: Batch, ox: real, oy: real) {
    && (t == "empty" ==>
          |b.obstacles| == 0 && |b.resources| <= 3 && AmountsWithin(b, 1, 2))
    && (t == "asteroid_field" ==>
          10 <= |b.obstacles| <= 20 && |b.resources| <= |b.obstacles| && AmountsWithin(b, 1, 3))
    && (t == "debris_field" ==>
          8 <= |b.obstacles| <= 15 && |b.resources| <= |b.obstacles| && AmountsWithin(b, 2, 4))
    && (t == "abandoned_station" ==>
          6 <= |b.obstacles| <= 9 && b.obstacles[0].texture == "station"
          && InsideSector(b.obstacles[0].x, b.obstacles[0].y, ox, oy)
          && 8 <= |b.resources| <= 12 && AmountsWithin(b, 3, 5))
    && (t !in SectorTypes ==> b.resources == [] && b.obstacles == [])
    && ResourcesInside(b, ox, oy)
    && (t != "abandoned_station" ==> ObstaclesInside(b, ox, oy))
  }

  /** Field generators: everything lands at least 50 units inside the sector. */
  lemma {:induction false} FieldInside(o: Oracle, trig: Circle, p: Piece, s: Stream, ox: real, oy: real, k: nat)
    requires p == EmptyPickup || p == Asteroid || p == Debris
    ensures var b := Repeat(o, trig, p, s, ox, oy, k);
      ResourcesInside(b, ox, oy) && ObstaclesInside(b, ox, oy)
  {
    RepeatFits(o, trig, p, s, ox, oy, k);
  }

  /** The station centre lies within 200 units of the sector centre. */
  lemma StationCentre(o: Oracle, trig: Circle, s: Stream, ox: real, oy: real)
    ensures var b := AbandonedStation(o, trig, s, ox, oy);
      && |b.obstacles| > 0
      && ox + 300.0 <= b.obstacles[0].x <= ox + 700.0
      && oy + 300.0 <= b.obstacles[0].y <= oy + 700.0
  {
  }

  /** Each sector type generates what its generator promises. */
  lemma ContentShape(o: Oracle, trig: Circle, t: string, s: Stream, ox: real, oy: real)
    ensures ShapedAs(t, ContentOf(o, trig, t, s, ox, oy), ox, oy)
  {
    if t == "empty" {
      ScatterFits(o, trig, EmptyPickup, s, ox, oy, 0, 3);
      FieldInside(o, trig, EmptyPickup, s.Next(), ox, oy, Between(Draw(o, s), 0, 3));
    } else if t == "asteroid_field" {
      ScatterFits(o, trig, Asteroid, s, ox, oy, 10, 20);
      FieldInside(o, trig, Asteroid, s.Next(), ox, oy, Between(Draw(o, s), 10, 20));
    } else if t == "debris_field" {
      ScatterFits(o, trig, Debris, s, ox, oy, 8, 15);
      FieldInside(o, trig, Debris, s.Next(), ox, oy, Between(Draw(o, s), 8, 15));
    } else if t == "abandoned_station" {
      StationShape(o, trig, s, ox, oy);
    }
  }

  /** A station whose centre lies at least 300 units inside the sector keeps
      its ring of resources inside it. */
  lemma RingsFacts(o: Oracle, trig: Circle, s: Stream, cx: real, cy: real, spin: real, ox: real, oy: real)
    requires ox + 300.0 <= cx <= ox + 700.0 && oy + 300.0 <= cy <= oy + 700.0
    ensures var b := StationRings(o, trig, s, cx, cy, spin);
      && 6 <= |b.obstacles| <= 9 && b.obstacles[0] == ObstacleSpec(cx, cy, "station", 1.5, spin)
      && 8 <= |b.resources| <= 12 && AmountsWithin(b, 3, 5)
      && ResourcesInside(b, ox, oy)
  {
    var ring := Scatter(o, trig, RingPickup, s, cx, cy, 8, 12);
    ScatterFits(o, trig, RingPickup, s, cx, cy, 8, 12);
    ScatterFits(o, trig, RingDebris, ring.rest, cx, cy, 5, 8);
    forall i | 0 <= i < |ring.resources|
      ensures InsideSector(ring.resources[i].x, ring.resources[i].y, ox, oy)
    {
      assert ResourceFits(RingPickup, ring.resources[i], cx, cy);
    }
  }

  /** The station sector's counts, amounts and placement. */
  lemma StationFacts(o: Oracle, trig: Circle, s: Stream, ox: real, oy: real)
    ensures var b := AbandonedStation(o, trig, s, ox, oy);
      && 6 <= |b.obstacles| <= 9 && b.obstacles[0].texture == "station"
      && InsideSector(b.obstacles[0].x, b.obstacles[0].y, ox, oy)
      && 8 <= |b.resources| <= 12 && AmountsWithin(b, 3, 5)
      && ResourcesInside(b, ox, oy)
  {
    var cx := ox + (SectorSize / 2) as real + Between(Draw(o, s), -200, 200) as real;
    var s1 := s.Next();
    var cy := oy + (SectorSize / 2) as real + Between(Draw(o, s1), -200, 200) as real;
    var s2 := s1.Next();
    var spin := RealInRange(Draw(o, s2), -0.05, 0.05);
    RingsFacts(o, trig, s2.Next(), cx, cy, spin, ox, oy);
  }

  lemma StationShape(o: Oracle, trig: Circle, s: Stream, ox: real, oy: real)
    ensures ShapedAs("abandoned_station", AbandonedStation(o, trig, s, ox, oy), ox, oy)
  {
    StationFacts(o, trig, s, ox, oy);
  }

  /** What the shared draw means for the content a sector actually gets:
      an empty sector holds at most one resource, an asteroid field 14-17
      asteroids, a debris field 13-15 pieces, and a station stands 666-700
      units into its sector horizontally. */
  lemma SectorCounts(o: Oracle, trig: Circle, gx: int, gy: int)
    ensures var t, b := SectorTypeAt(o, gx, gy), SectorContent(o, trig, gx, gy);
      && (t == "empty" ==> |b.resources| <= 1)
      && (t == "asteroid_field" ==> 14 <= |b.obstacles| <= 17)
      && (t == "debris_field" ==> 13 <= |b.obstacles| <= 15)
      && (t == "abandoned_station" ==>
            |b.obstacles| > 0 && (gx * SectorSize + 666) as real <= b.obstacles[0].x <= (gx * SectorSize + 700) as real)
  {
    var s := Sown(SeedOf(gx, gy));
    var d := Draw(o, s);
    var ox, oy := (gx * SectorSize) as real, (gy * SectorSize) as real;
    var t := SectorTypeAt(o, gx, gy);
    SharedDraw(d);
    if t == "empty" {
      RepeatFits(o, trig, EmptyPickup, s.Next(), ox, oy, Between(d, 0, 3));
    } else if t == "asteroid_field" {
      RepeatFits(o, trig, Asteroid, s.Next(), ox, oy, Between(d, 10, 20));
    } else if t == "debris_field" {
      RepeatFits(o, trig, Debris, s.Next(), ox, oy, Between(d, 8, 15));
    }
  }

  /** A debris piece of a station ring can land outside the sector that
      generated it. The top fraction, drawn first after sowing, both picks a
      station and puts it 200 units right of the sector centre; a piece at
      the full 350 units straight to the right of it lands 50 units past the
      sector's edge. */
  lemma RingDebrisCanLeaveSector(o: Oracle, trig: Circle, s: Stream, ox: real, oy: real)
    requires Draw(o, s.Next()) == FracResolution - 1
    requires trig(Frac(Draw(o, s))).0 == 1.0 as Unit
    ensures Pick(FracResolution - 1, SectorTypes) == "abandoned_station"
    ensures Between(FracResolution - 1, -200, 200) == 200
    ensures var b := RingDebrisStep(o, trig, s, ox + (SectorSize / 2 + 200) as real, oy + (SectorSize / 2) as real);
      b.obstacles[0].x == ox + 1050.0 && !InsideSector(b.obstacles[0].x, b.obstacles[0].y, ox, oy)
  {
    var top := Frac(FracResolution - 1);
    assert top == (FracResolution - 1) as real / FracResolution as real;
    assert SkewedIndex(top, 4) == 3;
    assert (top * 401.0).Floor == 400;
    assert (top * 131.0).Floor == 130;
  }
}
