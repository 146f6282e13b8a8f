/** The sector generator: an N x N grid of 1000-unit sectors whose content is
    generated lazily, at most once per sector, the first time the sector comes
    within two sectors of the player, and then shown or hidden as the player
    moves. The generator keeps the sector records, every resource and
    obstacle it has created, and the random stream it draws from. */
module Sectors {
  import opened Rng
  import opened Trig
  import opened Content
  import opened Layout
  import opened Wrappers
  import opened Resources

  /** The engine keeps an image's angle in degrees within [-180, 180):
      setting it stores the value wrapped into that range. */
  function WrapDegrees(a: real): (w: real)
    ensures -180.0 <= w < 180.0
  {
    var turns := ((a + 180.0) / 360.0).Floor;
    a - 360.0 * turns as real
  }

  /** Angles already in range are stored as given. */
  lemma WrapInRange(a: real)
    requires -180.0 <= a < 180.0
    ensures WrapDegrees(a) == a
  {
    assert 0.0 <= (a + 180.0) / 360.0 < 1.0;
  }

  /** Adding a whole turn does not change the stored angle. */
  lemma WrapTurn(a: real)
    ensures WrapDegrees(a + 360.0) == WrapDegrees(a)
  {
    var q := (a + 180.0) / 360.0;
    assert (a + 360.0 + 180.0) / 360.0 == q + 1.0;
    assert (q + 1.0).Floor == q.Floor + 1;
  }

  /** An obstacle image: position, texture, scale and drift rate are fixed at
      creation; the facing angle and the active/visible flags change. */
  class Obstacle {
    const x: real
    const y: real
    const texture: string
    const scale: real
    const rotationSpeed: real
    var angle: real
    var active: bool
    var visible: bool
    var destroyed: bool

    constructor (spec: ObstacleSpec, angle0: real)
      ensures x == spec.x && y == spec.y && texture == spec.texture
      ensures scale == spec.scale && rotationSpeed == spec.rotationSpeed
      ensures angle == WrapDegrees(angle0) && active && visible && !destroyed
    {
      x, y, texture := spec.x, spec.y, spec.texture;
      scale, rotationSpeed := spec.scale, spec.rotationSpeed;
      angle := WrapDegrees(angle0);
      active, visible, destroyed := true, true, false;
    }

    /** Removes the image from play; the engine's destroy clears its flags. */
    method Destroy()
      modifies this`destroyed, this`active, this`visible
      ensures destroyed && !active && !visible
    {
      destroyed, active, visible := true, false, false;
    }

    /** One frame of drift: the angle advances by the drift rate. */
    method Update()
      modifies this`angle
      ensures angle == WrapDegrees(old(angle) + rotationSpeed)
    {
      angle := WrapDegrees(angle + rotationSpeed);
    }
  }

  /** What a created resource was generated as. */
  function ResourceSpecOf(r: Resource): ResourceSpec {
    ResourceSpec(r.x, r.y, r.kind, r.amount)
  }

  /** What a created obstacle was generated as. */
  function ObstacleSpecOf(b: Obstacle): ObstacleSpec {
    ObstacleSpec(b.x, b.y, b.texture, b.scale, b.rotationSpeed)
  }

  function ResourceSpecs(rs: seq<Resource>): (r: seq<ResourceSpec>)
    ensures |r| == |rs|
  {
    seq(|rs|, i requires 0 <= i < |rs| => ResourceSpecOf(rs[i]))
  }

  function ObstacleSpecs(bs: seq<Obstacle>): (r: seq<ObstacleSpec>)
    ensures |r| == |bs|
  {
    seq(|bs|, i requires 0 <= i < |bs| => ObstacleSpecOf(bs[i]))
  }

  lemma ResourceSpecsSnoc(rs: seq<Resource>, r: Resource)
    ensures ResourceSpecs(rs + [r]) == ResourceSpecs(rs) + [ResourceSpecOf(r)]
  {
  }

  lemma ObstacleSpecsSnoc(bs: seq<Obstacle>, b: Obstacle)
    ensures ObstacleSpecs(bs + [b]) == ObstacleSpecs(bs) + [ObstacleSpecOf(b)]
  {
  }

  /** Appending `b` and then `st` to specifications that were `rs0` and `os0`
      appends `Then(b, st)`. */
  lemma AppendedThen(rs0: seq<ResourceSpec>, os0: seq<ObstacleSpec>, b: Batch, st: Batch,
                     rsMid: seq<ResourceSpec>, osMid: seq<ObstacleSpec>,
                     rsNew: seq<ResourceSpec>, osNew: seq<ObstacleSpec>)
    requires rsMid == rs0 + b.resources && osMid == os0 + b.obstacles
    requires rsNew == rsMid + st.resources && osNew == osMid + st.obstacles
    ensures rsNew == rs0 + Then(b, st).resources && osNew == os0 + Then(b, st).obstacles
  {
  }

  /** The station, then its ring of resources, then its ring of debris,
      appended in turn, append the station's rings batch. */
  lemma StationAppended(rs0: seq<ResourceSpec>, os0: seq<ObstacleSpec>, station: ObstacleSpec, ring: Batch, debris: Batch,
                        rs1: seq<ResourceSpec>, os1: seq<ObstacleSpec>, rs2: seq<ResourceSpec>, os2: seq<ObstacleSpec>,
                        rs3: seq<ResourceSpec>, os3: seq<ObstacleSpec>)
    requires rs1 == rs0 && os1 == os0 + [station]
    requires rs2 == rs1 + ring.resources && os2 == os1 + ring.obstacles && ring.obstacles == []
    requires rs3 == rs2 + debris.resources && os3 == os2 + debris.obstacles && debris.resources == []
    ensures rs3 == rs0 + ring.resources && os3 == os0 + ([station] + debris.obstacles)
  {
  }

  /** A sector record once the player has come near it: generated and active. */
  function Entered(s: Sector, near: bool): Sector {
    if near then s.(active := true, generated := true) else s
  }

  /** The records entered by visiting a column at rows lo .. y-1, then the
      cell (x, y), are those entered by visiting rows lo .. y. */
  lemma ColumnStep(ss: seq<Sector>, prev: seq<Sector>, next: seq<Sector>, b: Bounds, x: int, lo: int, y: int)
    requires |prev| == |ss| == |next| && lo <= y
    requires forall i :: 0 <= i < |ss| ==>
      prev[i] == Entered(ss[i], ss[i].gridX == x && lo <= ss[i].gridY < y && InBounds(b, ss[i].gridX, ss[i].gridY))
    requires forall i :: 0 <= i < |ss| ==>
      next[i] == Entered(prev[i], InBounds(b, x, y) && Coords(prev[i]) == (x, y))
    ensures forall i :: 0 <= i < |ss| ==>
      next[i] == Entered(ss[i], ss[i].gridX == x && lo <= ss[i].gridY < y + 1 && InBounds(b, ss[i].gridX, ss[i].gridY))
    ensures Grows(ss, prev) && Grows(prev, next)
  {
    forall i | 0 <= i < |ss|
      ensures next[i] == Entered(ss[i], ss[i].gridX == x && lo <= ss[i].gridY < y + 1 && InBounds(b, ss[i].gridX, ss[i].gridY))
    {
      assert Coords(prev[i]) == Coords(ss[i]);
    }
  }

  /** The records entered by visiting the window's columns before x, then
      column x, are those entered by visiting the columns up to x. */
  lemma WindowStep(ss: seq<Sector>, prev: seq<Sector>, next: seq<Sector>, b: Bounds, cx: int, cy: int, x: int)
    requires |prev| == |ss| == |next| && cx - VisibleRange <= x <= cx + VisibleRange
    requires forall i :: 0 <= i < |ss| ==>
      prev[i] == Entered(ss[i], Visited(cx, cy, x, cy - VisibleRange, Coords(ss[i])) && InBounds(b, ss[i].gridX, ss[i].gridY))
    requires forall i :: 0 <= i < |ss| ==>
      var s := prev[i];
      next[i] == Entered(s, s.gridX == x && cy - VisibleRange <= s.gridY <= cy + VisibleRange && InBounds(b, s.gridX, s.gridY))
    ensures forall i :: 0 <= i < |ss| ==>
      next[i] == Entered(ss[i], Visited(cx, cy, x + 1, cy - VisibleRange, Coords(ss[i])) && InBounds(b, ss[i].gridX, ss[i].gridY))
    ensures Grows(ss, prev) && Grows(prev, next)
  {
    forall i | 0 <= i < |ss|
      ensures next[i] == Entered(ss[i], Visited(cx, cy, x + 1, cy - VisibleRange, Coords(ss[i])) && InBounds(b, ss[i].gridX, ss[i].gridY))
    {
      assert Coords(prev[i]) == Coords(ss[i]);
    }
  }

  /** The positions gathered over the window's columns before x, plus those
      of column x, are those gathered over the columns up to x. */
  lemma WindowGathered(got: set<(int, int)>, next: set<(int, int)>, b: Bounds, cx: int, cy: int, x: int)
    requires cx - VisibleRange <= x <= cx + VisibleRange
    requires forall c :: c in got <==> Visited(cx, cy, x, cy - VisibleRange, c) && InBounds(b, c.0, c.1)
    requires forall c :: c in next <==>
      c in got || (c.0 == x && cy - VisibleRange <= c.1 <= cy + VisibleRange && InBounds(b, c.0, c.1))
    ensures forall c :: c in next <==> Visited(cx, cy, x + 1, cy - VisibleRange, c) && InBounds(b, c.0, c.1)
  {
  }

  /** The positions gathered over rows lo .. y-1 of column x, plus (x, y)
      when it lies in the world, are those gathered over rows lo .. y. */
  lemma RowGathered(before: set<(int, int)>, got: set<(int, int)>, b: Bounds, x: int, lo: int, y: int)
    requires lo <= y
    requires forall c :: c in got <==> c in before || (c.0 == x && lo <= c.1 < y && InBounds(b, c.0, c.1))
    ensures var next := if InBounds(b, x, y) then got + {(x, y)} else got;
      forall c :: c in next <==> c in before || (c.0 == x && lo <= c.1 < y + 1 && InBounds(b, c.0, c.1))
  {
  }

  /** Whether a record whose box holds (px, py) is inactive in `before` and
      active in `after`, the records matched by position. */
  ghost predicate SwitchedOn(before: seq<Sector>, after: seq<Sector>, px: real, py: real) {
    exists i :: 0 <= i < |before| && i < |after| && SectorGenerator.IsInSector(px, py, before[i])
                && !before[i].active && after[i].active
  }

  /** Whether a record whose box holds (px, py) is active in `before` and
      inactive in `after`. */
  ghost predicate SwitchedOff(before: seq<Sector>, after: seq<Sector>, px: real, py: real) {
    exists i :: 0 <= i < |before| && i < |after| && SectorGenerator.IsInSector(px, py, before[i])
                && before[i].active && !after[i].active
  }

  /** The flag an entity at (px, py) ends with, having started with `was`,
      while the records go from `before` to `after`: cleared when its
      record was switched off, set when its record was switched on, and
      otherwise kept. */
  ghost function Follow(before: seq<Sector>, after: seq<Sector>, px: real, py: real, was: bool): bool {
    if SwitchedOff(before, after, px, py) then false
    else if SwitchedOn(before, after, px, py) then true
    else was
  }

  /** `after` holds the records of `before`, in place and with the same
      boxes, and a record active in `before` is active in `after`. */
  predicate Grows(before: seq<Sector>, after: seq<Sector>) {
    && |before| == |after|
    && forall i :: 0 <= i < |before| ==>
         after[i].x == before[i].x && after[i].y == before[i].y && (before[i].active ==> after[i].active)
  }

  /** Records that differ at most at index k in their active flag: an entity
      is switched exactly when it lies in the box of record k and that
      record's flag changed. */
  lemma SwitchedAt(before: seq<Sector>, after: seq<Sector>, k: int)
    requires |before| == |after| && 0 <= k < |before|
    requires forall i :: 0 <= i < |before| ==> after[i].x == before[i].x && after[i].y == before[i].y
    requires forall i :: 0 <= i < |before| && i != k ==> after[i].active == before[i].active
    ensures forall px: real, py: real :: (SwitchedOn(before, after, px, py)
      <==> SectorGenerator.IsInSector(px, py, before[k]) && !before[k].active && after[k].active)
    ensures forall px: real, py: real :: (SwitchedOff(before, after, px, py)
      <==> SectorGenerator.IsInSector(px, py, before[k]) && before[k].active && !after[k].active)
  {
  }

  /** Records with the same boxes and active flags switch the same
      entities. */
  lemma SameSwitches(a: seq<Sector>, b: seq<Sector>, c: seq<Sector>)
    requires |a| == |b|
    requires forall i :: 0 <= i < |a| ==> b[i].x == a[i].x && b[i].y == a[i].y && b[i].active == a[i].active
    ensures forall px: real, py: real, w: bool :: Follow(a, c, px, py, w) == Follow(b, c, px, py, w)
  {
  }

  /** Two passes that only switch records on compose into one. */
  lemma GrowChain(a: seq<Sector>, b: seq<Sector>, c: seq<Sector>)
    requires Grows(a, b) && Grows(b, c)
    ensures forall px: real, py: real, w: bool :: Follow(a, c, px, py, w) == Follow(b, c, px, py, Follow(a, b, px, py, w))
  {
    forall px: real, py: real, w: bool
      ensures Follow(a, c, px, py, w) == Follow(b, c, px, py, Follow(a, b, px, py, w))
    {
      if SwitchedOn(a, c, px, py) {
        var i :| 0 <= i < |a| && i < |c| && SectorGenerator.IsInSector(px, py, a[i]) && !a[i].active && c[i].active;
        assert SectorGenerator.IsInSector(px, py, b[i]);
      }
      if SwitchedOn(b, c, px, py) {
        var i :| 0 <= i < |b| && i < |c| && SectorGenerator.IsInSector(px, py, b[i]) && !b[i].active && c[i].active;
        assert SectorGenerator.IsInSector(px, py, a[i]);
      }
    }
  }

  /** Two passes that only switch records off compose into one. */
  lemma ShrinkChain(a: seq<Sector>, b: seq<Sector>, c: seq<Sector>)
    requires Grows(b, a) && Grows(c, b)
    ensures forall px: real, py: real, w: bool :: Follow(a, c, px, py, w) == Follow(b, c, px, py, Follow(a, b, px, py, w))
  {
    forall px: real, py: real, w: bool
      ensures Follow(a, c, px, py, w) == Follow(b, c, px, py, Follow(a, b, px, py, w))
    {
      if SwitchedOff(a, c, px, py) {
        var i :| 0 <= i < |a| && i < |c| && SectorGenerator.IsInSector(px, py, a[i]) && a[i].active && !c[i].active;
        assert SectorGenerator.IsInSector(px, py, b[i]);
      }
      if SwitchedOff(b, c, px, py) {
        var i :| 0 <= i < |b| && i < |c| && SectorGenerator.IsInSector(px, py, b[i]) && b[i].active && !c[i].active;
        assert SectorGenerator.IsInSector(px, py, a[i]);
      }
    }
  }

  /** A pass that switches on the wanted records, then one that switches off
      the unwanted ones, compose into one pass from `a` to `c`. */
  lemma SweepChain(a: seq<Sector>, b: seq<Sector>, c: seq<Sector>)
    requires Grows(a, b) && Grows(c, b)
    requires forall i :: 0 <= i < |b| ==> (b[i].active ==> a[i].active || c[i].active)
    ensures forall px: real, py: real, w: bool :: Follow(a, c, px, py, w) == Follow(b, c, px, py, Follow(a, b, px, py, w))
  {
    forall px: real, py: real, w: bool
      ensures Follow(a, c, px, py, w) == Follow(b, c, px, py, Follow(a, b, px, py, w))
    {
      if SwitchedOff(a, c, px, py) {
        var i :| 0 <= i < |a| && i < |c| && SectorGenerator.IsInSector(px, py, a[i]) && a[i].active && !c[i].active;
        assert SectorGenerator.IsInSector(px, py, b[i]);
      }
      if SwitchedOff(b, c, px, py) {
        var i :| 0 <= i < |b| && i < |c| && SectorGenerator.IsInSector(px, py, b[i]) && b[i].active && !c[i].active;
        assert SectorGenerator.IsInSector(px, py, a[i]);
      }
      if SwitchedOn(a, c, px, py) {
        var i :| 0 <= i < |a| && i < |c| && SectorGenerator.IsInSector(px, py, a[i]) && !a[i].active && c[i].active;
        assert SectorGenerator.IsInSector(px, py, b[i]);
      }
    }
  }

  predicate Distinct<T(==)>(s: seq<T>) {
    forall i, j :: 0 <= i < j < |s| ==> s[i] != s[j]
  }

  /** A sector record as the generator keeps it: origin at its grid position,
      the type its seed gives, and active only once generated. */
  predicate WellPlaced(o: Oracle, s: Sector) {
    && s.x == s.gridX * SectorSize && s.y == s.gridY * SectorSize
    && s.kind == SectorTypeAt(o, s.gridX, s.gridY)
    && (s.active ==> s.generated)
  }

  /** Whether window cell c comes before cell (x, y) in the loop over the
      window around (cx, cy), columns first. */
  predicate Visited(cx: int, cy: int, x: int, y: int, c: (int, int)) {
    && cx - VisibleRange <= c.0 <= cx + VisibleRange
    && cy - VisibleRange <= c.1 <= cy + VisibleRange
    && (c.0 < x || (c.0 == x && c.1 < y))
  }

  /** Sector records: well placed, one per position, generated exactly when
      logged, and every logged position the position of a record. */
  ghost predicate SectorsValid(o: Oracle, sectors: seq<Sector>, log: seq<(int, int)>) {
    && (forall i :: 0 <= i < |sectors| ==> WellPlaced(o, sectors[i]))
    && (forall i, j :: 0 <= i < j < |sectors| ==> Coords(sectors[i]) != Coords(sectors[j]))
    && (forall i :: 0 <= i < |sectors| ==> (sectors[i].generated <==> Coords(sectors[i]) in log))
    && Distinct(log)
    && (forall c :: Logged(log, c) ==> exists i :: 0 <= i < |sectors| && Coords(sectors[i]) == c)
  }

  /** Whether position c was logged. */
  ghost predicate Logged(log: seq<(int, int)>, c: (int, int)) {
    c in log
  }

  /** The created entities are, in order, the content of the logged sectors,
      each created once. */
  ghost predicate ContentValid(o: Oracle, trig: Circle, resources: seq<Resource>, obstacles: seq<Obstacle>, log: seq<(int, int)>) {
    && ResourceSpecs(resources) == LoggedResources(o, trig, log)
    && ObstacleSpecs(obstacles) == LoggedObstacles(o, trig, log)
    && Distinct(resources) && Distinct(obstacles)
  }

  /** The boxes of valid records never overlap: a point lies in the box of
      at most one record. */
  lemma BoxesDisjoint(o: Oracle, ss: seq<Sector>, log: seq<(int, int)>, i: int, j: int, px: real, py: real)
    requires SectorsValid(o, ss, log) && 0 <= i < |ss| && 0 <= j < |ss|
    requires SectorGenerator.IsInSector(px, py, ss[i]) && SectorGenerator.IsInSector(px, py, ss[j])
    ensures i == j
  {
  }

  /** No point is both in the box of a record switched on and in that of a
      record switched off. */
  lemma SwitchesExclusive(o: Oracle, before: seq<Sector>, log: seq<(int, int)>, after: seq<Sector>)
    requires SectorsValid(o, before, log)
    ensures forall px: real, py: real :: !(SwitchedOn(before, after, px, py) && SwitchedOff(before, after, px, py))
  {
    forall px: real, py: real, i, j | 0 <= i < |before| && 0 <= j < |before|
        && SectorGenerator.IsInSector(px, py, before[i]) && SectorGenerator.IsInSector(px, py, before[j])
      ensures i == j
    {
      BoxesDisjoint(o, before, log, i, j, px, py);
    }
  }

  /** Without records nothing can have been logged. */
  lemma NothingLogged(o: Oracle, log: seq<(int, int)>)
    requires SectorsValid(o, [], log)
    ensures log == []
  {
    assert |log| > 0 ==> Logged(log, log[0]);
  }

  /** Marking a sector generated while logging its position keeps the
      records valid. */
  lemma GeneratedSectorsValid(o: Oracle, sectors: seq<Sector>, log: seq<(int, int)>, k: int)
    requires SectorsValid(o, sectors, log) && 0 <= k < |sectors| && !sectors[k].generated
    ensures SectorsValid(o, sectors[k := sectors[k].(generated := true)], log + [Coords(sectors[k])])
  {
    var after := sectors[k := sectors[k].(generated := true)];
    forall i | 0 <= i < |after|
      ensures after[i].generated <==> Coords(after[i]) in log + [Coords(sectors[k])]
    {
      if i != k {
        assert after[i] == sectors[i];
      }
    }
    forall c | Logged(log + [Coords(sectors[k])], c)
      ensures exists i :: 0 <= i < |after| && Coords(after[i]) == c
    {
      if c in log {
        assert Logged(log, c);
        var i :| 0 <= i < |sectors| && Coords(sectors[i]) == c;
        assert Coords(after[i]) == c;
      } else {
        assert Coords(after[k]) == c;
      }
    }
  }

  /** Changing only the active flag of a record keeps the records valid,
      provided an active record stays a generated one. */
  lemma FlaggedSectorsValid(o: Oracle, sectors: seq<Sector>, log: seq<(int, int)>, k: int, active: bool)
    requires SectorsValid(o, sectors, log) && 0 <= k < |sectors|
    requires active ==> sectors[k].generated
    ensures SectorsValid(o, sectors[k := sectors[k].(active := active)], log)
  {
    var after := sectors[k := sectors[k].(active := active)];
    assert forall i :: 0 <= i < |after| ==> Coords(after[i]) == Coords(sectors[i]) && after[i].generated == sectors[i].generated;
  }

  /** Appending the content of a well-placed sector to the entities while
      logging its position keeps the entities valid. */
  lemma GeneratedContentValid(o: Oracle, trig: Circle, rs0: seq<Resource>, bs0: seq<Obstacle>, log: seq<(int, int)>,
                              s: Sector, rs: seq<Resource>, bs: seq<Obstacle>)
    requires ContentValid(o, trig, rs0, bs0, log) && WellPlaced(o, s)
    requires var b := ContentOf(o, trig, s.kind, Sown(SeedOf(s.gridX, s.gridY)), s.x as real, s.y as real);
      ResourceSpecs(rs) == ResourceSpecs(rs0) + b.resources && ObstacleSpecs(bs) == ObstacleSpecs(bs0) + b.obstacles
    requires Distinct(rs) && Distinct(bs)
    ensures ContentValid(o, trig, rs, bs, log + [Coords(s)])
  {
    LoggedAppend(o, trig, log, Coords(s));
  }

  /** In a log without repeats that extends `log0`, the entries past `log0`
      are exactly those not in `log0`. */
  lemma LaterEntries<T>(log0: seq<T>, log1: seq<T>, c: T)
    requires log0 <= log1 && Distinct(log1)
    ensures c in log1[|log0|..] <==> c in log1 && c !in log0
  {
    if c in log1 && c !in log0 {
      var j :| 0 <= j < |log1| && log1[j] == c;
      forall j0 | 0 <= j0 < |log0|
        ensures log1[j0] != c
      {
        assert log1[j0] == log0[j0];
      }
      assert log1[|log0|..][j - |log0|] == c;
    }
    if c in log1[|log0|..] {
      var j :| |log0| <= j < |log1| && log1[j] == c;
      forall j0 | 0 <= j0 < |log0|
        ensures log0[j0] != c
      {
        assert log1[j0] == log0[j0];
      }
    }
  }

  /** The positions logged after `log0` are exactly those of the records
      generated between `before` and `after`. */
  ghost predicate LoggedMeanwhile(before: seq<Sector>, log0: seq<(int, int)>, after: seq<Sector>, log1: seq<(int, int)>)
    requires |before| == |after| && |log0| <= |log1|
  {
    forall c :: c in log1[|log0|..] <==>
      exists i :: 0 <= i < |after| && Coords(after[i]) == c && after[i].generated && !before[i].generated
  }

  /** When the records only gain the generated flag, the positions logged
      meanwhile are exactly those of the records generated meanwhile. */
  lemma NewlyLogged(o: Oracle, before: seq<Sector>, log0: seq<(int, int)>, after: seq<Sector>, log1: seq<(int, int)>)
    requires SectorsValid(o, before, log0) && SectorsValid(o, after, log1) && log0 <= log1
    requires |after| == |before| && forall i :: 0 <= i < |after| ==> Coords(after[i]) == Coords(before[i])
    ensures LoggedMeanwhile(before, log0, after, log1)
  {
    forall c
      ensures c in log1[|log0|..] <==>
        exists i :: 0 <= i < |after| && Coords(after[i]) == c && after[i].generated && !before[i].generated
    {
      LaterEntries(log0, log1, c);
      assert c in log1 ==> Logged(log1, c);
    }
  }

  /** The entities created while the log grows from `log0` to `log1` are the
      content of the positions logged meanwhile, in order. */
  lemma ContentAppended(o: Oracle, trig: Circle, rs0: seq<Resource>, bs0: seq<Obstacle>, log0: seq<(int, int)>,
                        rs1: seq<Resource>, bs1: seq<Obstacle>, log1: seq<(int, int)>)
    requires ContentValid(o, trig, rs0, bs0, log0) && ContentValid(o, trig, rs1, bs1, log1) && log0 <= log1
    ensures ResourceSpecs(rs1) == ResourceSpecs(rs0) + LoggedResources(o, trig, log1[|log0|..])
    ensures ObstacleSpecs(bs1) == ObstacleSpecs(bs0) + LoggedObstacles(o, trig, log1[|log0|..])
  {
    assert log0 + log1[|log0|..] == log1;
    LoggedConcat(o, trig, log0, log1[|log0|..]);
  }

  /** The records of columns 0 .. x-1 followed by those of column x are the
      records of columns 0 .. x. */
  lemma ColumnAppended(o: Oracle, prefix: seq<Sector>, x: nat, n: nat)
    ensures prefix + CellsAt(o, Columns(x, n)) + CellsAt(o, Column(x, n)) == prefix + CellsAt(o, Columns(x + 1, n))
  {
    CellsAtAppend(o, Columns(x, n), Column(x, n));
  }

  /** A freshly created n x n grid, with nothing generated, is valid. */
  lemma FreshGridValid(o: Oracle, n: nat)
    ensures SectorsValid(o, Grid(o, n), [])
  {
    GridShape(o, n);
  }

  class SectorGenerator {
    const oracle: Oracle
    const trig: Circle
    var sectors: seq<Sector>
    var resources: seq<Resource>
    var obstacles: seq<Obstacle>
    var rng: Stream
    var worldBounds: Option<Bounds>
    /** The grid positions generated so far, in generation order. */
    ghost var log: seq<(int, int)>

    /** The generator's invariant: the sector records and the entities agree
        with the log of generated positions. */
    ghost predicate Valid()
      reads this
    {
      SectorsValid(oracle, sectors, log) && ContentValid(oracle, trig, resources, obstacles, log)
    }

    /** The lists still start with the entities they held before, and every
        entity they hold now was there before or is new. */
    twostate predicate OnlyAppended()
      reads this
    {
      && old(resources) <= resources && old(obstacles) <= obstacles
      && (forall r :: r in resources ==> r in old(resources) || fresh(r))
      && (forall b :: b in obstacles ==> b in old(obstacles) || fresh(b))
    }

    /** `b` was appended to the entities, whose specifications were `rs0` and
        `os0`, and the stream is left where `b` ends. */
    ghost predicate Appended(b: Batch, rs0: seq<ResourceSpec>, os0: seq<ObstacleSpec>)
      reads this
    {
      && ResourceSpecs(resources) == rs0 + b.resources
      && ObstacleSpecs(obstacles) == os0 + b.obstacles
      && rng == b.rest
    }

    /** A generator seeded with the clock; no world yet. */
    constructor (o: Oracle, t: Circle, now: int)
      ensures Valid()
      ensures oracle == o && trig == t
      ensures sectors == [] && resources == [] && obstacles == [] && log == []
      ensures rng == Sown(now) && worldBounds == None
    {
      oracle, trig := o, t;
      sectors, resources, obstacles := [], [], [];
      rng := Sown(now);
      worldBounds := None;
      log := [];
    }

    // -------------------------------------------------------------------------
    // The random library calls, one draw each

    method NextBetween(lo: int, hi: int) returns (v: int)
      requires lo <= hi
      modifies this`rng
      ensures v == Between(Draw(oracle, old(rng)), lo, hi) && rng == old(rng).Next()
    {
      v := Between(Draw(oracle, rng), lo, hi);
      rng := rng.Next();
    }

    method NextFrac() returns (f: real)
      modifies this`rng
      ensures f == Frac(Draw(oracle, old(rng))) && rng == old(rng).Next()
    {
      f := Frac(Draw(oracle, rng));
      rng := rng.Next();
    }

    method NextRealInRange(lo: real, hi: real) returns (v: real)
      requires lo <= hi
      modifies this`rng
      ensures v == RealInRange(Draw(oracle, old(rng)), lo, hi) && rng == old(rng).Next()
    {
      v := RealInRange(Draw(oracle, rng), lo, hi);
      rng := rng.Next();
    }

    method NextPick<T>(options: seq<T>) returns (v: T)
      requires |options| > 0
      modifies this`rng
      ensures v == Pick(Draw(oracle, old(rng)), options) && rng == old(rng).Next()
    {
      v := Pick(Draw(oracle, rng), options);
      rng := rng.Next();
    }

    // -------------------------------------------------------------------------
    // The grid

    /** The type of sector (x, y): re-sows the stream with the sector's seed
        first, so the result depends on the coordinates alone. */
    method GetSectorType(x: int, y: int) returns (t: string)
      modifies this`rng
      ensures t == SectorTypeAt(oracle, x, y) && t in SectorTypes
      ensures rng == Sown(SeedOf(x, y)).Next()
    {
      rng := Sown(SeedOf(x, y));
      t := NextPick(SectorTypes);
      SectorTypeKnown(oracle, x, y);
    }

    /** Appends the records of column x, rows 0 .. n-1. */
    method GenerateColumn(x: int, n: nat)
      modifies this`sectors, this`rng
      ensures sectors == old(sectors) + CellsAt(oracle, Column(x, n))
      ensures n == 0 ==> rng == old(rng)
      ensures n > 0 ==> rng == Sown(SeedOf(x, n - 1)).Next()
    {
      var y := 0;
      while y < n
        invariant 0 <= y <= n
        invariant sectors == old(sectors) + CellsAt(oracle, Column(x, y))
        invariant y == 0 ==> rng == old(rng)
        invariant y > 0 ==> rng == Sown(SeedOf(x, y - 1)).Next()
      {
        var t := GetSectorType(x, y);
        CellsAtAppend(oracle, Column(x, y), [(x, y)]);
        sectors := sectors + [Sector(x * SectorSize, y * SectorSize, x, y, t, false, false)];
        y := y + 1;
      }
    }

    /** Appends the n x n grid of fresh sector records, column by column. */
    method GenerateInitialSectors(n: nat)
      modifies this`sectors, this`rng
      ensures sectors == old(sectors) + Grid(oracle, n)
      ensures n == 0 ==> rng == old(rng)
      ensures n > 0 ==> rng == Sown(SeedOf(n - 1, n - 1)).Next()
    {
      var x := 0;
      while x < n
        invariant 0 <= x <= n
        invariant sectors == old(sectors) + CellsAt(oracle, Columns(x, n))
        invariant x == 0 ==> rng == old(rng)
        invariant x > 0 ==> rng == Sown(SeedOf(x - 1, n - 1)).Next()
      {
        GenerateColumn(x, n);
        ColumnAppended(oracle, old(sectors), x, n);
        x := x + 1;
      }
    }

    /** Sets the world to worldSize x worldSize sectors and creates them. */
    method InitGame(worldSize: nat)
      requires Valid()
      modifies this`worldBounds, this`sectors, this`rng
      ensures worldBounds == Some(Bounds(worldSize * SectorSize, worldSize * SectorSize))
      ensures sectors == old(sectors) + Grid(oracle, worldSize)
      ensures worldSize == 0 ==> rng == old(rng)
      ensures worldSize > 0 ==> rng == Sown(SeedOf(worldSize - 1, worldSize - 1)).Next()
      ensures old(sectors) == [] ==> Valid()
    {
      worldBounds := Some(Bounds(worldSize * SectorSize, worldSize * SectorSize));
      GenerateInitialSectors(worldSize);
      if old(sectors) == [] {
        NothingLogged(oracle, log);
        assert ContentValid(oracle, trig, resources, obstacles, log);
        FreshGridValid(oracle, worldSize);
        assert sectors == Grid(oracle, worldSize);
      }
    }

    // -------------------------------------------------------------------------
    // Creating entities

    /** Adds a newly created resource to the list. */
    method AddResource(r: Resource)
      requires Distinct(resources) && r !in resources
      modifies this`resources
      ensures resources == old(resources) + [r] && Distinct(resources)
      ensures ResourceSpecs(resources) == old(ResourceSpecs(resources)) + [ResourceSpecOf(r)]
    {
      ResourceSpecsSnoc(resources, r);
      resources := resources + [r];
    }

    /** Adds a newly created obstacle to the list. */
    method AddObstacle(b: Obstacle)
      requires Distinct(obstacles) && b !in obstacles
      modifies this`obstacles
      ensures obstacles == old(obstacles) + [b] && Distinct(obstacles)
      ensures ObstacleSpecs(obstacles) == old(ObstacleSpecs(obstacles)) + [ObstacleSpecOf(b)]
    {
      ObstacleSpecsSnoc(obstacles, b);
      obstacles := obstacles + [b];
    }

    /** Iteration i + 1 of a generator loop placing `p` around (ax, ay), whose
        first i iterations, started from `start`, appended to entities whose
        specifications were `rs0` and `os0`. */
    method PlaceNext(p: Piece, ax: real, ay: real, ghost start: Stream, ghost i: nat,
                     ghost rs0: seq<ResourceSpec>, ghost os0: seq<ObstacleSpec>)
      requires Distinct(resources) && Distinct(obstacles)
      requires Appended(Repeat(oracle, trig, p, start, ax, ay, i), rs0, os0)
      modifies this`rng, this`resources, this`obstacles
      ensures Appended(Repeat(oracle, trig, p, start, ax, ay, i + 1), rs0, os0)
      ensures OnlyAppended() && Distinct(resources) && Distinct(obstacles)
    {
      ghost var b := Repeat(oracle, trig, p, start, ax, ay, i);
      ghost var rsMid, osMid := ResourceSpecs(resources), ObstacleSpecs(obstacles);
      match p {
        case EmptyPickup => PlaceEmptyPickup(ax, ay);
        case Asteroid => PlaceAsteroid(ax, ay);
        case Debris => PlaceDebris(ax, ay);
        case RingPickup => PlaceRingPickup(ax, ay);
        case RingDebris => PlaceRingDebris(ax, ay);
      }
      AppendedThen(rs0, os0, b, Step(oracle, trig, p, b.rest, ax, ay), rsMid, osMid,
                   ResourceSpecs(resources), ObstacleSpecs(obstacles));
    }

    /** One iteration of the empty-sector loop: a resource anywhere at least
        100 units inside the sector. */
    method PlaceEmptyPickup(ox: real, oy: real)
      requires Distinct(resources) && Distinct(obstacles)
      modifies this`rng, this`resources
      ensures Appended(EmptyPickupStep(oracle, old(rng), ox, oy), old(ResourceSpecs(resources)), old(ObstacleSpecs(obstacles)))
      ensures OnlyAppended() && Distinct(resources) && Distinct(obstacles)
    {
      var dx := NextBetween(100, SectorSize - 100);
      var dy := NextBetween(100, SectorSize - 100);
      var kind := NextPick(CommonKinds);
      var amount := NextBetween(1, 2);
      var r := new Resource(ox + dx as real, oy + dy as real, kind, amount);
      AddResource(r);
    }

    /** One iteration of the asteroid-field loop: an asteroid of a picked
        size, and by chance a resource near it. */
    method PlaceAsteroid(ox: real, oy: real)
      requires Distinct(resources) && Distinct(obstacles)
      modifies this`rng, this`resources, this`obstacles
      ensures Appended(AsteroidStep(oracle, old(rng), ox, oy), old(ResourceSpecs(resources)), old(ObstacleSpecs(obstacles)))
      ensures OnlyAppended() && Distinct(resources) && Distinct(obstacles)
    {
      ghost var rs0, os0 := ResourceSpecs(resources), ObstacleSpecs(obstacles);
      var asteroid, chance := NewAsteroid(ox, oy);
      AddObstacle(asteroid);
      ghost var placed, rsMid, osMid := Batch([], [ObstacleSpecOf(asteroid)], rng), ResourceSpecs(resources), ObstacleSpecs(obstacles);
      PlaceNearbyPickup(chance, asteroid.x, asteroid.y, 50, CommonKinds, 1, 3);
      AppendedThen(rs0, os0, placed, NearbyPickup(oracle, placed.rest, chance, asteroid.x, asteroid.y, 50, CommonKinds, 1, 3),
                   rsMid, osMid, ResourceSpecs(resources), ObstacleSpecs(obstacles));
    }

    /** Creates an asteroid of a picked size; `chance` is the size's chance
        of a resource beside it. */
    method NewAsteroid(ox: real, oy: real) returns (asteroid: Obstacle, chance: real)
      modifies this`rng
      ensures fresh(asteroid)
      ensures var (spec, size, rest) := AsteroidPiece(oracle, old(rng), ox, oy);
        ObstacleSpecOf(asteroid) == spec && chance == ResourceChance(size) && rng == rest
    {
      var dx := NextBetween(100, SectorSize - 100);
      var dy := NextBetween(100, SectorSize - 100);
      var size := NextPick([Small, Medium, Large]);
      var key, scale;
      match size {
        case Small =>
          key := "asteroid-small";
          scale := NextRealInRange(0.6, 0.9);
          chance := 0.3;
        case Medium =>
          key := "asteroid-medium";
          scale := NextRealInRange(0.8, 1.2);
          chance := 0.6;
        case Large =>
          key := "asteroid-large";
          scale := NextRealInRange(1.0, 1.5);
          chance := 0.9;
      }
      var spin := NextRealInRange(-0.2, 0.2);
      asteroid := new Obstacle(ObstacleSpec(ox + dx as real, oy + dy as real, key, scale, spin), 0.0);
    }

    /** One iteration of the debris-field loop: a debris piece, and with
        chance 0.7 a resource near it. */
    method PlaceDebris(ox: real, oy: real)
      requires Distinct(resources) && Distinct(obstacles)
      modifies this`rng, this`resources, this`obstacles
      ensures Appended(DebrisStep(oracle, old(rng), ox, oy), old(ResourceSpecs(resources)), old(ObstacleSpecs(obstacles)))
      ensures OnlyAppended() && Distinct(resources) && Distinct(obstacles)
    {
      ghost var rs0, os0 := ResourceSpecs(resources), ObstacleSpecs(obstacles);
      var debris := NewDebris(ox, oy);
      AddObstacle(debris);
      ghost var placed, rsMid, osMid := Batch([], [ObstacleSpecOf(debris)], rng), ResourceSpecs(resources), ObstacleSpecs(obstacles);
      PlaceNearbyPickup(0.7, debris.x, debris.y, 30, AllKinds, 2, 4);
      AppendedThen(rs0, os0, placed, NearbyPickup(oracle, placed.rest, 0.7, debris.x, debris.y, 30, AllKinds, 2, 4),
                   rsMid, osMid, ResourceSpecs(resources), ObstacleSpecs(obstacles));
    }

    /** Creates a debris piece of a field at a drawn facing angle. */
    method NewDebris(ox: real, oy: real) returns (debris: Obstacle)
      modifies this`rng
      ensures fresh(debris)
      ensures (ObstacleSpecOf(debris), rng) == DebrisPiece(oracle, old(rng), ox, oy)
    {
      var dx := NextBetween(100, SectorSize - 100);
      var dy := NextBetween(100, SectorSize - 100);
      var variant := NextPick([1, 2]);
      var scale := NextRealInRange(0.7, 1.2);
      var angle := NextBetween(0, 360);
      var spin := NextRealInRange(-0.3, 0.3);
      debris := new Obstacle(ObstacleSpec(ox + dx as real, oy + dy as real, DebrisTexture(variant), scale, spin), angle as real);
    }

    /** The chance roll after an asteroid or a debris piece at (x, y): when it
        comes under `chance`, a resource within `reach` units of the piece. */
    method PlaceNearbyPickup(chance: real, x: real, y: real, reach: nat, kinds: seq<string>, lo: nat, hi: nat)
      requires |kinds| > 0 && lo <= hi
      requires Distinct(resources) && Distinct(obstacles)
      modifies this`rng, this`resources
      ensures Appended(NearbyPickup(oracle, old(rng), chance, x, y, reach, kinds, lo, hi),
                       old(ResourceSpecs(resources)), old(ObstacleSpecs(obstacles)))
      ensures OnlyAppended() && Distinct(resources) && Distinct(obstacles)
    {
      var f := NextFrac();
      if f < chance {
        var rx := NextBetween(-(reach as int), reach);
        var ry := NextBetween(-(reach as int), reach);
        var kind := NextPick(kinds);
        var amount := NextBetween(lo, hi);
        var r := new Resource(x + rx as real, y + ry as real, kind, amount);
        AddResource(r);
      }
    }

    /** One iteration of the station's resource ring: a resource 100-200
        units from the station in a drawn direction. */
    method PlaceRingPickup(cx: real, cy: real)
      requires Distinct(resources) && Distinct(obstacles)
      modifies this`rng, this`resources
      ensures Appended(RingPickupStep(oracle, trig, old(rng), cx, cy), old(ResourceSpecs(resources)), old(ObstacleSpecs(obstacles)))
      ensures OnlyAppended() && Distinct(resources) && Distinct(obstacles)
    {
      var turn := NextFrac();
      var distance := NextBetween(100, 200);
      var x := cx + OffsetX(trig, turn, distance as real);
      var y := cy + OffsetY(trig, turn, distance as real);
      var kind := NextPick(AllKinds);
      var amount := NextBetween(3, 5);
      var r := new Resource(x, y, kind, amount);
      AddResource(r);
    }

    /** One iteration of the station's debris ring: a debris piece 220-350
        units from the station in a drawn direction, at a drawn facing angle. */
    method PlaceRingDebris(cx: real, cy: real)
      requires Distinct(resources) && Distinct(obstacles)
      modifies this`rng, this`obstacles
      ensures Appended(RingDebrisStep(oracle, trig, old(rng), cx, cy), old(ResourceSpecs(resources)), old(ObstacleSpecs(obstacles)))
      ensures OnlyAppended() && Distinct(resources) && Distinct(obstacles)
    {
      var turn := NextFrac();
      var distance := NextBetween(220, 350);
      var x := cx + OffsetX(trig, turn, distance as real);
      var y := cy + OffsetY(trig, turn, distance as real);
      var variant := NextPick([1, 2]);
      var scale := NextRealInRange(0.6, 1.0);
      var angle := NextBetween(0, 360);
      var spin := NextRealInRange(-0.2, 0.2);
      var debris := new Obstacle(ObstacleSpec(x, y, DebrisTexture(variant), scale, spin), angle as real);
      AddObstacle(debris);
    }

    // -------------------------------------------------------------------------
    // Generating a sector's content

    /** Re-sows the stream with the sector's seed and runs the generator of
        its type; a type outside the four names generates nothing. */
    method GenerateSectorContent(s: Sector)
      requires Distinct(resources) && Distinct(obstacles)
      modifies this`rng, this`resources, this`obstacles
      ensures Appended(ContentOf(oracle, trig, s.kind, Sown(SeedOf(s.gridX, s.gridY)), s.x as real, s.y as real),
                       old(ResourceSpecs(resources)), old(ObstacleSpecs(obstacles)))
      ensures OnlyAppended() && Distinct(resources) && Distinct(obstacles)
    {
      rng := Sown(s.gridX * 1000 + s.gridY);
      var ox, oy := s.x as real, s.y as real;
      if s.kind == "empty" {
        GenerateEmptySector(ox, oy);
      } else if s.kind == "asteroid_field" {
        GenerateAsteroidField(ox, oy);
      } else if s.kind == "debris_field" {
        GenerateDebrisField(ox, oy);
      } else if s.kind == "abandoned_station" {
        GenerateAbandonedStation(ox, oy);
      }
    }

    /** The loop every generator runs: draws a count in [lo, hi], then places
        that many pieces `p` around (ax, ay). */
    method PlaceScatter(p: Piece, ax: real, ay: real, lo: int, hi: int)
      requires 0 <= lo <= hi
      requires Distinct(resources) && Distinct(obstacles)
      modifies this`rng, this`resources, this`obstacles
      ensures Appended(Scatter(oracle, trig, p, old(rng), ax, ay, lo, hi), old(ResourceSpecs(resources)), old(ObstacleSpecs(obstacles)))
      ensures OnlyAppended() && Distinct(resources) && Distinct(obstacles)
    {
      ghost var start, rs0, os0 := rng.Next(), ResourceSpecs(resources), ObstacleSpecs(obstacles);
      var count := NextBetween(lo, hi);
      var i := 0;
      while i < count
        invariant 0 <= i <= count
        invariant Appended(Repeat(oracle, trig, p, start, ax, ay, i), rs0, os0)
        invariant OnlyAppended() && Distinct(resources) && Distinct(obstacles)
      {
        PlaceNext(p, ax, ay, start, i, rs0, os0);
        i := i + 1;
      }
    }

    /** 0-3 resources scattered over an empty sector with origin (ox, oy). */
    method GenerateEmptySector(ox: real, oy: real)
      requires Distinct(resources) && Distinct(obstacles)
      modifies this`rng, this`resources, this`obstacles
      ensures Appended(EmptySector(oracle, trig, old(rng), ox, oy), old(ResourceSpecs(resources)), old(ObstacleSpecs(obstacles)))
      ensures OnlyAppended() && Distinct(resources) && Distinct(obstacles)
    {
      PlaceScatter(EmptyPickup, ox, oy, 0, 3);
    }

    /** 10-20 asteroids over the sector with origin (ox, oy). */
    method GenerateAsteroidField(ox: real, oy: real)
      requires Distinct(resources) && Distinct(obstacles)
      modifies this`rng, this`resources, this`obstacles
      ensures Appended(AsteroidField(oracle, trig, old(rng), ox, oy), old(ResourceSpecs(resources)), old(ObstacleSpecs(obstacles)))
      ensures OnlyAppended() && Distinct(resources) && Distinct(obstacles)
    {
      PlaceScatter(Asteroid, ox, oy, 10, 20);
    }

    /** 8-15 debris pieces over the sector with origin (ox, oy). */
    method GenerateDebrisField(ox: real, oy: real)
      requires Distinct(resources) && Distinct(obstacles)
      modifies this`rng, this`resources, this`obstacles
      ensures Appended(DebrisField(oracle, trig, old(rng), ox, oy), old(ResourceSpecs(resources)), old(ObstacleSpecs(obstacles)))
      ensures OnlyAppended() && Distinct(resources) && Distinct(obstacles)
    {
      PlaceScatter(Debris, ox, oy, 8, 15);
    }

    /** A station near the centre of the sector with origin (ox, oy), a ring
        of resources around it and a wider ring of debris. */
    method GenerateAbandonedStation(ox: real, oy: real)
      requires Distinct(resources) && Distinct(obstacles)
      modifies this`rng, this`resources, this`obstacles
      ensures Appended(AbandonedStation(oracle, trig, old(rng), ox, oy), old(ResourceSpecs(resources)), old(ObstacleSpecs(obstacles)))
      ensures OnlyAppended() && Distinct(resources) && Distinct(obstacles)
    {
      var dx := NextBetween(-200, 200);
      var cx := ox + (SectorSize / 2) as real + dx as real;
      var dy := NextBetween(-200, 200);
      var cy := oy + (SectorSize / 2) as real + dy as real;
      var spin := NextRealInRange(-0.05, 0.05);
      PlaceStation(cx, cy, spin);
    }

    /** The station itself at (cx, cy), then its ring of resources and its
        ring of debris. */
    method PlaceStation(cx: real, cy: real, spin: real)
      requires Distinct(resources) && Distinct(obstacles)
      modifies this`rng, this`resources, this`obstacles
      ensures Appended(StationRings(oracle, trig, old(rng), cx, cy, spin), old(ResourceSpecs(resources)), old(ObstacleSpecs(obstacles)))
      ensures OnlyAppended() && Distinct(resources) && Distinct(obstacles)
    {
      ghost var rs0, os0 := ResourceSpecs(resources), ObstacleSpecs(obstacles);
      var station := new Obstacle(ObstacleSpec(cx, cy, "station", 1.5, spin), 0.0);
      AddObstacle(station);
      ghost var rs1, os1, start := ResourceSpecs(resources), ObstacleSpecs(obstacles), rng;
      PlaceScatter(RingPickup, cx, cy, 8, 12);
      ghost var ring := Scatter(oracle, trig, RingPickup, start, cx, cy, 8, 12);
      ghost var rs2, os2 := ResourceSpecs(resources), ObstacleSpecs(obstacles);
      PlaceScatter(RingDebris, cx, cy, 5, 8);
      ghost var debris := Scatter(oracle, trig, RingDebris, ring.rest, cx, cy, 5, 8);
      ScatterBare(oracle, trig, RingPickup, start, cx, cy, 8, 12);
      ScatterBare(oracle, trig, RingDebris, ring.rest, cx, cy, 5, 8);
      StationAppended(rs0, os0, ObstacleSpecOf(station), ring, debris, rs1, os1, rs2, os2, ResourceSpecs(resources), ObstacleSpecs(obstacles));
    }

    // -------------------------------------------------------------------------
    // Showing and hiding sectors

    /** Every entity inside the box of `s` has its active and visible flags
        set to `on`; every other flag and every other entity is as before. */
    static twostate predicate Shown(rs: seq<Resource>, bs: seq<Obstacle>, s: Sector, on: bool)
      reads set r | r in rs, set b | b in bs
    {
      && (forall r :: r in rs ==>
            && r.active == (if IsInSector(r.x, r.y, s) then on else old(r.active))
            && r.visible == (if IsInSector(r.x, r.y, s) then on else old(r.visible))
            && r.destroyed == old(r.destroyed) && r.indicatorAlpha == old(r.indicatorAlpha))
      && (forall b :: b in bs ==>
            && b.active == (if IsInSector(b.x, b.y, s) then on else old(b.active))
            && b.visible == (if IsInSector(b.x, b.y, s) then on else old(b.visible))
            && b.destroyed == old(b.destroyed) && b.angle == old(b.angle))
    }

    /** How the entities `rs` and `bs` follow the records going from `before`
        to `after`: an entity in the box of a record switched off is hidden,
        one in the box of a record switched on is shown, any other keeps its
        flags, and nothing else about any of them changes. */
    static twostate predicate Followed(rs: seq<Resource>, bs: seq<Obstacle>, before: seq<Sector>, after: seq<Sector>)
      reads set r | r in rs, set b | b in bs
    {
      && (forall r :: r in rs ==>
            && r.active == Follow(before, after, r.x, r.y, old(r.active))
            && r.visible == Follow(before, after, r.x, r.y, old(r.visible))
            && r.destroyed == old(r.destroyed) && r.indicatorAlpha == old(r.indicatorAlpha))
      && (forall b :: b in bs ==>
            && b.active == Follow(before, after, b.x, b.y, old(b.active))
            && b.visible == Follow(before, after, b.x, b.y, old(b.visible))
            && b.destroyed == old(b.destroyed) && b.angle == old(b.angle))
    }

    /** Enables the entities of a sector that has become active. */
    method ActivateSector(s: Sector)
      modifies set r | r in resources, set b | b in obstacles
      ensures Shown(resources, obstacles, s, true)
    {
      ShowResources(s, true);
      ShowObstacles(s, true);
    }

    /** Disables, without destroying, the entities of a sector that is no
        longer active. */
    method DeactivateSector(s: Sector)
      modifies set r | r in resources, set b | b in obstacles
      ensures Shown(resources, obstacles, s, false)
    {
      ShowResources(s, false);
      ShowObstacles(s, false);
    }

    /** The resources half of showing or hiding a sector. */
    method ShowResources(s: Sector, on: bool)
      modifies set r | r in resources
      ensures forall r :: r in resources ==>
        && r.active == (if IsInSector(r.x, r.y, s) then on else old(r.active))
        && r.visible == (if IsInSector(r.x, r.y, s) then on else old(r.visible))
        && r.destroyed == old(r.destroyed) && r.indicatorAlpha == old(r.indicatorAlpha)
    {
      var i := 0;
      while i < |resources|
        invariant 0 <= i <= |resources|
        invariant forall r :: r in resources ==>
          && r.active == (if IsInSector(r.x, r.y, s) && r in resources[..i] then on else old(r.active))
          && r.visible == (if IsInSector(r.x, r.y, s) && r in resources[..i] then on else old(r.visible))
          && r.destroyed == old(r.destroyed) && r.indicatorAlpha == old(r.indicatorAlpha)
      {
        var r := resources[i];
        assert resources[..i + 1] == resources[..i] + [r];
        if IsInSector(r.x, r.y, s) {
          r.active, r.visible := on, on;
        }
        i := i + 1;
      }
      assert resources[..i] == resources;
    }

    /** The obstacles half of showing or hiding a sector. */
    method ShowObstacles(s: Sector, on: bool)
      modifies set b | b in obstacles
      ensures forall b :: b in obstacles ==>
        && b.active == (if IsInSector(b.x, b.y, s) then on else old(b.active))
        && b.visible == (if IsInSector(b.x, b.y, s) then on else old(b.visible))
        && b.destroyed == old(b.destroyed) && b.angle == old(b.angle)
    {
      var i := 0;
      while i < |obstacles|
        invariant 0 <= i <= |obstacles|
        invariant forall b :: b in obstacles ==>
          && b.active == (if IsInSector(b.x, b.y, s) && b in obstacles[..i] then on else old(b.active))
          && b.visible == (if IsInSector(b.x, b.y, s) && b in obstacles[..i] then on else old(b.visible))
          && b.destroyed == old(b.destroyed) && b.angle == old(b.angle)
      {
        var b := obstacles[i];
        assert obstacles[..i + 1] == obstacles[..i] + [b];
        if IsInSector(b.x, b.y, s) {
          b.active, b.visible := on, on;
        }
        i := i + 1;
      }
      assert obstacles[..i] == obstacles;
    }

    // -------------------------------------------------------------------------
    // Following the player

    /** Generates the content of sector record k unless that was done before. */
    method EnsureGenerated(k: int)
      requires Valid() && 0 <= k < |sectors|
      modifies this`sectors, this`rng, this`resources, this`obstacles, this`log
      ensures sectors == old(sectors)[k := old(sectors)[k].(generated := true)]
      ensures log == old(log) + (if old(sectors)[k].generated then [] else [Coords(old(sectors)[k])])
      ensures Valid() && OnlyAppended()
    {
      var s := sectors[k];
      if !s.generated {
        ghost var rs0, bs0 := resources, obstacles;
        GenerateSectorContent(s);
        GeneratedSectorsValid(oracle, sectors, log, k);
        GeneratedContentValid(oracle, trig, rs0, bs0, log, s, resources, obstacles);
        sectors := sectors[k := s.(generated := true)];
        log := log + [Coords(s)];
      }
    }

    /** One position of the window around the player: skipped when outside
        the world; otherwise its sector, if any, is generated on first visit
        and activated if it was not active. `counted` tells whether the
        position lies in the world. */
    method VisitCell(x: int, y: int) returns (counted: bool)
      requires Valid() && worldBounds.Some?
      modifies this`sectors, this`rng, this`resources, this`obstacles, this`log, set r | r in resources, set b | b in obstacles
      ensures counted == InBounds(worldBounds.value, x, y)
      ensures |sectors| == |old(sectors)|
      ensures forall i :: 0 <= i < |sectors| ==>
        sectors[i] == Entered(old(sectors)[i], counted && Coords(old(sectors)[i]) == (x, y))
      ensures old(log) <= log && Valid() && OnlyAppended()
      ensures Followed(old(resources), old(obstacles), old(sectors), sectors)
    {
      counted := InBounds(worldBounds.value, x, y);
      if !counted {
        return;
      }
      var k := FindSector(x, y);
      if k >= 0 {
        Enter(k);
      }
    }

    /** The found record k of a position in the world: generated on first
        visit, then activated if it was not active. */
    method Enter(k: int)
      requires Valid() && 0 <= k < |sectors|
      modifies this`sectors, this`rng, this`resources, this`obstacles, this`log, set r | r in resources, set b | b in obstacles
      ensures sectors == old(sectors)[k := Entered(old(sectors)[k], true)]
      ensures log == old(log) + (if old(sectors)[k].generated then [] else [Coords(old(sectors)[k])])
      ensures Valid() && OnlyAppended()
      ensures Followed(old(resources), old(obstacles), old(sectors), sectors)
    {
      EnsureGenerated(k);
      ghost var mid := sectors;
      Activate(k);
      SameSwitches(old(sectors), mid, sectors);
    }

    /** Activates record k, once generated, unless it is active already. */
    method Activate(k: int)
      requires Valid() && 0 <= k < |sectors| && sectors[k].generated
      modifies this`sectors, set r | r in resources, set b | b in obstacles
      ensures sectors == old(sectors)[k := old(sectors)[k].(active := true)]
      ensures Valid()
      ensures Followed(resources, obstacles, old(sectors), sectors)
    {
      if !sectors[k].active {
        FlaggedSectorsValid(oracle, sectors, log, k, true);
        sectors := sectors[k := sectors[k].(active := true)];
        ActivateSector(sectors[k]);
      }
      SwitchedAt(old(sectors), sectors, k);
    }

    /** The loop over the window of positions within two sectors of (cx, cy),
        column by column; returns the positions that lie in the world, which
        are the ones that should stay active. */
    method VisitWindow(cx: int, cy: int) returns (shouldBeActive: set<(int, int)>)
      requires Valid() && worldBounds.Some?
      modifies this`sectors, this`rng, this`resources, this`obstacles, this`log, set r | r in resources, set b | b in obstacles
      ensures forall c :: c in shouldBeActive <==> Wanted(worldBounds.value, cx, cy, c.0, c.1)
      ensures |sectors| == |old(sectors)|
      ensures forall i :: 0 <= i < |sectors| ==>
        sectors[i] == Entered(old(sectors)[i], Wanted(worldBounds.value, cx, cy, old(sectors)[i].gridX, old(sectors)[i].gridY))
      ensures old(log) <= log && Valid() && OnlyAppended()
      ensures Followed(old(resources), old(obstacles), old(sectors), sectors)
    {
      var bounds := worldBounds.value;
      shouldBeActive := {};
      var x := cx - VisibleRange;
      while x <= cx + VisibleRange
        invariant cx - VisibleRange <= x <= cx + VisibleRange + 1
        invariant Valid() && OnlyAppended() && old(log) <= log && |sectors| == |old(sectors)|
        invariant forall c :: c in shouldBeActive <==> Visited(cx, cy, x, cy - VisibleRange, c) && InBounds(bounds, c.0, c.1)
        invariant forall i :: 0 <= i < |sectors| ==>
          sectors[i] == Entered(old(sectors)[i], Visited(cx, cy, x, cy - VisibleRange, Coords(old(sectors)[i]))
                                                 && InBounds(bounds, old(sectors)[i].gridX, old(sectors)[i].gridY))
        invariant Followed(old(resources), old(obstacles), old(sectors), sectors)
      {
        ghost var prev := sectors;
        ghost var got := shouldBeActive;
        shouldBeActive := VisitColumn(cx, cy, x, shouldBeActive);
        WindowStep(old(sectors), prev, sectors, bounds, cx, cy, x);
        WindowGathered(got, shouldBeActive, bounds, cx, cy, x);
        GrowChain(old(sectors), prev, sectors);
        x := x + 1;
      }
    }

    /** The inner loop of the window: column x, rows cy-2 .. cy+2. */
    method VisitColumn(cx: int, cy: int, x: int, before: set<(int, int)>) returns (shouldBeActive: set<(int, int)>)
      requires Valid() && worldBounds.Some?
      requires cx - VisibleRange <= x <= cx + VisibleRange
      modifies this`sectors, this`rng, this`resources, this`obstacles, this`log, set r | r in resources, set b | b in obstacles
      ensures forall c :: c in shouldBeActive <==>
        c in before || (c.0 == x && cy - VisibleRange <= c.1 <= cy + VisibleRange && InBounds(worldBounds.value, c.0, c.1))
      ensures |sectors| == |old(sectors)|
      ensures forall i :: 0 <= i < |sectors| ==>
        var s := old(sectors)[i];
        sectors[i] == Entered(s, s.gridX == x && cy - VisibleRange <= s.gridY <= cy + VisibleRange
                                 && InBounds(worldBounds.value, s.gridX, s.gridY))
      ensures old(log) <= log && Valid() && OnlyAppended()
      ensures Followed(old(resources), old(obstacles), old(sectors), sectors)
    {
      var bounds := worldBounds.value;
      shouldBeActive := before;
      var y := cy - VisibleRange;
      while y <= cy + VisibleRange
        invariant cy - VisibleRange <= y <= cy + VisibleRange + 1
        invariant Valid() && OnlyAppended() && old(log) <= log && |sectors| == |old(sectors)|
        invariant forall c :: c in shouldBeActive <==>
          c in before || (c.0 == x && cy - VisibleRange <= c.1 < y && InBounds(bounds, c.0, c.1))
        invariant forall i :: 0 <= i < |sectors| ==>
          var s := old(sectors)[i];
          sectors[i] == Entered(s, s.gridX == x && cy - VisibleRange <= s.gridY < y && InBounds(bounds, s.gridX, s.gridY))
        invariant Followed(old(resources), old(obstacles), old(sectors), sectors)
      {
        ghost var prev := sectors;
        var counted := VisitCell(x, y);
        ColumnStep(old(sectors), prev, sectors, bounds, x, cy - VisibleRange, y);
        RowGathered(before, shouldBeActive, bounds, x, cy - VisibleRange, y);
        GrowChain(old(sectors), prev, sectors);
        if counted {
          shouldBeActive := shouldBeActive + {(x, y)};
        }
        y := y + 1;
      }
    }

    /** The loop over all sector records: an active one whose position is not
        in `shouldBeActive` is deactivated. */
    method DeactivateOthers(shouldBeActive: set<(int, int)>)
      requires Valid()
      modifies this`sectors, set r | r in resources, set b | b in obstacles
      ensures |sectors| == |old(sectors)|
      ensures forall i :: 0 <= i < |sectors| ==>
        sectors[i] == old(sectors)[i].(active := old(sectors)[i].active && Coords(old(sectors)[i]) in shouldBeActive)
      ensures Valid()
      ensures Followed(resources, obstacles, old(sectors), sectors)
    {
      var i := 0;
      while i < |sectors|
        invariant 0 <= i <= |sectors| == |old(sectors)|
        invariant Valid()
        invariant forall j :: 0 <= j < |sectors| ==>
          sectors[j] == if j < i then old(sectors)[j].(active := old(sectors)[j].active && Coords(old(sectors)[j]) in shouldBeActive)
                        else old(sectors)[j]
        invariant Followed(resources, obstacles, old(sectors), sectors)
      {
        ghost var prev := sectors;
        DeactivateUnless(i, shouldBeActive);
        assert Grows(prev, old(sectors)) && Grows(sectors, prev);
        ShrinkChain(old(sectors), prev, sectors);
        i := i + 1;
      }
    }

    /** The loop body of the deactivation pass: record k stays active only
        if its position is in `shouldBeActive`; if it is switched off, its
        entities are hidden. */
    method DeactivateUnless(k: int, shouldBeActive: set<(int, int)>)
      requires Valid() && 0 <= k < |sectors|
      modifies this`sectors, set r | r in resources, set b | b in obstacles
      ensures sectors == old(sectors)[k := old(sectors)[k].(active := old(sectors)[k].active && Coords(old(sectors)[k]) in shouldBeActive)]
      ensures Valid()
      ensures var s := old(sectors)[k];
        if s.active && Coords(s) !in shouldBeActive then Shown(resources, obstacles, s, false)
        else unchanged(set r | r in resources, set b | b in obstacles)
      ensures Followed(resources, obstacles, old(sectors), sectors)
    {
      var s := sectors[k];
      if s.active && Coords(s) !in shouldBeActive {
        FlaggedSectorsValid(oracle, sectors, log, k, false);
        sectors := sectors[k := s.(active := false)];
        DeactivateSector(s);
      } else {
        assert sectors == sectors[k := s.(active := s.active && Coords(s) in shouldBeActive)];
      }
      SwitchedAt(old(sectors), sectors, k);
    }

    /** Keeps active exactly the sectors within two sectors of the player's
        and inside the world, generating each one's content on its first
        activation. */
    method UpdateActiveSectors(playerX: real, playerY: real)
      requires Valid() && worldBounds.Some?
      modifies this`sectors, this`rng, this`resources, this`obstacles, this`log, set r | r in resources, set b | b in obstacles
      ensures |sectors| == |old(sectors)|
      ensures forall i :: 0 <= i < |sectors| ==>
        var s := old(sectors)[i];
        var near := Wanted(worldBounds.value, SectorIndex(playerX), SectorIndex(playerY), s.gridX, s.gridY);
        sectors[i] == s.(active := near, generated := s.generated || near)
      ensures old(log) <= log && Valid() && OnlyAppended()
      ensures Followed(old(resources), old(obstacles), old(sectors), sectors)
      ensures forall px: real, py: real ::
        !(SwitchedOn(old(sectors), sectors, px, py) && SwitchedOff(old(sectors), sectors, px, py))
      ensures LoggedMeanwhile(old(sectors), old(log), sectors, log)
      ensures ResourceSpecs(resources) == ResourceSpecs(old(resources)) + LoggedResources(oracle, trig, log[|old(log)|..])
      ensures ObstacleSpecs(obstacles) == ObstacleSpecs(old(obstacles)) + LoggedObstacles(oracle, trig, log[|old(log)|..])
    {
      var cx := SectorIndex(playerX);
      var cy := SectorIndex(playerY);
      var shouldBeActive := VisitWindow(cx, cy);
      ghost var mid := sectors;
      DeactivateOthers(shouldBeActive);
      assert Grows(old(sectors), mid) && Grows(sectors, mid);
      SweepChain(old(sectors), mid, sectors);
      SwitchesExclusive(oracle, old(sectors), old(log), sectors);
      NewlyLogged(oracle, old(sectors), old(log), sectors, log);
      ContentAppended(oracle, trig, old(resources), old(obstacles), old(log), resources, obstacles, log);
    }

    // -------------------------------------------------------------------------
    // Per frame, and teardown

    /** Advances every active obstacle's drift by one frame. */
    method Update()
      requires Distinct(obstacles)
      modifies set b | b in obstacles
      ensures forall b :: b in obstacles ==>
        b.angle == (if b.active then WrapDegrees(old(b.angle) + b.rotationSpeed) else old(b.angle))
        && b.active == old(b.active) && b.visible == old(b.visible) && b.destroyed == old(b.destroyed)
    {
      var i := 0;
      while i < |obstacles|
        invariant 0 <= i <= |obstacles|
        invariant forall j :: 0 <= j < |obstacles| ==>
          var b := obstacles[j];
          b.angle == (if b.active && j < i then WrapDegrees(old(b.angle) + b.rotationSpeed) else old(b.angle))
          && b.active == old(b.active) && b.visible == old(b.visible) && b.destroyed == old(b.destroyed)
      {
        if obstacles[i].active {
          obstacles[i].Update();
        }
        i := i + 1;
      }
    }

    /** Destroys every entity and forgets the entities and the sector records. */
    method Cleanup()
      modifies this`resources, this`obstacles, this`sectors, this`log, set r | r in resources, set b | b in obstacles
      ensures resources == [] && obstacles == [] && sectors == [] && Valid()
      ensures forall r :: r in old(resources) ==>
        r.destroyed && !r.active && !r.visible && r.indicatorAlpha == old(r.indicatorAlpha)
      ensures forall b :: b in old(obstacles) ==>
        b.destroyed && !b.active && !b.visible && b.angle == old(b.angle)
    {
      var i := 0;
      while i < |resources|
        invariant 0 <= i <= |resources|
        invariant resources == old(resources) && obstacles == old(obstacles)
        invariant forall r :: r in resources ==> r.indicatorAlpha == old(r.indicatorAlpha)
        invariant forall b :: b in obstacles ==> b.angle == old(b.angle)
        invariant forall j :: 0 <= j < i ==> resources[j].destroyed && !resources[j].active && !resources[j].visible
      {
        resources[i].Destroy();
        i := i + 1;
      }
      i := 0;
      while i < |obstacles|
        invariant 0 <= i <= |obstacles|
        invariant resources == old(resources) && obstacles == old(obstacles)
        invariant forall r :: r in resources ==> r.destroyed && !r.active && !r.visible && r.indicatorAlpha == old(r.indicatorAlpha)
        invariant forall b :: b in obstacles ==> b.angle == old(b.angle)
        invariant forall j :: 0 <= j < i ==> obstacles[j].destroyed && !obstacles[j].active && !obstacles[j].visible
      {
        obstacles[i].Destroy();
        i := i + 1;
      }
      resources, obstacles, sectors := [], [], [];
      log := [];
    }

    /** The first sector record at grid position (x, y), or -1. */
    method FindSector(x: int, y: int) returns (k: int)
      ensures -1 <= k < |sectors|
      ensures k >= 0 ==> Coords(sectors[k]) == (x, y)
      ensures k >= 0 ==> forall j :: 0 <= j < k ==> Coords(sectors[j]) != (x, y)
      ensures k == -1 <==> forall j :: 0 <= j < |sectors| ==> Coords(sectors[j]) != (x, y)
    {
      k := 0;
      while k < |sectors|
        invariant 0 <= k <= |sectors|
        invariant forall j :: 0 <= j < k ==> Coords(sectors[j]) != (x, y)
      {
        if sectors[k].gridX == x && sectors[k].gridY == y {
          return;
        }
        k := k + 1;
      }
      k := -1;
    }

    /** Whether (x, y) lies in the sector's half-open box; for a record at
        its grid position, exactly when the point's sector indices are the
        record's grid coordinates. */
    static predicate IsInSector(x: real, y: real, s: Sector): (r: bool)
      ensures s.x == s.gridX * SectorSize && s.y == s.gridY * SectorSize ==>
        (r <==> Coords(s) == (SectorIndex(x), SectorIndex(y)))
    {
      OneSectorPerPoint(x, y, s.gridX, s.gridY);
      InsideSector(x, y, s.x as real, s.y as real)
    }
  }
}
