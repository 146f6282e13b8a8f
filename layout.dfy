/** The sector grid as values: the records the generator creates, the order it
    creates them in, the window of sectors kept active around the player, and
    the content of every sector generated so far. The sector generator's
    methods are proved against these functions. */
module Layout {
  import opened Rng
  import opened Trig
  import opened Content

  /** A sector record: origin, grid coordinates, type and the two flags. */
  datatype Sector = Sector(x: int, y: int, gridX: int, gridY: int, kind: string, active: bool, generated: bool)

  /** The world's extent in world units. */
  datatype Bounds = Bounds(width: int, height: int)

  /** How many sectors in each direction around the player's are kept active. */
  const VisibleRange: int := 2

  function Coords(s: Sector): (int, int) {
    (s.gridX, s.gridY)
  }

  /** Sector (x, y) as first created: origin at its grid position times the
      sector size, type from its own seed, inactive and not generated. */
  function Cell(o: Oracle, x: int, y: int): Sector {
    Sector(x * SectorSize, y * SectorSize, x, y, SectorTypeAt(o, x, y), false, false)
  }

  /** Positions (x, 0) .. (x, m-1), in that order. */
  function Column(x: int, m: nat): seq<(int, int)> {
    if m == 0 then [] else Column(x, m - 1) + [(x, m - 1)]
  }

  /** Columns 0 .. k-1, each n positions tall: the x-major order of creation. */
  function Columns(k: nat, n: nat): seq<(int, int)> {
    if k == 0 then [] else Columns(k - 1, n) + Column(k - 1, n)
  }

  /** The sectors created at the given positions, in order. */
  function CellsAt(o: Oracle, ps: seq<(int, int)>): (r: seq<Sector>)
    ensures |r| == |ps|
  {
    seq(|ps|, i requires 0 <= i < |ps| => Cell(o, ps[i].0, ps[i].1))
  }

  /** Creating the sectors at ps and then at qs creates those at ps + qs. */
  lemma CellsAtAppend(o: Oracle, ps: seq<(int, int)>, qs: seq<(int, int)>)
    ensures CellsAt(o, ps + qs) == CellsAt(o, ps) + CellsAt(o, qs)
  {
  }

  /** The n x n grid in creation order. */
  function Grid(o: Oracle, n: nat): seq<Sector> {
    CellsAt(o, Columns(n, n))
  }

  lemma MulStep(x: int, n: int)
    ensures (x + 1) * n == x * n + n
  {
  }

  lemma {:induction false} MulMono(a: nat, b: nat, n: nat)
    requires a <= b
    ensures a * n <= b * n
  {
    if a < b {
      MulMono(a, b - 1, n);
      MulStep(b - 1, n);
    }
  }

  lemma {:induction false} ColumnAt(x: int, m: nat, y: int)
    requires 0 <= y < m
    ensures |Column(x, m)| == m && Column(x, m)[y] == (x, y)
  {
    ColumnLength(x, m - 1);
    if y < m - 1 {
      ColumnAt(x, m - 1, y);
    }
  }

  lemma {:induction false} ColumnLength(x: int, m: nat)
    ensures |Column(x, m)| == m
  {
    if m > 0 {
      ColumnLength(x, m - 1);
    }
  }

  lemma {:induction false} ColumnsLength(k: nat, n: nat)
    ensures |Columns(k, n)| == k * n
  {
    if k > 0 {
      ColumnsLength(k - 1, n);
      ColumnLength(k - 1, n);
      MulStep(k - 1, n);
    }
  }

  /** Position (x, y) of a k-column grid sits at index x*n + y. */
  lemma {:induction false} ColumnsAt(k: nat, n: nat, x: int, y: int)
    requires 0 <= x < k && 0 <= y < n
    ensures 0 <= x * n + y < |Columns(k, n)| && Columns(k, n)[x * n + y] == (x, y)
  {
    ColumnsLength(k - 1, n);
    ColumnLength(k - 1, n);
    MulStep(k - 1, n);
    MulMono(0, x, n);
    var head := Columns(k - 1, n);
    if x < k - 1 {
      ColumnsAt(k - 1, n, x, y);
      MulStep(x, n);
      MulMono(x + 1, k - 1, n);
      assert Columns(k, n)[x * n + y] == head[x * n + y];
    } else {
      ColumnAt(k - 1, n, y);
      assert Columns(k, n)[x * n + y] == Column(k - 1, n)[y];
    }
  }

  /** Each position of a k-column grid lies in [0, k) x [0, n) and sits at
      index x*n + y. */
  lemma {:induction false} ColumnsCell(k: nat, n: nat, i: int)
    requires 0 <= i < |Columns(k, n)|
    ensures var p := Columns(k, n)[i];
      0 <= p.0 < k && 0 <= p.1 < n && i == p.0 * n + p.1
  {
    var head := Columns(k - 1, n);
    ColumnsLength(k - 1, n);
    ColumnLength(k - 1, n);
    if i < |head| {
      ColumnsCell(k - 1, n, i);
      assert Columns(k, n)[i] == head[i];
    } else {
      var y := i - |head|;
      ColumnAt(k - 1, n, y);
      assert Columns(k, n)[i] == Column(k - 1, n)[y];
    }
  }

  /** Every (x, y) of [0, n)^2 appears in the n x n grid, at index x*n + y. */
  lemma GridCovers(o: Oracle, n: nat, x: int, y: int)
    requires 0 <= x < n && 0 <= y < n
    ensures 0 <= x * n + y < |Grid(o, n)| && Grid(o, n)[x * n + y] == Cell(o, x, y)
  {
    ColumnsAt(n, n, x, y);
  }

  /** The n x n grid has n*n sectors, each the cell of its own coordinates
      within [0, n)^2, and no position twice. */
  lemma GridShape(o: Oracle, n: nat)
    ensures |Grid(o, n)| == n * n
    ensures forall i :: 0 <= i < |Grid(o, n)| ==>
      Grid(o, n)[i] == Cell(o, Grid(o, n)[i].gridX, Grid(o, n)[i].gridY)
      && 0 <= Grid(o, n)[i].gridX < n && 0 <= Grid(o, n)[i].gridY < n
    ensures forall i, j :: 0 <= i < j < |Grid(o, n)| ==> Coords(Grid(o, n)[i]) != Coords(Grid(o, n)[j])
  {
    var ps := Columns(n, n);
    ColumnsLength(n, n);
    forall i | 0 <= i < |ps|
      ensures 0 <= ps[i].0 < n && 0 <= ps[i].1 < n
    {
      ColumnsCell(n, n, i);
    }
    forall i, j | 0 <= i < j < |ps|
      ensures ps[i] != ps[j]
    {
      ColumnsCell(n, n, i);
      ColumnsCell(n, n, j);
    }
  }

  // ---------------------------------------------------------------------------
  // Where the player is, and which sectors surround it

  /** The grid coordinate of the sector containing world coordinate p. */
  function SectorIndex(p: real): int {
    (p / SectorSize as real).Floor
  }

  /** The half-open sector boxes tile the world: a point lies in the box of
      sector g exactly when g is its sector index. */
  lemma Partition(p: real, g: int)
    ensures (g * SectorSize) as real <= p < ((g + 1) * SectorSize) as real <==> g == SectorIndex(p)
  {
    var q := p / SectorSize as real;
    assert p == q * SectorSize as real;
    if (g * SectorSize) as real <= p < ((g + 1) * SectorSize) as real {
      assert g as real <= q < (g + 1) as real;
    }
  }

  /** Every point lies in the box of exactly one grid position. */
  lemma OneSectorPerPoint(px: real, py: real, gx: int, gy: int)
    ensures InsideSector(px, py, (gx * SectorSize) as real, (gy * SectorSize) as real)
        <==> gx == SectorIndex(px) && gy == SectorIndex(py)
  {
    Partition(px, gx);
    Partition(py, gy);
  }

  function Abs(v: int): nat {
    if v < 0 then -v else v
  }

  /** The distance in sectors between two grid positions, counting diagonal steps as one. */
  function Chebyshev(ax: int, ay: int, cx: int, cy: int): (d: nat)
    ensures d == Abs(ax - cx) || d == Abs(ay - cy)
    ensures Abs(ax - cx) <= d && Abs(ay - cy) <= d
  {
    if Abs(ax - cx) >= Abs(ay - cy) then Abs(ax - cx) else Abs(ay - cy)
  }

  /** Whether grid position (x, y) lies in the world: the bounds are compared
      in sector units, by real division as the program does. */
  predicate InBounds(b: Bounds, x: int, y: int) {
    !(x < 0 || y < 0
      || x as real >= b.width as real / SectorSize as real
      || y as real >= b.height as real / SectorSize as real)
  }

  /** An n x n world holds exactly the positions [0, n)^2. */
  lemma SquareBounds(n: nat, x: int, y: int)
    ensures InBounds(Bounds(n * SectorSize, n * SectorSize), x, y) <==> 0 <= x < n && 0 <= y < n
  {
    assert (n * SectorSize) as real / SectorSize as real == n as real;
  }

  /** Whether sector position (x, y) should be active with the player in
      sector (cx, cy): within the visible range and inside the world. */
  predicate Wanted(b: Bounds, cx: int, cy: int, x: int, y: int) {
    Chebyshev(x, y, cx, cy) <= VisibleRange && InBounds(b, x, y)
  }

  // ---------------------------------------------------------------------------
  // Content of the generated sectors

  /** The resources of the sectors in `log`, in generation order. */
  function LoggedResources(o: Oracle, trig: Circle, log: seq<(int, int)>): seq<ResourceSpec> {
    if log == [] then []
    else
      var last := log[|log| - 1];
      LoggedResources(o, trig, log[..|log| - 1]) + SectorContent(o, trig, last.0, last.1).resources
  }

  /** The obstacles of the sectors in `log`, in generation order. */
  function LoggedObstacles(o: Oracle, trig: Circle, log: seq<(int, int)>): seq<ObstacleSpec> {
    if log == [] then []
    else
      var last := log[|log| - 1];
      LoggedObstacles(o, trig, log[..|log| - 1]) + SectorContent(o, trig, last.0, last.1).obstacles
  }

  /** Generating one more sector appends its content. */
  lemma LoggedAppend(o: Oracle, trig: Circle, log: seq<(int, int)>, c: (int, int))
    ensures LoggedResources(o, trig, log + [c]) == LoggedResources(o, trig, log) + SectorContent(o, trig, c.0, c.1).resources
    ensures LoggedObstacles(o, trig, log + [c]) == LoggedObstacles(o, trig, log) + SectorContent(o, trig, c.0, c.1).obstacles
  {
    assert (log + [c])[..|log|] == log;
  }

  /** The parts `part` gives for the positions of `log`, joined in order. */
  function Joined<T>(part: ((int, int)) -> seq<T>, log: seq<(int, int)>): seq<T> {
    if log == [] then [] else Joined(part, log[..|log| - 1]) + part(log[|log| - 1])
  }

  /** Joining the parts of `a + b` joins those of `b` after those of `a`. */
  lemma {:induction false} JoinedConcat<T>(part: ((int, int)) -> seq<T>, a: seq<(int, int)>, b: seq<(int, int)>)
    ensures Joined(part, a + b) == Joined(part, a) + Joined(part, b)
    decreases |b|
  {
    if b == [] {
      assert a + b == a;
    } else {
      assert (a + b)[..|a + b| - 1] == a + b[..|b| - 1];
      JoinedConcat(part, a, b[..|b| - 1]);
    }
  }

  /** The logged entities are the sector contents joined in log order. */
  lemma {:induction false} LoggedJoined(o: Oracle, trig: Circle, log: seq<(int, int)>)
    ensures LoggedResources(o, trig, log) == Joined((c: (int, int)) => SectorContent(o, trig, c.0, c.1).resources, log)
    ensures LoggedObstacles(o, trig, log) == Joined((c: (int, int)) => SectorContent(o, trig, c.0, c.1).obstacles, log)
    decreases |log|
  {
    if log != [] {
      LoggedJoined(o, trig, log[..|log| - 1]);
    }
  }

  /** Generating the sectors of `b` after those of `a` appends their
      content, in order, to that of `a`. */
  lemma LoggedConcat(o: Oracle, trig: Circle, a: seq<(int, int)>, b: seq<(int, int)>)
    ensures LoggedResources(o, trig, a + b) == LoggedResources(o, trig, a) + LoggedResources(o, trig, b)
    ensures LoggedObstacles(o, trig, a + b) == LoggedObstacles(o, trig, a) + LoggedObstacles(o, trig, b)
  {
    LoggedJoined(o, trig, a);
    LoggedJoined(o, trig, b);
    LoggedJoined(o, trig, a + b);
    JoinedConcat((c: (int, int)) => SectorContent(o, trig, c.0, c.1).resources, a, b);
    JoinedConcat((c: (int, int)) => SectorContent(o, trig, c.0, c.1).obstacles, a, b);
  }

  /** Every resource ever generated carries between 1 and 5 units. */
  lemma {:induction false} LoggedAmounts(o: Oracle, trig: Circle, log: seq<(int, int)>)
    ensures forall i :: 0 <= i < |LoggedResources(o, trig, log)| ==> 1 <= LoggedResources(o, trig, log)[i].amount <= 5
  {
    if log != [] {
      var init, last := log[..|log| - 1], log[|log| - 1];
      LoggedAmounts(o, trig, init);
      var t := SectorTypeAt(o, last.0, last.1);
      var b := SectorContent(o, trig, last.0, last.1);
      ContentShape(o, trig, t, Sown(SeedOf(last.0, last.1)), (last.0 * SectorSize) as real, (last.1 * SectorSize) as real);
      assert AmountsWithin(b, 1, 5);
      var all := LoggedResources(o, trig, log);
      assert all == LoggedResources(o, trig, init) + b.resources;
      forall i | 0 <= i < |all|
        ensures 1 <= all[i].amount <= 5
      {
        if i >= |LoggedResources(o, trig, init)| {
          assert all[i] == b.resources[i - |LoggedResources(o, trig, init)|];
        }
      }
    }
  }
}
