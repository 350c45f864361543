/** ObstaclesManager: populates the screen-sized regions around the tank with
    trees, bushes, puddles and stones, adds well-spaced bushes on a timer and
    switches objects on and off by a visibility window. */
module Obstacles {
  import opened World
  import opened Randomness

  const MaxVisibleCount: int := 50
  const BushSpawnInterval: real := 5.0
  /** The spacing floor for an extra bush; compared squared (1 * 1). */
  const MinAllowedBushInterval: real := 1.0
  const CandidateCount: nat := 10
  /** The visibility window is this many display sizes from the axis point on each side. */
  const DisplayCoef: real := 1.5

  /** A spawned scenery object. */
  datatype MapObject = MapObject(kind: MapObjectType, position: Point, rotation: int, active: bool)

  /** One entry of the possibilities dictionary, in insertion order. */
  datatype Weight = Weight(kind: MapObjectType, value: int)

  /** The table Init fills: Tree 10, Bush 30, Puddle 10, Stone 50. */
  const InitialWeights: seq<Weight> := [Weight(Tree, 10), Weight(Bush, 30), Weight(Puddle, 10), Weight(Stone, 50)]

  // ---------------------------------------------------------------------
  // Regions

  /** The axis point and its 8 neighbouring regions, in the order PlaceObstacles lists them. */
  function RegionCentres(axis: Point, dx: real, dy: real): (r: seq<Point>)
    ensures |r| == 9 && r[0] == axis
  {
    [axis,
     Point(axis.x + dx, axis.z),
     Point(axis.x - dx, axis.z),
     Point(axis.x, axis.z + dy),
     Point(axis.x, axis.z - dy),
     Point(axis.x + dx, axis.z + dy),
     Point(axis.x + dx, axis.z - dy),
     Point(axis.x - dx, axis.z + dy),
     Point(axis.x - dx, axis.z - dy)]
  }

  /** The nine centres are the 3x3 block of regions around the axis point, each once. */
  lemma RegionCentresAround(axis: Point, dx: real, dy: real)
    requires dx > 0.0 && dy > 0.0
    ensures forall p :: p in RegionCentres(axis, dx, dy) <==>
              (p.x == axis.x - dx || p.x == axis.x || p.x == axis.x + dx)
              && (p.z == axis.z - dy || p.z == axis.z || p.z == axis.z + dy)
    ensures forall k, l :: 0 <= k < l < 9 ==> RegionCentres(axis, dx, dy)[k] != RegionCentres(axis, dx, dy)[l]
  {
    var r := RegionCentres(axis, dx, dy);
    forall k, l | 0 <= k < l < 9
      ensures r[k] != r[l]
    {
      // The first five differ from each other on one coordinate; the
      // corners differ from them and from each other on at least one.
      if k < 5 {
        assert r[k].x == axis.x || r[k].z == axis.z;
      }
    }
  }

  /** Every point of `ps` is listed in `filled`. */
  predicate AllListed(ps: seq<Point>, filled: set<Point>)
  {
    forall k :: 0 <= k < |ps| ==> ps[k] in filled
  }

  /** The display-sized rectangle of a region. */
  function RegionRect(centre: Point, dx: real, dy: real): Rect
  {
    RectAround(centre, dx / 2.0, dy / 2.0)
  }

  /** The visibility window: 1.5 display sizes from the axis point on each side. */
  function Window(axis: Point, dx: real, dy: real): Rect
  {
    RectAround(axis, dx * DisplayCoef, dy * DisplayCoef)
  }

  /** The number of objects strictly inside `rect`. */
  function CountInRect(objs: seq<MapObject>, rect: Rect): (n: nat)
    ensures n <= |objs|
  {
    if objs == [] then 0
    else
      CountInRect(objs[..|objs| - 1], rect) + (if StrictlyInside(objs[|objs| - 1].position, rect) then 1 else 0)
  }

  /** The count is zero exactly when no object is inside, and full exactly when all are. */
  lemma {:induction false} CountInRectExtremes(objs: seq<MapObject>, rect: Rect)
    ensures CountInRect(objs, rect) == 0 <==> forall i :: 0 <= i < |objs| ==> !StrictlyInside(objs[i].position, rect)
    ensures CountInRect(objs, rect) == |objs| <==> forall i :: 0 <= i < |objs| ==> StrictlyInside(objs[i].position, rect)
  {
    if objs != [] {
      var init := objs[..|objs| - 1];
      CountInRectExtremes(init, rect);
      assert forall i :: 0 <= i < |init| ==> init[i] == objs[i];
    }
  }

  /** Same objects, same order, only active flags possibly changed. */
  predicate SamePlacement(a: seq<MapObject>, b: seq<MapObject>)
  {
    |a| == |b|
    && forall i :: 0 <= i < |a| ==>
         b[i].kind == a[i].kind && b[i].position == a[i].position && b[i].rotation == a[i].rotation
  }

  /** `b` keeps the objects of `a` (flags aside) and may append more. */
  predicate Extends(a: seq<MapObject>, b: seq<MapObject>)
  {
    |a| <= |b|
    && forall i :: 0 <= i < |a| ==>
         b[i].kind == a[i].kind && b[i].position == a[i].position && b[i].rotation == a[i].rotation
  }

  /** From `a` to `b` the flags of `a`'s objects are only switched on, and
      only for objects strictly inside `window`. */
  predicate RaisedOnlyIn(a: seq<MapObject>, b: seq<MapObject>, window: Rect)
  {
    |a| <= |b|
    && forall i :: 0 <= i < |a| ==>
         (a[i].active ==> b[i].active)
         && (b[i].active ==> a[i].active || StrictlyInside(a[i].position, window))
  }

  /** In `after`, each object of `before` is on exactly when it is strictly inside `window`. */
  predicate CulledPrefix(before: seq<MapObject>, after: seq<MapObject>, window: Rect)
  {
    |before| <= |after|
    && forall i :: 0 <= i < |before| ==> (after[i].active <==> StrictlyInside(before[i].position, window))
  }

  /** One object after GetNearestMapObjects: on if strictly inside `rect`, else as it was. */
  function Activated(o: MapObject, rect: Rect): MapObject
  {
    if StrictlyInside(o.position, rect) then o.(active := true) else o
  }

  /** One object after SwapObjectsByDistance: on exactly when strictly inside `window`. */
  function CulledOne(o: MapObject, window: Rect): MapObject
  {
    o.(active := StrictlyInside(o.position, window))
  }

  /** Flags after GetNearestMapObjects: objects strictly inside `rect` are on,
      the others as they were. */
  function ActivateInRect(objs: seq<MapObject>, rect: Rect): (r: seq<MapObject>)
    ensures SamePlacement(objs, r)
    ensures forall i :: 0 <= i < |r| ==> r[i].active == (objs[i].active || StrictlyInside(objs[i].position, rect))
  {
    seq(|objs|, i requires 0 <= i < |objs| => Activated(objs[i], rect))
  }

  /** Flags after SwapObjectsByDistance: on exactly when strictly inside the window. */
  function Culled(objs: seq<MapObject>, window: Rect): (r: seq<MapObject>)
    ensures SamePlacement(objs, r)
    ensures forall i :: 0 <= i < |r| ==> (r[i].active <==> StrictlyInside(r[i].position, window))
  {
    seq(|objs|, i requires 0 <= i < |objs| => CulledOne(objs[i], window))
  }

  /** Counting one more object of the prefix. */
  lemma CountStep(objs: seq<MapObject>, i: int, rect: Rect)
    requires 0 <= i < |objs|
    ensures CountInRect(objs[..i + 1], rect)
              == CountInRect(objs[..i], rect) + (if StrictlyInside(objs[i].position, rect) then 1 else 0)
  {
    assert objs[..i + 1][..i] == objs[..i];
  }

  /** Only the positions matter to the count, so switching flags keeps it. */
  lemma {:induction false} CountIgnoresFlags(a: seq<MapObject>, b: seq<MapObject>, rect: Rect)
    requires SamePlacement(a, b)
    ensures CountInRect(a, rect) == CountInRect(b, rect)
  {
    if a != [] {
      CountIgnoresFlags(a[..|a| - 1], b[..|b| - 1], rect);
    }
  }

  // ---------------------------------------------------------------------
  // The weighted draw

  /** The categories of the weight table, in order. `Data.Kinds` does the
      same for the configured table, whose weights are reals, and `KindsOf`
      for spawned objects; each projects a different record type, so each
      has its own function. */
  function WeightKinds(table: seq<Weight>): (r: seq<MapObjectType>)
    ensures |r| == |table|
    ensures forall i :: 0 <= i < |table| ==> r[i] == table[i].kind
  {
    seq(|table|, i requires 0 <= i < |table| => table[i].kind)
  }

  function WeightSum(table: seq<Weight>): int
  {
    if table == [] then 0 else table[0].value + WeightSum(table[1..])
  }

  /** The categories one draw `attempt` spawns, walking the table with the
      running total `acc`: every entry whose running total exceeds the draw,
      since the walk never stops early. */
  function DrawnFrom(table: seq<Weight>, attempt: int, acc: int): (r: seq<MapObjectType>)
    ensures |r| <= |table|
  {
    if table == [] then []
    else
      (if attempt < acc + table[0].value then [table[0].kind] else [])
      + DrawnFrom(table[1..], attempt, acc + table[0].value)
  }

  /** One step of the walk over the table, at entry `j`: what is spawned so
      far plus what the rest of the walk spawns stays the whole draw. */
  lemma WalkStep(done: seq<MapObjectType>, table: seq<Weight>, j: int, attempt: int, acc: int,
                 whole: seq<MapObjectType>)
    requires 0 <= j < |table|
    requires done + DrawnFrom(table[j..], attempt, acc) == whole
    ensures attempt < acc + table[j].value ==>
              (done + [table[j].kind]) + DrawnFrom(table[j + 1..], attempt, acc + table[j].value) == whole
    ensures attempt >= acc + table[j].value ==>
              done + DrawnFrom(table[j + 1..], attempt, acc + table[j].value) == whole
  {
    assert table[j..][1..] == table[j + 1..];
    var tail := DrawnFrom(table[j + 1..], attempt, acc + table[j].value);
    if attempt < acc + table[j].value {
      AppendAssoc(done, [table[j].kind], tail);
    } else {
      assert [] + tail == tail;
    }
  }

  function Drawn(table: seq<Weight>, attempt: int): seq<MapObjectType>
  {
    DrawnFrom(table, attempt, 0)
  }

  /** The index of the first entry whose running total exceeds the draw; |table| if none does. */
  function FirstExceeding(table: seq<Weight>, attempt: int, acc: int): (r: nat)
    ensures r <= |table|
  {
    if table == [] then 0
    else if attempt < acc + table[0].value then 0
    else 1 + FirstExceeding(table[1..], attempt, acc + table[0].value)
  }

  predicate NonNegative(table: seq<Weight>)
  {
    forall i :: 0 <= i < |table| ==> table[i].value >= 0
  }

  /** Once the running total exceeds the draw, every later entry is spawned too. */
  lemma {:induction false} DrawnAllOnceExceeded(table: seq<Weight>, attempt: int, acc: int)
    requires NonNegative(table)
    requires attempt < acc
    ensures DrawnFrom(table, attempt, acc) == WeightKinds(table)
  {
    if table != [] {
      DrawnAllOnceExceeded(table[1..], attempt, acc + table[0].value);
      assert WeightKinds(table) == [table[0].kind] + WeightKinds(table[1..]);
    }
  }

  /** Without a break, a draw spawns the category it selects and every one after it. */
  lemma {:induction false} DrawnIsSuffix(table: seq<Weight>, attempt: int, acc: int)
    requires NonNegative(table)
    ensures DrawnFrom(table, attempt, acc) == WeightKinds(table)[FirstExceeding(table, attempt, acc)..]
  {
    if table != [] {
      var acc' := acc + table[0].value;
      assert WeightKinds(table) == [table[0].kind] + WeightKinds(table[1..]);
      if attempt < acc' {
        DrawnAllOnceExceeded(table[1..], attempt, acc');
      } else {
        DrawnIsSuffix(table[1..], attempt, acc');
      }
    }
  }

  /** A draw below the table's total always selects some entry. */
  lemma {:induction false} DrawSelects(table: seq<Weight>, attempt: int, acc: int)
    requires acc <= attempt < acc + WeightSum(table)
    ensures FirstExceeding(table, attempt, acc) < |table|
  {
    if table != [] && attempt >= acc + table[0].value {
      DrawSelects(table[1..], attempt, acc + table[0].value);
    }
  }

  /** The cumulative boundaries of the initial table: 10, 40, 50, 100. */
  function InitialFirstIndex(attempt: int): nat
  {
    if attempt < 10 then 0 else if attempt < 40 then 1 else if attempt < 50 then 2 else 3
  }

  /** Each draw in [0, 100) spawns between one and four objects: the selected
      category and all later ones in table order. */
  lemma InitialDraw(attempt: int)
    requires 0 <= attempt < 100
    ensures Drawn(InitialWeights, attempt) == [Tree, Bush, Puddle, Stone][InitialFirstIndex(attempt)..]
    ensures 1 <= |Drawn(InitialWeights, attempt)| <= 4
  {
    assert NonNegative(InitialWeights);
    DrawnIsSuffix(InitialWeights, attempt, 0);
    assert WeightKinds(InitialWeights) == [Tree, Bush, Puddle, Stone];
    var t1 := InitialWeights[1..];
    var t2 := t1[1..];
    var t3 := t2[1..];
    assert t3 == [Weight(Stone, 50)];
    assert FirstExceeding(t3, attempt, 50) == 0;
    assert FirstExceeding(t2, attempt, 40) == if attempt < 50 then 0 else 1;
    assert FirstExceeding(t1, attempt, 10) == if attempt < 40 then 0 else 1 + FirstExceeding(t2, attempt, 40);
  }

  // ---------------------------------------------------------------------
  // Spacing of the extra bushes

  /** A distance as the source's float loop sees it: below every distance
      (float.MinValue), a squared distance, or above every distance (float.MaxValue). */
  datatype Bound = MinValue | Dist(sq: real) | MaxValue

  /** Strict order on bounds. */
  predicate Below(a: Bound, b: Bound)
  {
    match a
    case MinValue => !b.MinValue?
    case Dist(x) => b.MaxValue? || (b.Dist? && x < b.sq)
    case MaxValue => false
  }

  /** The distance from `c` to the nearest of `bushes` (MaxValue when there are none). */
  function Nearest(bushes: seq<Point>, c: Point): (d: Bound)
    ensures bushes == [] <==> d == MaxValue
    ensures d != MinValue
  {
    if bushes == [] then MaxValue
    else
      var rest := Nearest(bushes[..|bushes| - 1], c);
      var here := Dist(SqDist(bushes[|bushes| - 1], c));
      if Below(here, rest) then here else rest
  }

  /** Nearest is the least squared distance from `c` to a bush, attained by one of them. */
  lemma {:induction false} NearestIsMinimum(bushes: seq<Point>, c: Point)
    ensures Nearest(bushes, c).Dist? ==>
              forall k :: 0 <= k < |bushes| ==> Nearest(bushes, c).sq <= SqDist(bushes[k], c)
    ensures Nearest(bushes, c).Dist? ==>
              exists k :: 0 <= k < |bushes| && Nearest(bushes, c).sq == SqDist(bushes[k], c)
  {
    if bushes != [] {
      var n := |bushes| - 1;
      var init := bushes[..n];
      NearestIsMinimum(init, c);
      assert forall k :: 0 <= k < n ==> init[k] == bushes[k];
      var d := Nearest(bushes, c);
      if init != [] && d == Nearest(init, c) {
        var k :| 0 <= k < n && Nearest(init, c).sq == SqDist(init[k], c);
        assert d.sq == SqDist(bushes[k], c);
      } else {
        assert d.sq == SqDist(bushes[n], c);
      }
    }
  }

  /** A candidate is far enough when its nearest bush is farther than the floor. */
  predicate FarEnough(d: Bound)
  {
    Below(Dist(MinAllowedBushInterval * MinAllowedBushInterval), d)
  }

  /** Below is a strict total order, so its negation chains. */
  lemma NotBelowTrans(a: Bound, b: Bound, c: Bound)
    requires !Below(a, b) && !Below(b, c)
    ensures !Below(a, c)
  {
  }

  /** The neighbourhood filter of SpawnAdditionalBush as written: x strictly
      within half the display width, z only bounded above, by half the width. */
  predicate InBushNeighborhood(p: Point, axis: Point, dx: real)
  {
    p.x < axis.x + dx / 2.0 && p.x > axis.x - dx / 2.0
    && p.z < axis.z + dx / 2.0 && p.z < axis.z + dx / 2.0
  }

  function NearbyBushes(positions: seq<Point>, axis: Point, dx: real): (r: seq<Point>)
    ensures forall p :: p in r <==> p in positions && InBushNeighborhood(p, axis, dx)
  {
    if positions == [] then []
    else
      var init := positions[..|positions| - 1];
      var last := positions[|positions| - 1];
      assert positions == init + [last];
      NearbyBushes(init, axis, dx) + (if InBushNeighborhood(last, axis, dx) then [last] else [])
  }

  /** The positions of the bushes, in `_spawnedBushes` order. */
  function BushPositions(prefabs: seq<MapObject>, bushes: seq<nat>): seq<Point>
    requires forall k :: 0 <= k < |bushes| ==> bushes[k] < |prefabs|
  {
    seq(|bushes|, k requires 0 <= k < |bushes| => prefabs[bushes[k]].position)
  }

  /** What one attempt of SpawnAdditionalBush does to the object list
      `before`, leaving `after`: ten candidates in the region around `axis`;
      a bush is appended exactly when some candidate is far enough from the
      nearby bushes; it goes at the candidate `chosen`, whose nearest-bush
      distance is maximal and strictly beats every earlier candidate's; with
      no nearby bush, candidate 0 always gets it. */
  ghost predicate BushAttempt(before: seq<MapObject>, after: seq<MapObject>, axis: Point, dx: real, dy: real,
                              candidates: seq<Point>, chosen: nat)
  {
    var nearby := NearbyBushes(BushPositions(before, BushIndices(before)), axis, dx);
    && |before| <= |after| && after[..|before|] == before
    && |candidates| == CandidateCount
    && (forall k :: 0 <= k < |candidates| ==> InClosed(candidates[k], RegionRect(axis, dx, dy)))
    && (|after| == |before| + 1 <==>
          exists k :: 0 <= k < |candidates| && FarEnough(Nearest(nearby, candidates[k])))
    && (|after| == |before| + 1 ==>
          && chosen < |candidates|
          && after[|before|] == MapObject(Bush, candidates[chosen], 0, true)
          && FarEnough(Nearest(nearby, candidates[chosen]))
          && (forall k :: 0 <= k < |candidates| ==>
                !Below(Nearest(nearby, candidates[chosen]), Nearest(nearby, candidates[k])))
          && (forall k :: 0 <= k < chosen ==>
                Below(Nearest(nearby, candidates[k]), Nearest(nearby, candidates[chosen]))))
    && (nearby == [] ==> |after| == |before| + 1 && chosen == 0)
  }

  /** The first loop of SpawnAdditionalBush: the bushes in the neighbourhood of `axis`. */
  method CollectNearbyBushes(positions: seq<Point>, axis: Point, dx: real) returns (r: seq<Point>)
    ensures r == NearbyBushes(positions, axis, dx)
  {
    r := [];
    for i := 0 to |positions|
      invariant r == NearbyBushes(positions[..i], axis, dx)
    {
      assert positions[..i + 1][..i] == positions[..i];
      if positions[i].x < axis.x + dx / 2.0 && positions[i].x > axis.x - dx / 2.0
         && positions[i].z < axis.z + dx / 2.0 && positions[i].z < axis.z + dx / 2.0 {
        r := r + [positions[i]];
      }
    }
    assert positions[..|positions|] == positions;
  }

  /** The inner loop of SpawnAdditionalBush: the distance from `c` to its nearest bush. */
  method NearestBushDistance(bushes: seq<Point>, c: Point) returns (d: Bound)
    ensures d == Nearest(bushes, c)
  {
    d := MaxValue;
    for i := 0 to |bushes|
      invariant d == Nearest(bushes[..i], c)
    {
      assert bushes[..i + 1][..i] == bushes[..i];
      var currentDist := Dist(SqDist(bushes[i], c));
      if Below(currentDist, d) {
        d := currentDist;
      }
    }
    assert bushes[..|bushes|] == bushes;
  }

  /** The max-min choice of SpawnAdditionalBush: the candidate whose nearest
      bush is farthest, the lowest index among ties. With no candidates the
      index stays 0 and the best distance stays float.MinValue. */
  method FarthestCandidate(bushes: seq<Point>, candidates: seq<Point>) returns (index: nat, best: Bound)
    ensures candidates == [] <==> best == MinValue
    ensures candidates == [] ==> index == 0
    ensures candidates != [] ==> index < |candidates| && best == Nearest(bushes, candidates[index])
    ensures forall j :: 0 <= j < |candidates| ==> !Below(best, Nearest(bushes, candidates[j]))
    ensures forall j :: 0 <= j < index ==> Below(Nearest(bushes, candidates[j]), best)
    ensures bushes == [] && candidates != [] ==> index == 0 && best == MaxValue
  {
    best := MinValue;
    index := 0;
    for i := 0 to |candidates|
      invariant i == 0 <==> best == MinValue
      invariant i == 0 ==> index == 0
      invariant i > 0 ==> index < i && best == Nearest(bushes, candidates[index])
      invariant forall j :: 0 <= j < i ==> !Below(best, Nearest(bushes, candidates[j]))
      invariant forall j :: 0 <= j < index ==> Below(Nearest(bushes, candidates[j]), best)
      invariant bushes == [] && i > 0 ==> index == 0 && best == MaxValue
    {
      var dist := NearestBushDistance(bushes, candidates[i]);
      if Below(best, dist) {
        best := dist;
        index := i;
      }
    }
  }

  // ---------------------------------------------------------------------
  // The manager

  /** The indices of the bushes among `prefabs`, in increasing order: what
      `_spawnedBushes` holds, since every bush is added to both lists and
      nothing is ever removed. */
  function BushIndices(prefabs: seq<MapObject>): (r: seq<nat>)
    ensures forall k :: 0 <= k < |r| ==> r[k] < |prefabs|
  {
    if prefabs == [] then []
    else
      var n := |prefabs| - 1;
      BushIndices(prefabs[..n]) + (if prefabs[n].kind == Bush then [n] else [])
  }

  /** `_spawnedBushes` is the bush sublist of `_spawnedPrefabs`: the same objects, seen through both lists. */
  ghost predicate BushesListed(prefabs: seq<MapObject>, bushes: seq<nat>)
  {
    bushes == BushIndices(prefabs)
  }

  /** The bush list names only bushes, each once, in spawn order, and names every bush. */
  lemma {:induction false} BushIndicesExact(prefabs: seq<MapObject>)
    ensures forall k :: 0 <= k < |BushIndices(prefabs)| ==> prefabs[BushIndices(prefabs)[k]].kind == Bush
    ensures forall k, l :: 0 <= k < l < |BushIndices(prefabs)| ==> BushIndices(prefabs)[k] < BushIndices(prefabs)[l]
    ensures forall i :: 0 <= i < |prefabs| && prefabs[i].kind == Bush ==> i in BushIndices(prefabs)
  {
    if prefabs != [] {
      var n := |prefabs| - 1;
      var init := prefabs[..n];
      BushIndicesExact(init);
      var r, r0 := BushIndices(prefabs), BushIndices(init);
      assert r == r0 + (if prefabs[n].kind == Bush then [n] else []);
      forall k | 0 <= k < |r|
        ensures prefabs[r[k]].kind == Bush
      {
        if k < |r0| {
          assert init[r0[k]] == prefabs[r0[k]];
        }
      }
      forall i | 0 <= i < |prefabs| && prefabs[i].kind == Bush
        ensures i in r
      {
        if i < n {
          assert init[i] == prefabs[i];
          var k :| 0 <= k < |r0| && r0[k] == i;
          assert r[k] == i;
        } else {
          assert r[|r0|] == i;
        }
      }
    }
  }

  /** Switching flags does not change which objects are bushes. */
  lemma {:induction false} FlagsKeepBushIndices(a: seq<MapObject>, b: seq<MapObject>)
    requires SamePlacement(a, b)
    ensures BushIndices(a) == BushIndices(b)
  {
    if a != [] {
      FlagsKeepBushIndices(a[..|a| - 1], b[..|b| - 1]);
    }
  }

  /** Spawning an object extends the bush list by its index exactly when it is a bush. */
  lemma AppendBushIndices(prefabs: seq<MapObject>, o: MapObject)
    ensures BushIndices(prefabs + [o]) == BushIndices(prefabs) + (if o.kind == Bush then [|prefabs|] else [])
  {
    assert (prefabs + [o])[..|prefabs|] == prefabs;
  }

  class ObstaclesManager {
    const tank: Anchor
    var possibilities: seq<Weight>
    var currentAxisPoint: Point
    var spawnedPrefabs: seq<MapObject>
    /** Indices into spawnedPrefabs: the source keeps the same objects in a second list. */
    var spawnedBushes: seq<nat>
    /** `_filledPrefabTiles`: only tested with Contains and added to after a failed
        Contains, so the set of its elements is all that matters. */
    var filledPrefabTiles: set<Point>
    var displaySizeX: real
    var displaySizeY: real
    var isInitialized: bool
    var lastBushSpawnTime: real

    /** The region lattice: the axis point is always the initial anchor
        position plus whole multiples of the display size (`Scaled` is
        multiplication, by ScaledIsProduct). */
    ghost var gridOrigin: Point
    ghost var axisStepsX: int
    ghost var axisStepsZ: int

    /** What PlaceObstacles needs: the weight table and a positive display size. */
    ghost predicate Ready()
      reads this`spawnedPrefabs, this`spawnedBushes, this`possibilities, this`displaySizeX, this`displaySizeY
    {
      BushesListed(spawnedPrefabs, spawnedBushes)
      && possibilities == InitialWeights && displaySizeX > 0.0 && displaySizeY > 0.0
    }

    ghost predicate OnGrid()
      reads this`currentAxisPoint, this`gridOrigin, this`axisStepsX, this`axisStepsZ,
            this`displaySizeX, this`displaySizeY
    {
      currentAxisPoint == Point(gridOrigin.x + Scaled(axisStepsX, displaySizeX),
                                gridOrigin.z + Scaled(axisStepsZ, displaySizeY))
    }

    ghost predicate Valid()
      reads this
    {
      BushesListed(spawnedPrefabs, spawnedBushes)
      && (isInitialized ==> Ready() && OnGrid())
      && (!isInitialized ==> possibilities == [])
    }

    /** Awake: empty lists and an empty weight table. */
    constructor (tank: Anchor)
      ensures this.tank == tank
      ensures Valid() && !isInitialized
      ensures spawnedPrefabs == [] && spawnedBushes == [] && filledPrefabTiles == {}
    {
      this.tank := tank;
      possibilities := [];
      spawnedPrefabs := [];
      spawnedBushes := [];
      filledPrefabTiles := {};
      isInitialized := false;
    }

    /** Runs once the tank's pose is loaded: fills the weight table, takes the
        display size and populates the regions around the tank. */
    method Init(dx: real, dy: real, now: real, rng: RandomSource)
      requires Valid() && !isInitialized
      requires dx > 0.0 && dy > 0.0
      modifies this`currentAxisPoint, this`possibilities, this`displaySizeX, this`displaySizeY,
               this`spawnedPrefabs, this`spawnedBushes, this`filledPrefabTiles, this`lastBushSpawnTime,
               this`isInitialized, this`gridOrigin, this`axisStepsX, this`axisStepsZ, rng
      ensures Valid() && isInitialized
      ensures possibilities == InitialWeights
      ensures displaySizeX == dx && displaySizeY == dy
      ensures currentAxisPoint == tank.position
      ensures lastBushSpawnTime == now
      ensures AllListed(RegionCentres(currentAxisPoint, dx, dy), filledPrefabTiles)
    {
      SetUp(dx, dy);
      ghost var _ := PlaceObstacles(currentAxisPoint, rng);
      lastBushSpawnTime := now;
      isInitialized := true;
    }

    /** The part of Init before the first placement: the axis point starts
        at the tank, the weight table is filled and the display size is set. */
    method SetUp(dx: real, dy: real)
      requires BushesListed(spawnedPrefabs, spawnedBushes) && possibilities == []
      requires dx > 0.0 && dy > 0.0
      modifies this`currentAxisPoint, this`possibilities, this`displaySizeX, this`displaySizeY,
               this`gridOrigin, this`axisStepsX, this`axisStepsZ
      ensures Ready() && OnGrid()
      ensures displaySizeX == dx && displaySizeY == dy
      ensures currentAxisPoint == tank.position
    {
      currentAxisPoint := tank.position;
      AddInitialPossibilities();
      displaySizeX := dx;
      displaySizeY := dy;
      gridOrigin, axisStepsX, axisStepsZ := currentAxisPoint, 0, 0;
    }

    /** The four Adds of Init, in insertion order. */
    method AddInitialPossibilities()
      requires possibilities == []
      modifies this`possibilities
      ensures possibilities == InitialWeights
    {
      possibilities := possibilities + [Weight(Tree, 10)];
      possibilities := possibilities + [Weight(Bush, 30)];
      possibilities := possibilities + [Weight(Puddle, 10)];
      possibilities := possibilities + [Weight(Stone, 50)];
    }

    /** Every region of the 3x3 block around `axis` not yet filled is filled
        and recorded; already filled regions are skipped, so a second call
        with the same axis changes nothing. */
    method PlaceObstacles(axis: Point, rng: RandomSource) returns (ghost newTiles: set<Point>)
      requires Ready()
      modifies this`spawnedPrefabs, this`spawnedBushes, this`filledPrefabTiles, rng
      ensures Ready()
      ensures AllListed(RegionCentres(axis, displaySizeX, displaySizeY), filledPrefabTiles)
      ensures filledPrefabTiles == old(filledPrefabTiles) + newTiles
      ensures newTiles !! old(filledPrefabTiles)
      ensures forall t :: t in newTiles ==> t in RegionCentres(axis, displaySizeX, displaySizeY)
      ensures Extends(old(spawnedPrefabs), spawnedPrefabs)
      ensures RaisedOnlyIn(old(spawnedPrefabs), spawnedPrefabs, Window(axis, displaySizeX, displaySizeY))
      ensures (AllListed(RegionCentres(axis, displaySizeX, displaySizeY), old(filledPrefabTiles)))
                ==> newTiles == {} && spawnedPrefabs == old(spawnedPrefabs)
    {
      var tilesToFill := RegionCentres(axis, displaySizeX, displaySizeY);
      newTiles := {};
      ghost var firstNew := -1;
      for i := 0 to |tilesToFill|
        invariant Ready()
        invariant forall j :: 0 <= j < i ==> tilesToFill[j] in filledPrefabTiles
        invariant filledPrefabTiles == old(filledPrefabTiles) + newTiles
        invariant newTiles !! old(filledPrefabTiles)
        invariant forall t :: t in newTiles ==> t in tilesToFill
        invariant Extends(old(spawnedPrefabs), spawnedPrefabs)
        invariant RaisedOnlyIn(old(spawnedPrefabs), spawnedPrefabs, Window(axis, displaySizeX, displaySizeY))
        invariant -1 <= firstNew < i
        invariant firstNew == -1 ==> newTiles == {} && spawnedPrefabs == old(spawnedPrefabs)
        invariant firstNew >= 0 ==> tilesToFill[firstNew] !in old(filledPrefabTiles)
      {
        var tile := tilesToFill[i];
        ghost var prefabsBefore := spawnedPrefabs;
        if tile !in filledPrefabTiles {
          var _, added := FillTile(tile, rng);
          ExtendsTrans(old(spawnedPrefabs), prefabsBefore, spawnedPrefabs);
          FillRaisesOnlyInWindow(prefabsBefore, added, tile, axis, displaySizeX, displaySizeY);
          RaisedOnlyInTrans(old(spawnedPrefabs), prefabsBefore, spawnedPrefabs,
                            Window(axis, displaySizeX, displaySizeY));
          newTiles := newTiles + {tile};
          firstNew := i;
        }
      }
    }

    /** The body of the placement loop for a tile not yet filled: fill its
        region, then record the tile. */
    method FillTile(tile: Point, rng: RandomSource) returns (count: int, ghost added: seq<MapObject>)
      requires Ready()
      modifies this`spawnedPrefabs, this`spawnedBushes, this`filledPrefabTiles, rng
      ensures Ready()
      ensures count >= MaxVisibleCount
      ensures spawnedPrefabs
              == ActivateInRect(old(spawnedPrefabs), RegionRect(tile, displaySizeX, displaySizeY)) + added
      ensures count == CountInRect(old(spawnedPrefabs), RegionRect(tile, displaySizeX, displaySizeY)) + |added|
      ensures added != [] ==> count <= MaxVisibleCount + 3
      ensures forall i :: 0 <= i < |added| ==>
                InClosed(added[i].position, RegionRect(tile, displaySizeX, displaySizeY))
      ensures Extends(old(spawnedPrefabs), spawnedPrefabs)
      ensures filledPrefabTiles == old(filledPrefabTiles) + {tile}
    {
      count, added := FillRegion(tile, rng);
      ExtendsByFlagsAndAppend(old(spawnedPrefabs),
                              ActivateInRect(old(spawnedPrefabs), RegionRect(tile, displaySizeX, displaySizeY)), added);
      filledPrefabTiles := filledPrefabTiles + {tile};
    }

    /** The fill loop of one region: counts the objects already inside it, then
        draws until the count reaches MaxVisibleCount. Every pass spawns at
        least one object, since the weights add up to 100 and a draw is below 100. */
    method FillRegion(tile: Point, rng: RandomSource) returns (count: int, ghost added: seq<MapObject>)
      requires Ready()
      modifies this`spawnedPrefabs, this`spawnedBushes, rng
      ensures Ready()
      ensures count >= MaxVisibleCount
      ensures spawnedPrefabs
              == ActivateInRect(old(spawnedPrefabs), RegionRect(tile, displaySizeX, displaySizeY)) + added
      ensures count == CountInRect(old(spawnedPrefabs), RegionRect(tile, displaySizeX, displaySizeY)) + |added|
      ensures added != [] ==> count <= MaxVisibleCount + 3
      ensures forall i :: 0 <= i < |added| ==>
                InClosed(added[i].position, RegionRect(tile, displaySizeX, displaySizeY))
    {
      count := GetNearestMapObjects(tile);
      FlagsKeepBushIndices(old(spawnedPrefabs), spawnedPrefabs);
      ghost var counted := spawnedPrefabs;
      added := [];
      while count < MaxVisibleCount
        invariant Ready()
        invariant spawnedPrefabs == counted + added
        invariant count == CountInRect(old(spawnedPrefabs), RegionRect(tile, displaySizeX, displaySizeY)) + |added|
        invariant added != [] ==> count <= MaxVisibleCount + 3
        invariant forall i :: 0 <= i < |added| ==>
                    InClosed(added[i].position, RegionRect(tile, displaySizeX, displaySizeY))
        decreases MaxVisibleCount - count
      {
        var spawned, more := DrawOnce(tile, rng);
        AppendAssoc(counted, added, more);
        added := added + more;
        count := count + spawned;
      }
    }

    /** One pass of the fill loop: a draw in [0, 100) and its spawns, between one and four objects. */
    method DrawOnce(tile: Point, rng: RandomSource) returns (spawned: nat, ghost added: seq<MapObject>)
      requires Ready()
      modifies this`spawnedPrefabs, this`spawnedBushes, rng
      ensures Ready()
      ensures spawnedPrefabs == old(spawnedPrefabs) + added
      ensures spawned == |added| && 1 <= spawned <= 4
      ensures forall i :: 0 <= i < |added| ==>
                InClosed(added[i].position, RegionRect(tile, displaySizeX, displaySizeY))
    {
      var attempt := rng.RangeInt(0, 100);
      InitialDraw(attempt);
      spawned, added := SpawnDrawn(tile, attempt, rng);
      assert |KindsOf(added)| == |added|;
    }

    /** One draw: walks the weight table with a running total and spawns every
        category whose running total exceeds `attempt`. */
    method SpawnDrawn(tile: Point, attempt: int, rng: RandomSource) returns (spawned: nat, ghost added: seq<MapObject>)
      requires BushesListed(spawnedPrefabs, spawnedBushes)
      requires displaySizeX >= 0.0 && displaySizeY >= 0.0
      modifies this`spawnedPrefabs, this`spawnedBushes, rng
      ensures BushesListed(spawnedPrefabs, spawnedBushes)
      ensures spawnedPrefabs == old(spawnedPrefabs) + added
      ensures KindsOf(added) == Drawn(possibilities, attempt)
      ensures spawned == |added|
      ensures forall i :: 0 <= i < |added| ==>
                InClosed(added[i].position, RegionRect(tile, displaySizeX, displaySizeY))
    {
      added := [];
      var table := possibilities;
      ghost var whole := Drawn(table, attempt);
      ghost var rect := RegionRect(tile, displaySizeX, displaySizeY);
      var targetPossibility := 0;
      spawned := 0;
      for j := 0 to |table|
        modifies this`spawnedPrefabs, this`spawnedBushes, rng
        invariant BushesListed(spawnedPrefabs, spawnedBushes)
        invariant spawnedPrefabs == old(spawnedPrefabs) + added && |added| == spawned
        invariant forall i :: 0 <= i < |added| ==> InClosed(added[i].position, rect)
        invariant KindsOf(added) + DrawnFrom(table[j..], attempt, targetPossibility) == whole
      {
        WalkStep(KindsOf(added), table, j, attempt, targetPossibility, whole);
        targetPossibility := targetPossibility + table[j].value;
        if attempt < targetPossibility {
          ghost var o := SpawnNewMapObject(tile, table[j].kind, rng);
          AppendAssoc(old(spawnedPrefabs), added, [o]);
          KindsOfAppend(added, o);
          added := added + [o];
          spawned := spawned + 1;
        }
      }
    }

    /** Counts the objects strictly inside the region around `axis` and
        switches them on; nothing is added or removed. */
    method GetNearestMapObjects(axis: Point) returns (result: int)
      modifies this`spawnedPrefabs
      ensures result == CountInRect(old(spawnedPrefabs), RegionRect(axis, displaySizeX, displaySizeY))
      ensures spawnedPrefabs == ActivateInRect(old(spawnedPrefabs), RegionRect(axis, displaySizeX, displaySizeY))
    {
      var rect := RegionRect(axis, displaySizeX, displaySizeY);
      result := 0;
      for i := 0 to |spawnedPrefabs|
        invariant |spawnedPrefabs| == |old(spawnedPrefabs)|
        invariant result == CountInRect(old(spawnedPrefabs)[..i], rect)
        invariant forall k :: 0 <= k < i ==> spawnedPrefabs[k] == Activated(old(spawnedPrefabs)[k], rect)
        invariant forall k :: i <= k < |spawnedPrefabs| ==> spawnedPrefabs[k] == old(spawnedPrefabs)[k]
      {
        CountStep(old(spawnedPrefabs), i, rect);
        var o := spawnedPrefabs[i];
        if StrictlyInside(o.position, rect) {
          spawnedPrefabs := spawnedPrefabs[i := o.(active := true)];
          result := result + 1;
        }
      }
      assert old(spawnedPrefabs)[..|old(spawnedPrefabs)|] == old(spawnedPrefabs);
      assert spawnedPrefabs == ActivateInRect(old(spawnedPrefabs), rect);
    }

    /** Spawns one object of `kind` at a random position of the region around
        `axis`, with a random whole-degree rotation; bushes also go on the bush list. */
    method SpawnNewMapObject(axis: Point, kind: MapObjectType, rng: RandomSource) returns (ghost o: MapObject)
      requires BushesListed(spawnedPrefabs, spawnedBushes)
      requires displaySizeX >= 0.0 && displaySizeY >= 0.0
      modifies this`spawnedPrefabs, this`spawnedBushes, rng
      ensures BushesListed(spawnedPrefabs, spawnedBushes)
      ensures spawnedPrefabs == old(spawnedPrefabs) + [o]
      ensures o.kind == kind && o.active && 0 <= o.rotation < 360
      ensures InClosed(o.position, RegionRect(axis, displaySizeX, displaySizeY))
      ensures spawnedBushes == old(spawnedBushes) + (if kind == Bush then [|old(spawnedPrefabs)|] else [])
    {
      var xPosition := rng.Range(axis.x - displaySizeX / 2.0, axis.x + displaySizeX / 2.0);
      var yPosition := rng.Range(axis.z - displaySizeY / 2.0, axis.z + displaySizeY / 2.0);
      var rotation := rng.RangeInt(0, 360);
      var instantiated := MapObject(kind, Point(xPosition, yPosition), rotation, true);
      o := instantiated;
      AppendBushIndices(spawnedPrefabs, instantiated);
      if kind == Bush {
        spawnedBushes := spawnedBushes + [|spawnedPrefabs|];
      }
      spawnedPrefabs := spawnedPrefabs + [instantiated];
    }

    /** Draws 10 candidate positions around `axis` and spawns a bush at the one
        farthest from the bushes nearby, if that distance exceeds the floor. */
    method SpawnAdditionalBush(axis: Point, rng: RandomSource) returns (ghost candidates: seq<Point>, ghost chosen: nat)
      requires BushesListed(spawnedPrefabs, spawnedBushes)
      requires displaySizeX >= 0.0 && displaySizeY >= 0.0
      modifies this`spawnedPrefabs, this`spawnedBushes, rng
      ensures BushesListed(spawnedPrefabs, spawnedBushes)
      ensures |candidates| == CandidateCount
      ensures forall k :: 0 <= k < |candidates| ==> InClosed(candidates[k], RegionRect(axis, displaySizeX, displaySizeY))
      ensures spawnedPrefabs == old(spawnedPrefabs) || |spawnedPrefabs| == |old(spawnedPrefabs)| + 1
      ensures spawnedPrefabs == old(spawnedPrefabs) ==> spawnedBushes == old(spawnedBushes)
      ensures |spawnedPrefabs| == |old(spawnedPrefabs)| + 1 ==>
                var nearby := NearbyBushes(BushPositions(old(spawnedPrefabs), old(spawnedBushes)), axis, displaySizeX);
                var o := spawnedPrefabs[|old(spawnedPrefabs)|];
                && spawnedPrefabs[..|old(spawnedPrefabs)|] == old(spawnedPrefabs)
                && spawnedBushes == old(spawnedBushes) + [|old(spawnedPrefabs)|]
                && o.kind == Bush && o.active
                && o.position in candidates
                && (forall k :: 0 <= k < |candidates| ==> !Below(Nearest(nearby, o.position), Nearest(nearby, candidates[k])))
                && FarEnough(Nearest(nearby, o.position))
      ensures |spawnedPrefabs| == |old(spawnedPrefabs)| + 1 <==>
                exists k :: 0 <= k < |candidates| &&
                  FarEnough(Nearest(NearbyBushes(BushPositions(old(spawnedPrefabs), old(spawnedBushes)), axis, displaySizeX),
                                    candidates[k]))
      ensures NearbyBushes(BushPositions(old(spawnedPrefabs), old(spawnedBushes)), axis, displaySizeX) == []
              ==> |spawnedPrefabs| == |old(spawnedPrefabs)| + 1
      ensures |spawnedPrefabs| == |old(spawnedPrefabs)| + 1 ==>
                var nearby := NearbyBushes(BushPositions(old(spawnedPrefabs), old(spawnedBushes)), axis, displaySizeX);
                && chosen < |candidates|
                && spawnedPrefabs[|old(spawnedPrefabs)|] == MapObject(Bush, candidates[chosen], 0, true)
                && (forall k :: 0 <= k < chosen ==> Below(Nearest(nearby, candidates[k]), Nearest(nearby, candidates[chosen])))
      ensures NearbyBushes(BushPositions(old(spawnedPrefabs), old(spawnedBushes)), axis, displaySizeX) == []
              ==> chosen == 0
    {
      var positions := BushPositions(spawnedPrefabs, spawnedBushes);
      var bushCoordinatesInNeighborhood := CollectNearbyBushes(positions, axis, displaySizeX);
      var candidateCoordinates: seq<Point> := [];
      for i := 0 to CandidateCount
        modifies rng
        invariant |candidateCoordinates| == i
        invariant forall k :: 0 <= k < i ==>
                    InClosed(candidateCoordinates[k], RegionRect(axis, displaySizeX, displaySizeY))
      {
        var xPosition := rng.Range(axis.x - displaySizeX / 2.0, axis.x + displaySizeX / 2.0);
        var yPosition := rng.Range(axis.z - displaySizeY / 2.0, axis.z + displaySizeY / 2.0);
        candidateCoordinates := candidateCoordinates + [Point(xPosition, yPosition)];
      }
      candidates := candidateCoordinates;
      var maxDistIndex, maxDist := FarthestCandidate(bushCoordinatesInNeighborhood, candidateCoordinates);
      chosen := maxDistIndex;
      if FarEnough(maxDist) {
        var instantiated := MapObject(Bush, candidateCoordinates[maxDistIndex], 0, true);
        AppendBushIndices(spawnedPrefabs, instantiated);
        spawnedBushes := spawnedBushes + [|spawnedPrefabs|];
        spawnedPrefabs := spawnedPrefabs + [instantiated];
      } else {
        forall k | 0 <= k < |candidates|
          ensures !FarEnough(Nearest(bushCoordinatesInNeighborhood, candidates[k]))
        {
          NotBelowTrans(Dist(MinAllowedBushInterval * MinAllowedBushInterval), maxDist,
                        Nearest(bushCoordinatesInNeighborhood, candidates[k]));
        }
      }
    }

    /** Switches every object on exactly when it is strictly inside the
        visibility window around the axis point. */
    method SwapObjectsByDistance()
      modifies this`spawnedPrefabs
      ensures spawnedPrefabs == Culled(old(spawnedPrefabs), Window(currentAxisPoint, displaySizeX, displaySizeY))
    {
      var window := Window(currentAxisPoint, displaySizeX, displaySizeY);
      for i := 0 to |spawnedPrefabs|
        invariant |spawnedPrefabs| == |old(spawnedPrefabs)|
        invariant forall k :: 0 <= k < i ==> spawnedPrefabs[k] == CulledOne(old(spawnedPrefabs)[k], window)
        invariant forall k :: i <= k < |spawnedPrefabs| ==> spawnedPrefabs[k] == old(spawnedPrefabs)[k]
      {
        var o := spawnedPrefabs[i];
        if StrictlyInside(o.position, window) {
          spawnedPrefabs := spawnedPrefabs[i := o.(active := true)];
        } else {
          spawnedPrefabs := spawnedPrefabs[i := o.(active := false)];
        }
      }
      assert spawnedPrefabs == Culled(old(spawnedPrefabs), window);
    }

    /** The eight shift rules of Update, applied in turn to the axis point: a
        rule moves it by one display size towards `target` on the axes it tests. */
    method FollowAnchor(target: Point)
      requires OnGrid() && displaySizeX > 0.0 && displaySizeY > 0.0
      modifies this`currentAxisPoint, this`axisStepsX, this`axisStepsZ
      ensures OnGrid()
      ensures currentAxisPoint == ShiftAxis(old(currentAxisPoint), target, displaySizeX, displaySizeY)
    {
      EdgeRules(target);
      DiagonalRules(target);
    }

    /** The first four rules: one display size north, south, east or west,
        each when the other axis is within half a display size. */
    method EdgeRules(target: Point)
      requires OnGrid() && displaySizeX > 0.0 && displaySizeY > 0.0
      modifies this`currentAxisPoint, this`axisStepsX, this`axisStepsZ
      ensures OnGrid()
      ensures currentAxisPoint == EdgeShift(old(currentAxisPoint), target, displaySizeX, displaySizeY)
    {
      EdgeStep(target, 0, 1);
      EdgeStep(target, 0, -1);
      EdgeStep(target, 1, 0);
      EdgeStep(target, -1, 0);
    }

    /** One edge rule, towards direction (sx, sz). */
    method EdgeStep(target: Point, sx: int, sz: int)
      requires (sx == 0 && (sz == 1 || sz == -1)) || (sz == 0 && (sx == 1 || sx == -1))
      requires OnGrid()
      modifies this`currentAxisPoint, this`axisStepsX, this`axisStepsZ
      ensures OnGrid()
      ensures currentAxisPoint == EdgeRule(old(currentAxisPoint), target, displaySizeX, displaySizeY, sx, sz)
    {
      if sx == 0 {
        var oz := if sz > 0 then target.z - currentAxisPoint.z else currentAxisPoint.z - target.z;
        if oz >= displaySizeY / 2.0 && Abs(target.x - currentAxisPoint.x) <= displaySizeX / 2.0 {
          StepZ(sz);
        }
      } else {
        var ox := if sx > 0 then target.x - currentAxisPoint.x else currentAxisPoint.x - target.x;
        if ox >= displaySizeX / 2.0 && Abs(target.z - currentAxisPoint.z) <= displaySizeY / 2.0 {
          StepX(sx);
        }
      }
    }

    /** The last four rules: one display size diagonally, when both axes are
        at least half a display size away. */
    method DiagonalRules(target: Point)
      requires OnGrid() && displaySizeX > 0.0 && displaySizeY > 0.0
      modifies this`currentAxisPoint, this`axisStepsX, this`axisStepsZ
      ensures OnGrid()
      ensures currentAxisPoint == DiagonalShift(old(currentAxisPoint), target, displaySizeX, displaySizeY)
    {
      DiagonalStep(target, -1, -1);
      DiagonalStep(target, 1, -1);
      DiagonalStep(target, 1, 1);
      DiagonalStep(target, -1, 1);
    }

    /** One diagonal rule, towards quadrant (sx, sz). */
    method DiagonalStep(target: Point, sx: int, sz: int)
      requires sx == 1 || sx == -1
      requires sz == 1 || sz == -1
      requires OnGrid()
      modifies this`currentAxisPoint, this`axisStepsX, this`axisStepsZ
      ensures OnGrid()
      ensures currentAxisPoint == DiagonalRule(old(currentAxisPoint), target, displaySizeX, displaySizeY, sx, sz)
    {
      var ox := if sx > 0 then target.x - currentAxisPoint.x else currentAxisPoint.x - target.x;
      var oz := if sz > 0 then target.z - currentAxisPoint.z else currentAxisPoint.z - target.z;
      if ox >= displaySizeX / 2.0 && oz >= displaySizeY / 2.0 {
        StepX(sx);
        StepZ(sz);
      }
    }

    /** Moves the axis point by one display width, east (1) or west (-1). */
    method StepX(dir: int)
      requires dir == 1 || dir == -1
      requires OnGrid()
      modifies this`currentAxisPoint, this`axisStepsX
      ensures OnGrid()
      ensures dir == 1 ==> currentAxisPoint == Point(old(currentAxisPoint).x + displaySizeX, old(currentAxisPoint).z)
      ensures dir == -1 ==> currentAxisPoint == Point(old(currentAxisPoint).x - displaySizeX, old(currentAxisPoint).z)
      ensures axisStepsX == old(axisStepsX) + dir
    {
      ScaledStep(axisStepsX, displaySizeX);
      if dir == 1 {
        currentAxisPoint := Point(currentAxisPoint.x + displaySizeX, currentAxisPoint.z);
      } else {
        currentAxisPoint := Point(currentAxisPoint.x - displaySizeX, currentAxisPoint.z);
      }
      axisStepsX := axisStepsX + dir;
    }

    /** Moves the axis point by one display height, north (1) or south (-1). */
    method StepZ(dir: int)
      requires dir == 1 || dir == -1
      requires OnGrid()
      modifies this`currentAxisPoint, this`axisStepsZ
      ensures OnGrid()
      ensures dir == 1 ==> currentAxisPoint == Point(old(currentAxisPoint).x, old(currentAxisPoint).z + displaySizeY)
      ensures dir == -1 ==> currentAxisPoint == Point(old(currentAxisPoint).x, old(currentAxisPoint).z - displaySizeY)
      ensures axisStepsZ == old(axisStepsZ) + dir
    {
      ScaledStep(axisStepsZ, displaySizeY);
      if dir == 1 {
        currentAxisPoint := Point(currentAxisPoint.x, currentAxisPoint.z + displaySizeY);
      } else {
        currentAxisPoint := Point(currentAxisPoint.x, currentAxisPoint.z - displaySizeY);
      }
      axisStepsZ := axisStepsZ + dir;
    }

    /** One frame: culls by the window, fills the regions around the axis
        point, moves the axis point after the tank, and every 5 seconds tries
        an extra bush. Does nothing before Init. */
    method Update(now: real, rng: RandomSource)
      returns (ghost placed: seq<MapObject>, ghost candidates: seq<Point>, ghost chosen: nat)
      requires Valid()
      modifies this`spawnedPrefabs, this`spawnedBushes, this`filledPrefabTiles, this`currentAxisPoint,
               this`lastBushSpawnTime, this`axisStepsX, this`axisStepsZ, rng
      ensures Valid()
      ensures !isInitialized ==>
                spawnedPrefabs == old(spawnedPrefabs) && spawnedBushes == old(spawnedBushes)
                && filledPrefabTiles == old(filledPrefabTiles) && currentAxisPoint == old(currentAxisPoint)
                && lastBushSpawnTime == old(lastBushSpawnTime) && rng.cursor == old(rng.cursor)
      ensures isInitialized ==>
                lastBushSpawnTime == (if now - old(lastBushSpawnTime) > BushSpawnInterval then now else old(lastBushSpawnTime))
      ensures isInitialized ==>
                AllListed(RegionCentres(old(currentAxisPoint), displaySizeX, displaySizeY), filledPrefabTiles)
      ensures isInitialized ==>
                currentAxisPoint == ShiftAxis(old(currentAxisPoint), tank.position, displaySizeX, displaySizeY)
      ensures (isInitialized
               && Abs(tank.position.x - old(currentAxisPoint).x) < displaySizeX / 2.0
               && Abs(tank.position.z - old(currentAxisPoint).z) < displaySizeY / 2.0)
                ==> currentAxisPoint == old(currentAxisPoint)
      ensures old(filledPrefabTiles) <= filledPrefabTiles
      ensures Extends(old(spawnedPrefabs), placed) && Extends(placed, spawnedPrefabs)
      ensures |placed| <= |spawnedPrefabs| && spawnedPrefabs[..|placed|] == placed
      ensures isInitialized ==>
                CulledPrefix(old(spawnedPrefabs), spawnedPrefabs,
                             Window(old(currentAxisPoint), displaySizeX, displaySizeY))
      ensures |spawnedPrefabs| <= |placed| + 1
      ensures |spawnedPrefabs| == |placed| + 1 ==> spawnedPrefabs[|placed|].kind == Bush
      ensures now - old(lastBushSpawnTime) <= BushSpawnInterval ==> spawnedPrefabs == placed
      ensures isInitialized && now - old(lastBushSpawnTime) > BushSpawnInterval ==>
                BushAttempt(placed, spawnedPrefabs, tank.position, displaySizeX, displaySizeY, candidates, chosen)
    {
      placed, candidates, chosen := spawnedPrefabs, [], 0;
      if !isInitialized {
        return;
      }
      placed, candidates, chosen := UpdateInitialized(now, rng);
      ShiftAxisStays(old(currentAxisPoint), tank.position, displaySizeX, displaySizeY);
    }

    /** Update past its early return; `placed` is the object list between the
        placement and the bush timer. */
    method UpdateInitialized(now: real, rng: RandomSource)
      returns (ghost placed: seq<MapObject>, ghost candidates: seq<Point>, ghost chosen: nat)
      requires Ready() && OnGrid()
      modifies this`spawnedPrefabs, this`spawnedBushes, this`filledPrefabTiles, this`currentAxisPoint,
               this`lastBushSpawnTime, this`axisStepsX, this`axisStepsZ, rng
      ensures Ready() && OnGrid()
      ensures lastBushSpawnTime == (if now - old(lastBushSpawnTime) > BushSpawnInterval then now else old(lastBushSpawnTime))
      ensures AllListed(RegionCentres(old(currentAxisPoint), displaySizeX, displaySizeY), filledPrefabTiles)
      ensures currentAxisPoint == ShiftAxis(old(currentAxisPoint), tank.position, displaySizeX, displaySizeY)
      ensures old(filledPrefabTiles) <= filledPrefabTiles
      ensures Extends(old(spawnedPrefabs), placed) && Extends(placed, spawnedPrefabs)
      ensures |placed| <= |spawnedPrefabs| && spawnedPrefabs[..|placed|] == placed
      ensures CulledPrefix(old(spawnedPrefabs), spawnedPrefabs,
                           Window(old(currentAxisPoint), displaySizeX, displaySizeY))
      ensures |spawnedPrefabs| <= |placed| + 1
      ensures |spawnedPrefabs| == |placed| + 1 ==> spawnedPrefabs[|placed|].kind == Bush
      ensures now - old(lastBushSpawnTime) <= BushSpawnInterval ==> spawnedPrefabs == placed
      ensures now - old(lastBushSpawnTime) > BushSpawnInterval ==>
                BushAttempt(placed, spawnedPrefabs, tank.position, displaySizeX, displaySizeY, candidates, chosen)
    {
      var newAxisPoint := tank.position;
      RefreshObstacles(rng);
      placed := spawnedPrefabs;
      candidates, chosen := FollowAndSpawn(now, newAxisPoint, rng);
      CulledPrefixKept(old(spawnedPrefabs), placed, spawnedPrefabs,
                       Window(old(currentAxisPoint), displaySizeX, displaySizeY));
    }

    /** The second half of a frame after Init: move the axis point after the
        tank, then run the bush timer near the tank. */
    method FollowAndSpawn(now: real, target: Point, rng: RandomSource)
      returns (ghost candidates: seq<Point>, ghost chosen: nat)
      requires Ready() && OnGrid()
      modifies this`spawnedPrefabs, this`spawnedBushes, this`currentAxisPoint,
               this`lastBushSpawnTime, this`axisStepsX, this`axisStepsZ, rng
      ensures Ready() && OnGrid()
      ensures currentAxisPoint == ShiftAxis(old(currentAxisPoint), target, displaySizeX, displaySizeY)
      ensures lastBushSpawnTime == (if now - old(lastBushSpawnTime) > BushSpawnInterval then now else old(lastBushSpawnTime))
      ensures now - old(lastBushSpawnTime) <= BushSpawnInterval ==>
                spawnedPrefabs == old(spawnedPrefabs) && spawnedBushes == old(spawnedBushes)
                && rng.cursor == old(rng.cursor)
      ensures Extends(old(spawnedPrefabs), spawnedPrefabs)
      ensures |old(spawnedPrefabs)| <= |spawnedPrefabs| && spawnedPrefabs[..|old(spawnedPrefabs)|] == old(spawnedPrefabs)
      ensures |spawnedPrefabs| <= |old(spawnedPrefabs)| + 1
      ensures |spawnedPrefabs| == |old(spawnedPrefabs)| + 1 ==> spawnedPrefabs[|old(spawnedPrefabs)|].kind == Bush
      ensures now - old(lastBushSpawnTime) > BushSpawnInterval ==>
                BushAttempt(old(spawnedPrefabs), spawnedPrefabs, target, displaySizeX, displaySizeY, candidates, chosen)
    {
      FollowAnchor(target);
      candidates, chosen := BushTimer(now, target, rng);
    }

    /** The first half of a frame after Init: cull by the window around the
        current axis point, then fill the regions around it. */
    method RefreshObstacles(rng: RandomSource)
      requires Ready()
      modifies this`spawnedPrefabs, this`spawnedBushes, this`filledPrefabTiles, rng
      ensures Ready()
      ensures AllListed(RegionCentres(currentAxisPoint, displaySizeX, displaySizeY), filledPrefabTiles)
      ensures Extends(old(spawnedPrefabs), spawnedPrefabs)
      ensures old(filledPrefabTiles) <= filledPrefabTiles
      ensures forall t :: t in filledPrefabTiles && t !in old(filledPrefabTiles) ==>
                t in RegionCentres(currentAxisPoint, displaySizeX, displaySizeY)
      ensures CulledPrefix(old(spawnedPrefabs), spawnedPrefabs, Window(currentAxisPoint, displaySizeX, displaySizeY))
    {
      SwapObjectsByDistance();
      FlagsKeepBushIndices(old(spawnedPrefabs), spawnedPrefabs);
      ExtendsByFlagsAndAppend(old(spawnedPrefabs), spawnedPrefabs, []);
      assert spawnedPrefabs + [] == spawnedPrefabs;
      ghost var culled := spawnedPrefabs;
      ghost var _ := PlaceObstacles(currentAxisPoint, rng);
      ExtendsTrans(old(spawnedPrefabs), culled, spawnedPrefabs);
      CullThenRaise(old(spawnedPrefabs), spawnedPrefabs, Window(currentAxisPoint, displaySizeX, displaySizeY));
    }

    /** The bush timer: when more than BushSpawnInterval has passed since the
        last attempt, restart it and try one extra bush near `axis`. */
    method BushTimer(now: real, axis: Point, rng: RandomSource) returns (ghost candidates: seq<Point>, ghost chosen: nat)
      requires Ready()
      modifies this`spawnedPrefabs, this`spawnedBushes, this`lastBushSpawnTime, rng
      ensures Ready()
      ensures lastBushSpawnTime == (if now - old(lastBushSpawnTime) > BushSpawnInterval then now else old(lastBushSpawnTime))
      ensures now - old(lastBushSpawnTime) <= BushSpawnInterval ==>
                spawnedPrefabs == old(spawnedPrefabs) && spawnedBushes == old(spawnedBushes)
                && rng.cursor == old(rng.cursor)
      ensures Extends(old(spawnedPrefabs), spawnedPrefabs)
      ensures |old(spawnedPrefabs)| <= |spawnedPrefabs| && spawnedPrefabs[..|old(spawnedPrefabs)|] == old(spawnedPrefabs)
      ensures |spawnedPrefabs| <= |old(spawnedPrefabs)| + 1
      ensures |spawnedPrefabs| == |old(spawnedPrefabs)| + 1 ==> spawnedPrefabs[|old(spawnedPrefabs)|].kind == Bush
      ensures now - old(lastBushSpawnTime) > BushSpawnInterval ==>
                BushAttempt(old(spawnedPrefabs), spawnedPrefabs, axis, displaySizeX, displaySizeY, candidates, chosen)
    {
      candidates, chosen := [], 0;
      if now - lastBushSpawnTime > BushSpawnInterval {
        lastBushSpawnTime := now;
        candidates, chosen := SpawnAdditionalBush(axis, rng);
      }
    }
  }

  /** The four edge rules of Update applied in turn to the axis point `c`:
      north, south, east, west, each tested against the point the previous
      rule left. */
  function EdgeShift(c: Point, t: Point, dx: real, dy: real): Point
  {
    EdgeRule(EdgeRule(EdgeRule(EdgeRule(c, t, dx, dy, 0, 1), t, dx, dy, 0, -1),
                      t, dx, dy, 1, 0), t, dx, dy, -1, 0)
  }

  /** The edge rule towards direction (sx, sz), one of them zero: fires when
      the tank is at least half a display size beyond the axis point in that
      direction and at most half a display size off it on the other axis. */
  function EdgeRule(c: Point, t: Point, dx: real, dy: real, sx: int, sz: int): Point
  {
    if sx == 0 then
      var oz := if sz > 0 then t.z - c.z else c.z - t.z;
      if oz >= dy / 2.0 && Abs(t.x - c.x) <= dx / 2.0
      then Point(c.x, if sz > 0 then c.z + dy else c.z - dy)
      else c
    else
      var ox := if sx > 0 then t.x - c.x else c.x - t.x;
      if ox >= dx / 2.0 && Abs(t.z - c.z) <= dy / 2.0
      then Point(if sx > 0 then c.x + dx else c.x - dx, c.z)
      else c
  }

  /** The four diagonal rules of Update applied in turn: south-west,
      south-east, north-east, north-west. */
  function DiagonalShift(c: Point, t: Point, dx: real, dy: real): Point
  {
    DiagonalRule(DiagonalRule(DiagonalRule(DiagonalRule(c, t, dx, dy, -1, -1), t, dx, dy, 1, -1),
                              t, dx, dy, 1, 1), t, dx, dy, -1, 1)
  }

  /** The diagonal rule towards quadrant (sx, sz): fires when the tank is at
      least half a display size beyond the axis point on both axes in those directions. */
  function DiagonalRule(c: Point, t: Point, dx: real, dy: real, sx: int, sz: int): Point
  {
    var ox := if sx > 0 then t.x - c.x else c.x - t.x;
    var oz := if sz > 0 then t.z - c.z else c.z - t.z;
    if ox >= dx / 2.0 && oz >= dy / 2.0
    then Point(if sx > 0 then c.x + dx else c.x - dx, if sz > 0 then c.z + dy else c.z - dy)
    else c
  }

  /** Where the eight rules of one frame leave the axis point `c` when the tank is at `t`. */
  function ShiftAxis(c: Point, t: Point, dx: real, dy: real): Point
  {
    DiagonalShift(EdgeShift(c, t, dx, dy), t, dx, dy)
  }

  /** A tank within half a display size of the axis point on both axes leaves it in place. */
  lemma ShiftAxisStays(c: Point, t: Point, dx: real, dy: real)
    requires dx > 0.0 && dy > 0.0
    ensures Abs(t.x - c.x) < dx / 2.0 && Abs(t.z - c.z) < dy / 2.0 ==> ShiftAxis(c, t, dx, dy) == c
  {
  }

  /** Past the north line, within the east-west band: one step north. */
  lemma ShiftAxisNorth(c: Point, t: Point, dx: real, dy: real)
    requires dx > 0.0 && dy > 0.0
    requires Abs(t.x - c.x) < dx / 2.0 && t.z - c.z > dy / 2.0
    ensures ShiftAxis(c, t, dx, dy) == Point(c.x, c.z + dy)
  {
  }

  /** On or past the south line, within the east-west band: one step south. */
  lemma ShiftAxisSouth(c: Point, t: Point, dx: real, dy: real)
    requires dx > 0.0 && dy > 0.0
    requires Abs(t.x - c.x) < dx / 2.0 && c.z - t.z >= dy / 2.0
    ensures ShiftAxis(c, t, dx, dy) == Point(c.x, c.z - dy)
  {
  }

  /** Past the east line, within the north-south band: one step east. */
  lemma ShiftAxisEast(c: Point, t: Point, dx: real, dy: real)
    requires dx > 0.0 && dy > 0.0
    requires t.x - c.x > dx / 2.0 && Abs(t.z - c.z) < dy / 2.0
    ensures ShiftAxis(c, t, dx, dy) == Point(c.x + dx, c.z)
  {
  }

  /** On or past the west line, within the north-south band: one step west. */
  lemma ShiftAxisWest(c: Point, t: Point, dx: real, dy: real)
    requires dx > 0.0 && dy > 0.0
    requires c.x - t.x >= dx / 2.0 && Abs(t.z - c.z) < dy / 2.0
    ensures ShiftAxis(c, t, dx, dy) == Point(c.x - dx, c.z)
  {
  }

  /** Past the south and west lines: one diagonal step south-west. */
  lemma ShiftAxisSouthWest(c: Point, t: Point, dx: real, dy: real)
    requires dx > 0.0 && dy > 0.0
    requires c.x - t.x > dx / 2.0 && c.z - t.z > dy / 2.0
    ensures ShiftAxis(c, t, dx, dy) == Point(c.x - dx, c.z - dy)
  {
  }

  /** Past the south and east lines: one diagonal step south-east. */
  lemma ShiftAxisSouthEast(c: Point, t: Point, dx: real, dy: real)
    requires dx > 0.0 && dy > 0.0
    requires t.x - c.x > dx / 2.0 && c.z - t.z > dy / 2.0
    ensures ShiftAxis(c, t, dx, dy) == Point(c.x + dx, c.z - dy)
  {
  }

  /** Past the north and east lines: one diagonal step north-east. */
  lemma ShiftAxisNorthEast(c: Point, t: Point, dx: real, dy: real)
    requires dx > 0.0 && dy > 0.0
    requires t.x - c.x > dx / 2.0 && t.z - c.z > dy / 2.0
    ensures ShiftAxis(c, t, dx, dy) == Point(c.x + dx, c.z + dy)
  {
  }

  /** Past the north and west lines: one diagonal step north-west. */
  lemma ShiftAxisNorthWest(c: Point, t: Point, dx: real, dy: real)
    requires dx > 0.0 && dy > 0.0
    requires c.x - t.x > dx / 2.0 && t.z - c.z > dy / 2.0
    ensures ShiftAxis(c, t, dx, dy) == Point(c.x - dx, c.z + dy)
  {
  }

  /** The rules are applied one after another, each to the point the previous
      ones left, so a tank on the half-size lines can move the axis point by
      more than one step in one frame: here two heights north and one width east. */
  lemma ShiftAxisMultiStep()
    ensures ShiftAxis(Point(0.0, 0.0), Point(0.5, 1.5), 1.0, 1.0) == Point(1.0, 2.0)
  {
  }

  /** The categories of spawned objects, in order; compared with `WeightKinds`
      of the table to say which categories a draw spawned. */
  function KindsOf(objs: seq<MapObject>): (r: seq<MapObjectType>)
    ensures |r| == |objs|
    ensures forall i :: 0 <= i < |objs| ==> r[i] == objs[i].kind
  {
    seq(|objs|, i requires 0 <= i < |objs| => objs[i].kind)
  }

  /** `n` steps of length `d`, by repeated addition. */
  function Scaled(n: int, d: real): real
    decreases if n < 0 then -n else n
  {
    if n == 0 then 0.0
    else if n > 0 then Scaled(n - 1, d) + d
    else Scaled(n + 1, d) - d
  }

  /** Scaled is multiplication. */
  lemma {:induction false} ScaledIsProduct(n: int, d: real)
    ensures Scaled(n, d) == (n as real) * d
    decreases if n < 0 then -n else n
  {
    if n > 0 {
      ScaledIsProduct(n - 1, d);
      assert ((n - 1) as real) * d + d == (n as real) * d;
    } else if n < 0 {
      ScaledIsProduct(n + 1, d);
      assert ((n + 1) as real) * d - d == (n as real) * d;
    }
  }

  lemma ScaledStep(n: int, d: real)
    ensures Scaled(n + 1, d) == Scaled(n, d) + d
    ensures Scaled(n - 1, d) == Scaled(n, d) - d
  {
  }

  lemma AppendAssoc<T>(a: seq<T>, b: seq<T>, c: seq<T>)
    ensures (a + b) + c == a + (b + c)
  {
  }

  lemma KindsOfAppend(objs: seq<MapObject>, o: MapObject)
    ensures KindsOf(objs + [o]) == KindsOf(objs) + [o.kind]
  {
  }

  lemma ExtendsByFlagsAndAppend(a: seq<MapObject>, b: seq<MapObject>, added: seq<MapObject>)
    requires SamePlacement(a, b)
    ensures Extends(a, b + added)
  {
  }

  /** A region of the 3x3 block around `axis` lies inside the window around `axis`. */
  lemma RegionInsideWindow(tile: Point, axis: Point, dx: real, dy: real, p: Point)
    requires dx > 0.0 && dy > 0.0
    requires tile in RegionCentres(axis, dx, dy)
    requires StrictlyInside(p, RegionRect(tile, dx, dy))
    ensures StrictlyInside(p, Window(axis, dx, dy))
  {
    RegionCentresAround(axis, dx, dy);
  }

  /** Filling a region of the block around `axis` switches flags on only inside the window. */
  lemma FillRaisesOnlyInWindow(objs: seq<MapObject>, added: seq<MapObject>, tile: Point,
                               axis: Point, dx: real, dy: real)
    requires dx > 0.0 && dy > 0.0
    requires tile in RegionCentres(axis, dx, dy)
    ensures RaisedOnlyIn(objs, ActivateInRect(objs, RegionRect(tile, dx, dy)) + added, Window(axis, dx, dy))
  {
    var r := ActivateInRect(objs, RegionRect(tile, dx, dy)) + added;
    forall i | 0 <= i < |objs| && r[i].active && !objs[i].active
      ensures StrictlyInside(objs[i].position, Window(axis, dx, dy))
    {
      RegionInsideWindow(tile, axis, dx, dy, objs[i].position);
    }
  }

  lemma RaisedOnlyInTrans(a: seq<MapObject>, b: seq<MapObject>, c: seq<MapObject>, window: Rect)
    requires Extends(a, b) && RaisedOnlyIn(a, b, window) && RaisedOnlyIn(b, c, window)
    ensures RaisedOnlyIn(a, c, window)
  {
  }

  /** Culling and then switching flags on only inside the same window leaves
      each earlier object on exactly when it is inside. */
  lemma CullThenRaise(before: seq<MapObject>, after: seq<MapObject>, window: Rect)
    requires RaisedOnlyIn(Culled(before, window), after, window)
    ensures CulledPrefix(before, after, window)
  {
  }

  /** Appending after `mid` keeps the flags `CulledPrefix` speaks of. */
  lemma CulledPrefixKept(before: seq<MapObject>, mid: seq<MapObject>, after: seq<MapObject>, window: Rect)
    requires CulledPrefix(before, mid, window)
    requires |mid| <= |after| && after[..|mid|] == mid
    ensures CulledPrefix(before, after, window)
  {
    forall i | 0 <= i < |before|
      ensures after[i] == mid[i]
    {
      assert after[..|mid|][i] == after[i];
    }
  }

  lemma ExtendsTrans(a: seq<MapObject>, b: seq<MapObject>, c: seq<MapObject>)
    requires Extends(a, b) && Extends(b, c)
    ensures Extends(a, c)
  {
  }
}
