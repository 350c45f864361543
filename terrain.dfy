/** TerrainManager: streams 20x20 terrain tiles around the tank. Tiles are
    kept in a map from tile centre to tile; the 3x3 block around the current
    tile is present and active, and tiles farther than two tile sizes away
    are switched off but never removed. */
module Terrain {
  import opened World
  import opened Data

  /** The tile size. */
  const MaxDistance: real := 20.0
  /** Half a tile: crossing it on an axis moves the current tile. */
  const HalfTile: real := MaxDistance / 2.0
  /** The squared cutoff radius (2 * MaxDistance)^2 beyond which tiles are deactivated. */
  const CutoffSq: real := (2.0 * MaxDistance) * (2.0 * MaxDistance)

  /** A spawned terrain tile; its centre is its key in the tile map. */
  datatype Tile = Tile(active: bool)

  /** p is one of the 8 cells around c on the tile grid. */
  predicate IsNeighbor(c: Point, p: Point)
  {
    p != c
    && (p.x == c.x - MaxDistance || p.x == c.x || p.x == c.x + MaxDistance)
    && (p.z == c.z - MaxDistance || p.z == c.z || p.z == c.z + MaxDistance)
  }

  /** The neighbours of `c` in the source's order: N, S, E, W, NE, NW, SE, SW. */
  function Neighbors(c: Point): (r: seq<Point>)
    ensures |r| == 8
    ensures forall i :: 0 <= i < |r| ==> IsNeighbor(c, r[i])
    ensures forall i, j :: 0 <= i < j < |r| ==> r[i] != r[j]
  {
    [Point(c.x, c.z + MaxDistance),
     Point(c.x, c.z - MaxDistance),
     Point(c.x + MaxDistance, c.z),
     Point(c.x - MaxDistance, c.z),
     Point(c.x + MaxDistance, c.z + MaxDistance),
     Point(c.x - MaxDistance, c.z + MaxDistance),
     Point(c.x + MaxDistance, c.z - MaxDistance),
     Point(c.x - MaxDistance, c.z - MaxDistance)]
  }

  /** The 8 points are all the neighbours there are. */
  lemma NeighborsComplete(c: Point, p: Point)
    ensures p in Neighbors(c) <==> IsNeighbor(c, p)
  {
    var n := Neighbors(c);
    if IsNeighbor(c, p) {
      if p.x == c.x {
        assert p == n[0] || p == n[1];
      } else if p.x == c.x + MaxDistance {
        assert p == n[2] || p == n[4] || p == n[6];
      } else {
        assert p == n[3] || p == n[5] || p == n[7];
      }
    }
  }

  /** The current tile followed by its 8 neighbours: the tiles a transition
      makes sure of. */
  function Neighborhood(c: Point): (r: seq<Point>)
    ensures |r| == 9 && r[0] == c && r[1..] == Neighbors(c)
  {
    [c] + Neighbors(c)
  }

  /** Every tile of the 3x3 block lies within 20 * sqrt(2) of its centre. */
  lemma NeighborhoodWithinReach(c: Point, p: Point)
    requires p in Neighborhood(c)
    ensures SqDist(p, c) <= 800.0
  {
    var dx, dz := p.x - c.x, p.z - c.z;
    assert dx == -MaxDistance || dx == 0.0 || dx == MaxDistance;
    assert dz == -MaxDistance || dz == 0.0 || dz == MaxDistance;
    assert dx * dx <= 400.0 && dz * dz <= 400.0;
  }

  /** An offset crosses the tile boundary when one axis exceeds half a tile. */
  predicate Crossing(delta: Point)
  {
    Abs(delta.x) > HalfTile || Abs(delta.z) > HalfTile
  }

  /** The index into Neighbors of the tile the rules of CalcultateNextAxisPoint
      pick: four orthogonal rules, then four diagonal ones; None when no rule applies. */
  function NeighborIndex(delta: Point): (r: Option<nat>)
    ensures r.Some? ==> r.value < 8
  {
    if delta.z > HalfTile && Abs(delta.x) < HalfTile then Some(0)
    else if delta.x > HalfTile && Abs(delta.z) < HalfTile then Some(2)
    else if delta.z < -HalfTile && Abs(delta.x) < HalfTile then Some(1)
    else if delta.x < -HalfTile && Abs(delta.z) < HalfTile then Some(3)
    else if delta.z > HalfTile && delta.x > HalfTile then Some(4)
    else if delta.x > HalfTile && delta.z < -HalfTile then Some(6)
    else if delta.z < -HalfTile && delta.x < -HalfTile then Some(7)
    else if delta.x < -HalfTile && delta.z > HalfTile then Some(5)
    else None
  }

  /** The next current tile for an anchor offset `delta` from the tile `cur`:
      a neighbour of `cur`, or the world origin when no rule applies. */
  function NextAxisPoint(cur: Point, delta: Point): (r: Point)
    ensures IsNeighbor(cur, r) || r == Origin
    ensures NeighborIndex(delta).None? ==> r == Origin
  {
    match NeighborIndex(delta)
    case Some(i) => Neighbors(cur)[i]
    case None => Origin
  }

  /** -1, 0 or 1: the tile step an axis offset calls for. */
  function Step(v: real): int
  {
    if v > HalfTile then 1 else if v < -HalfTile then -1 else 0
  }

  /** Reference definition of a move: when the offset crosses the boundary and
      neither axis sits exactly on half a tile, the next tile is the one
      stepped to independently on each axis. */
  lemma NextAxisPointSteps(cur: Point, delta: Point)
    requires Crossing(delta)
    requires Abs(delta.x) != HalfTile && Abs(delta.z) != HalfTile
    ensures NeighborIndex(delta).Some?
    ensures NextAxisPoint(cur, delta)
         == Point(cur.x + (Step(delta.x) as real) * MaxDistance, cur.z + (Step(delta.z) as real) * MaxDistance)
  {
  }

  /** A single axis crossing moves one tile along that axis only. */
  lemma SingleAxisCrossing(cur: Point, delta: Point)
    ensures delta.z > HalfTile && Abs(delta.x) < HalfTile ==> NextAxisPoint(cur, delta) == Point(cur.x, cur.z + MaxDistance)
    ensures delta.z < -HalfTile && Abs(delta.x) < HalfTile ==> NextAxisPoint(cur, delta) == Point(cur.x, cur.z - MaxDistance)
    ensures delta.x > HalfTile && Abs(delta.z) < HalfTile ==> NextAxisPoint(cur, delta) == Point(cur.x + MaxDistance, cur.z)
    ensures delta.x < -HalfTile && Abs(delta.z) < HalfTile ==> NextAxisPoint(cur, delta) == Point(cur.x - MaxDistance, cur.z)
  {
  }

  /** For a crossing offset, no rule applies exactly when one axis sits on half
      a tile; then the current tile jumps to the world origin. */
  lemma OriginFallback(cur: Point, delta: Point)
    requires Crossing(delta)
    ensures NeighborIndex(delta).None? <==> (Abs(delta.x) == HalfTile || Abs(delta.z) == HalfTile)
    ensures Abs(delta.x) == HalfTile || Abs(delta.z) == HalfTile ==> NextAxisPoint(cur, delta) == Origin
  {
    if Abs(delta.x) != HalfTile && Abs(delta.z) != HalfTile {
      NextAxisPointSteps(cur, delta);
    }
  }

  /** CalculateInvisibleTiles on values: every tile farther than the cutoff
      from `c` is switched off; nothing is added or removed. */
  function HideFarTiles(m: map<Point, Tile>, c: Point): (r: map<Point, Tile>)
    ensures r.Keys == m.Keys
    ensures forall p :: p in r && SqDist(p, c) > CutoffSq ==> !r[p].active
    ensures forall p :: p in r && SqDist(p, c) <= CutoffSq ==> r[p] == m[p]
  {
    map p | p in m :: if SqDist(p, c) > CutoffSq then m[p].(active := false) else m[p]
  }

  /** The tile map is ready around `c`: the 3x3 block is present and active,
      and no tile beyond the cutoff is active. */
  ghost predicate Streamed(m: map<Point, Tile>, c: Point)
  {
    (forall p :: p in Neighborhood(c) ==> p in m && m[p].active)
    && (forall p :: p in m && SqDist(p, c) > CutoffSq ==> !m[p].active)
  }

  /** A map holding only the 3x3 block around `c`, all active, is streamed around `c`. */
  lemma NeighborhoodOnlyIsStreamed(m: map<Point, Tile>, c: Point)
    requires forall p :: p in m <==> p in Neighborhood(c)
    requires forall p :: p in m ==> m[p].active
    ensures Streamed(m, c)
  {
    forall p | p in m
      ensures SqDist(p, c) <= CutoffSq
    {
      NeighborhoodWithinReach(c, p);
    }
  }

  /** Switching off the far tiles keeps a shown 3x3 block on: its tiles lie
      within 20 * sqrt(2) of the centre, inside the cutoff of 40. */
  lemma HidingKeepsNeighborhood(m: map<Point, Tile>, c: Point)
    requires forall p :: p in Neighborhood(c) ==> p in m && m[p].active
    ensures Streamed(HideFarTiles(m, c), c)
  {
    var r := HideFarTiles(m, c);
    forall p | p in Neighborhood(c)
      ensures p in r && r[p].active
    {
      NeighborhoodWithinReach(c, p);
      assert p in m && SqDist(p, c) <= CutoffSq;
      assert r[p] == m[p];
    }
  }

  class TerrainManager {
    const anchor: Anchor
    var spawnedTiles: map<Point, Tile>
    var currentTilePos: Point
    var offset: Vec2
    var rotation: real
    var tankPosition: Vec2
    var tankOffset: Point

    ghost predicate Valid()
      reads this
    {
      Streamed(spawnedTiles, currentTilePos)
    }

    /** The anchor's offset from the tile `cur`, measured from the terrain origin. */
    function AnchorOffset(cur: Point): Point
      reads this, anchor
    {
      Sub(Sub(anchor.position, tankOffset), cur)
    }

    /** Awake: an empty tile map. */
    constructor (anchor: Anchor)
      ensures this.anchor == anchor
      ensures spawnedTiles == map[]
    {
      this.anchor := anchor;
      spawnedTiles := map[];
    }

    /** Instantiates an active tile at `position`. `Dictionary.Add` throws on a
        key already present, which every caller rules out. */
    method AddTile(position: Point)
      requires position !in spawnedTiles
      modifies this`spawnedTiles
      ensures spawnedTiles == old(spawnedTiles)[position := Tile(true)]
    {
      spawnedTiles := spawnedTiles[position := Tile(true)];
    }

    /** Restores the tank pose saved by the previous session, then spawns the
        origin tile and its neighbours. */
    method Start(dm: DataManager)
      requires spawnedTiles == map[]
      modifies this`tankPosition, this`offset, this`tankOffset, this`rotation,
               this`currentTilePos, this`spawnedTiles, anchor
      ensures tankPosition == dm.GetTankPosition()
      ensures offset == dm.GetTerrainOffset()
      ensures rotation == dm.GetTankRotation()
      ensures tankOffset == Point(tankPosition.x - offset.x, tankPosition.y - offset.y)
      ensures anchor.position == Point(tankPosition.x, tankPosition.y)
      ensures anchor.heading == old(anchor.heading) + rotation
      ensures currentTilePos == Origin
      ensures forall p :: p in spawnedTiles <==> p in Neighborhood(Origin)
      ensures forall p :: p in spawnedTiles ==> spawnedTiles[p].active
      ensures Valid()
    {
      tankPosition := dm.GetTankPosition();
      anchor.position := Point(tankPosition.x, tankPosition.y);
      offset := dm.GetTerrainOffset();
      tankOffset := Point(tankPosition.x - offset.x, tankPosition.y - offset.y);
      rotation := dm.GetTankRotation();
      anchor.heading := anchor.heading + rotation;
      currentTilePos := Origin;
      SpawnStartTiles();
    }

    /** The tile setup of Start: the tile at the current position, then each
        neighbour not yet present. */
    method SpawnStartTiles()
      requires spawnedTiles == map[]
      modifies this`spawnedTiles
      ensures forall p :: p in spawnedTiles <==> p in Neighborhood(currentTilePos)
      ensures forall p :: p in spawnedTiles ==> spawnedTiles[p].active
      ensures Valid()
    {
      var newTileCoords := Neighbors(currentTilePos);
      AddTile(currentTilePos);
      for i := 0 to |newTileCoords|
        invariant forall p :: p in spawnedTiles <==> p == currentTilePos || p in newTileCoords[..i]
        invariant forall p :: p in spawnedTiles ==> spawnedTiles[p].active
      {
        if newTileCoords[i] !in spawnedTiles {
          AddTile(newTileCoords[i]);
        }
      }
      assert newTileCoords[..|newTileCoords|] == newTileCoords;
      NeighborhoodOnlyIsStreamed(spawnedTiles, currentTilePos);
    }

    /** Saves the pose for the next session. */
    method OnDestroy(dm: DataManager)
      modifies dm.prefs
      ensures dm.GetTerrainOffset() == offset
      ensures dm.GetTankRotation() == rotation
      ensures dm.GetTankPosition() == tankPosition
      ensures dm.prefs.entries ==
        WithTankPosition(WithTankRotation(WithTerrainOffset(old(dm.prefs.entries), rotation, offset), rotation),
                         tankPosition)
    {
      dm.SaveTerrainOffset(rotation, offset);
      dm.SaveTankRotation(rotation);
      TankPoseRoundTrip(WithTerrainOffset(old(dm.prefs.entries), rotation, offset), rotation, tankPosition);
      dm.SaveTankPosition(tankPosition);
    }

    /** Switches off every tile farther than the cutoff from the current tile. */
    method CalculateInvisibleTiles()
      modifies this`spawnedTiles
      ensures spawnedTiles == HideFarTiles(old(spawnedTiles), currentTilePos)
    {
      var remaining := spawnedTiles.Keys;
      while remaining != {}
        invariant remaining <= spawnedTiles.Keys == old(spawnedTiles).Keys
        invariant forall p :: p in spawnedTiles && p !in remaining ==>
                    spawnedTiles[p] == HideFarTiles(old(spawnedTiles), currentTilePos)[p]
        invariant forall p :: p in remaining ==> spawnedTiles[p] == old(spawnedTiles)[p]
        decreases remaining
      {
        var p :| p in remaining;
        if SqDist(p, currentTilePos) > CutoffSq {
          spawnedTiles := spawnedTiles[p := spawnedTiles[p].(active := false)];
        }
        remaining := remaining - {p};
      }
    }

    /** The loop of a transition: every tile of the current 3x3 block is
        switched on if present and added otherwise. */
    method ShowNeighborhood()
      modifies this`spawnedTiles
      ensures forall p :: p in spawnedTiles <==> p in old(spawnedTiles) || p in Neighborhood(currentTilePos)
      ensures forall p :: p in Neighborhood(currentTilePos) ==> spawnedTiles[p].active
      ensures forall p :: p in old(spawnedTiles) && p !in Neighborhood(currentTilePos) ==> spawnedTiles[p] == old(spawnedTiles)[p]
    {
      var newTileCoords := Neighborhood(currentTilePos);
      for i := 0 to |newTileCoords|
        invariant forall p :: p in spawnedTiles <==> p in old(spawnedTiles) || p in newTileCoords[..i]
        invariant forall j :: 0 <= j < i ==> spawnedTiles[newTileCoords[j]].active
        invariant forall p :: p in old(spawnedTiles) && p !in newTileCoords[..i] ==> spawnedTiles[p] == old(spawnedTiles)[p]
      {
        if newTileCoords[i] in spawnedTiles {
          spawnedTiles := spawnedTiles[newTileCoords[i] := spawnedTiles[newTileCoords[i]].(active := true)];
        } else {
          AddTile(newTileCoords[i]);
        }
      }
      assert newTileCoords[..|newTileCoords|] == newTileCoords;
    }

    /** One frame: records the pose; when the anchor has crossed half a tile
        from the current tile, moves the current tile, makes sure of the new
        3x3 block and switches off the far tiles. */
    method Update()
      requires Valid()
      modifies this`tankPosition, this`offset, this`rotation, this`currentTilePos, this`spawnedTiles
      ensures Valid()
      ensures tankPosition == Vec2(anchor.position.x, anchor.position.z)
      ensures rotation == anchor.heading
      ensures offset == Vec2(AnchorOffset(old(currentTilePos)).x, AnchorOffset(old(currentTilePos)).z)
      ensures !Crossing(AnchorOffset(old(currentTilePos))) ==>
                currentTilePos == old(currentTilePos) && spawnedTiles == old(spawnedTiles)
      ensures Crossing(AnchorOffset(old(currentTilePos))) ==>
                currentTilePos == NextAxisPoint(old(currentTilePos), AnchorOffset(old(currentTilePos)))
      ensures Crossing(AnchorOffset(old(currentTilePos))) ==>
                forall p :: p in spawnedTiles <==> p in old(spawnedTiles) || p in Neighborhood(currentTilePos)
      ensures forall p :: p in old(spawnedTiles) && p !in Neighborhood(currentTilePos) && SqDist(p, currentTilePos) <= CutoffSq
                ==> p in spawnedTiles && spawnedTiles[p] == old(spawnedTiles)[p]
    {
      var delta := Sub(Sub(anchor.position, tankOffset), currentTilePos);
      tankPosition := Vec2(anchor.position.x, anchor.position.z);
      offset := Vec2(delta.x, delta.z);
      rotation := anchor.heading;
      if Abs(delta.x) > MaxDistance / 2.0 || Abs(delta.z) > MaxDistance / 2.0 {
        currentTilePos := NextAxisPoint(currentTilePos, delta);
        ShowNeighborhood();
        HidingKeepsNeighborhood(spawnedTiles, currentTilePos);
        CalculateInvisibleTiles();
      }
    }
  }
}
