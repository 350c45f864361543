/** DataManager: the game's settings, read once from an optional config with
    per-field fallbacks, and its reads and writes of the PlayerPrefs store. */
module Data {
  import opened World
  import opened Persistence

  const TankRotationKey := "TankRotationKey"
  const TerrainOffsetKey := "TerrainOffsetKey"
  const MapDataObject := "MapDataObject"
  const TankPositionKey := "TankPositionKey"

  const TankPositionKeyX := TankPositionKey + "x"
  const TankPositionKeyY := TankPositionKey + "y"
  const TerrainOffsetKeyX := TerrainOffsetKey + "x"
  const TerrainOffsetKeyY := TerrainOffsetKey + "y"

  const MinTankVelocity: real := 0.01
  const MaxTankVelocity: real := 9.0
  const MaxVisibleObjectsFallback: int := 50
  const BushSpawnPeriodFallback: int := 50
  const MinimalBushDistanceFallback: int := 50
  const TankVelocityFallback: real := 0.1
  const TankAngularVelocityFallback: real := 1.0
  const TreePossibilityFallback: real := 10.0
  const BushPossibilityFallback: real := 30.0
  const PuddlePossibilityFallback: real := 10.0
  const StonePossibilityFallback: real := 50.0

  /** The `Possibilities` object of the config; a field is None when it is
      missing or does not parse. */
  datatype PossibilitiesConfig = PossibilitiesConfig(
    tree: Option<real>, puddle: Option<real>, bush: Option<real>, stone: Option<real>)

  /** The parsed config resource; a field is None when it is missing or does not parse. */
  datatype Config = Config(
    maxVisibleObjects: Option<int>,
    bushSpawnPeriod: Option<int>,
    minimalBushDistance: Option<int>,
    tankVelocity: Option<real>,
    tankAngularVelocity: Option<real>,
    possibilities: Option<PossibilitiesConfig>)

  /** One entry of the possibilities dictionary, in insertion order. */
  datatype Possibility = Possibility(kind: MapObjectType, weight: real)

  datatype Settings = Settings(
    maxVisibleObjects: int,
    bushSpawnPeriod: int,
    minimalBushDistance: int,
    tankVelocity: real,
    tankAngularVelocity: real,
    possibilities: seq<Possibility>)

  /** `JSONObject.GetField(ref field, name, fallback)`: the parsed value, or the fallback. */
  function FieldOr<T>(f: Option<T>, fallback: T): T
  {
    match f
    case Some(v) => v
    case None => fallback
  }

  function Kinds(table: seq<Possibility>): (r: seq<MapObjectType>)
    ensures |r| == |table|
    ensures forall i :: 0 <= i < |table| ==> r[i] == table[i].kind
  {
    seq(|table|, i requires 0 <= i < |table| => table[i].kind)
  }

  function WeightSum(table: seq<Possibility>): real
  {
    if table == [] then 0.0 else table[0].weight + WeightSum(table[1..])
  }

  /** `Dictionary.Add`, which throws when the key is already present. */
  function AddPossibility(table: seq<Possibility>, k: MapObjectType, w: real): (r: seq<Possibility>)
    requires k !in Kinds(table)
    ensures Kinds(r) == Kinds(table) + [k]
    ensures r[|table|] == Possibility(k, w)
    ensures |r| == |table| + 1 && r[..|table|] == table
  {
    table + [Possibility(k, w)]
  }

  const AllKinds: seq<MapObjectType> := [Tree, Bush, Puddle, Stone]

  /** The weight table built from four weights, added as the constructor adds them. */
  function WeightTable(tree: real, bush: real, puddle: real, stone: real): (r: seq<Possibility>)
    ensures Kinds(r) == AllKinds
    ensures r == [Possibility(Tree, tree), Possibility(Bush, bush),
                  Possibility(Puddle, puddle), Possibility(Stone, stone)]
  {
    var t1 := AddPossibility([], Tree, tree);
    var t2 := AddPossibility(t1, Bush, bush);
    var t3 := AddPossibility(t2, Puddle, puddle);
    AddPossibility(t3, Stone, stone)
  }

  const FallbackPossibilities := WeightTable(TreePossibilityFallback, BushPossibilityFallback,
                                             PuddlePossibilityFallback, StonePossibilityFallback)

  /** Every field at its fallback: what a missing config resource yields. */
  const FallbackSettings := Settings(MaxVisibleObjectsFallback, BushSpawnPeriodFallback,
                                     MinimalBushDistanceFallback, TankVelocityFallback,
                                     TankAngularVelocityFallback, FallbackPossibilities)

  /** The tank velocity clamped to [MinTankVelocity, MaxTankVelocity]. */
  function ClampVelocity(v: real): (r: real)
    ensures MinTankVelocity <= r <= MaxTankVelocity
    ensures MinTankVelocity <= v <= MaxTankVelocity ==> r == v
    ensures v < MinTankVelocity ==> r == MinTankVelocity
    ensures v > MaxTankVelocity ==> r == MaxTankVelocity
  {
    var lowered := if v < MinTankVelocity then MinTankVelocity else v;
    if lowered > MaxTankVelocity then MaxTankVelocity else lowered
  }

  /** The settings the DataManager constructor arrives at. */
  function LoadedSettings(config: Option<Config>): (s: Settings)
    ensures MinTankVelocity <= s.tankVelocity <= MaxTankVelocity
    ensures Kinds(s.possibilities) == AllKinds
    ensures config.None? ==> s == FallbackSettings
    ensures config.Some? && config.value.possibilities.None? ==> s.possibilities == FallbackPossibilities
    ensures config.Some? ==> s.maxVisibleObjects == FieldOr(config.value.maxVisibleObjects, MaxVisibleObjectsFallback)
    ensures config.Some? ==> s.bushSpawnPeriod == FieldOr(config.value.bushSpawnPeriod, BushSpawnPeriodFallback)
    ensures config.Some? ==> s.minimalBushDistance == FieldOr(config.value.minimalBushDistance, MinimalBushDistanceFallback)
    ensures config.Some? ==> s.tankVelocity == ClampVelocity(FieldOr(config.value.tankVelocity, TankVelocityFallback))
    ensures config.Some? ==> s.tankAngularVelocity == FieldOr(config.value.tankAngularVelocity, TankAngularVelocityFallback)
    ensures config.Some? && config.value.possibilities.Some? ==>
      var p := config.value.possibilities.value;
      s.possibilities == [Possibility(Tree, FieldOr(p.tree, TreePossibilityFallback)),
                          Possibility(Bush, FieldOr(p.bush, BushPossibilityFallback)),
                          Possibility(Puddle, FieldOr(p.puddle, PuddlePossibilityFallback)),
                          Possibility(Stone, FieldOr(p.stone, StonePossibilityFallback))]
  {
    match config
    case None => FallbackSettings
    case Some(c) =>
      var weights :=
        match c.possibilities
        case None => FallbackPossibilities
        case Some(p) =>
          WeightTable(FieldOr(p.tree, TreePossibilityFallback), FieldOr(p.bush, BushPossibilityFallback),
                      FieldOr(p.puddle, PuddlePossibilityFallback), FieldOr(p.stone, StonePossibilityFallback));
      Settings(FieldOr(c.maxVisibleObjects, MaxVisibleObjectsFallback),
               FieldOr(c.bushSpawnPeriod, BushSpawnPeriodFallback),
               FieldOr(c.minimalBushDistance, MinimalBushDistanceFallback),
               ClampVelocity(FieldOr(c.tankVelocity, TankVelocityFallback)),
               FieldOr(c.tankAngularVelocity, TankAngularVelocityFallback),
               weights)
  }

  /** The fallback weights partition a draw in [0, 100). */
  lemma FallbackWeightsSumTo100()
    ensures WeightSum(FallbackPossibilities) == 100.0
  {
    assert FallbackPossibilities[1..][1..][1..][1..] == [];
  }

  // ---------------------------------------------------------------------
  // The PlayerPrefs keys and the values stored under them

  lemma KeysDistinct()
    ensures TankRotationKey != TankPositionKeyX && TankRotationKey != TankPositionKeyY
    ensures TankRotationKey != TerrainOffsetKeyX && TankRotationKey != TerrainOffsetKeyY
    ensures TankPositionKeyX != TankPositionKeyY
    ensures TerrainOffsetKeyX != TerrainOffsetKeyY
    ensures TankPositionKeyX != TerrainOffsetKeyX && TankPositionKeyX != TerrainOffsetKeyY
    ensures TankPositionKeyY != TerrainOffsetKeyX && TankPositionKeyY != TerrainOffsetKeyY
    ensures MapDataObject !in {TankRotationKey, TankPositionKeyX, TankPositionKeyY, TerrainOffsetKeyX, TerrainOffsetKeyY}
  {
    assert TankPositionKeyX[15] != TankPositionKeyY[15];
    assert TerrainOffsetKeyX[16] != TerrainOffsetKeyY[16];
    assert TankRotationKey[4] != TankPositionKeyX[4];
    assert TankRotationKey[1] != TerrainOffsetKeyX[1];
    assert TankRotationKey[1] != TerrainOffsetKeyY[1];
    assert TankPositionKeyX[1] != TerrainOffsetKeyX[1];
    assert TankPositionKeyX[1] != TerrainOffsetKeyY[1];
    assert TankPositionKeyY[1] != TerrainOffsetKeyX[1];
    assert TankPositionKeyY[1] != TerrainOffsetKeyY[1];
    assert MapDataObject[0] != TankRotationKey[0];
    assert MapDataObject[0] != TankPositionKeyX[0];
    assert MapDataObject[0] != TankPositionKeyY[0];
    assert MapDataObject[0] != TerrainOffsetKeyX[0];
    assert MapDataObject[0] != TerrainOffsetKeyY[0];
  }

  function StoredTankRotation(m: Entries): real
  {
    GetFloat(m, TankRotationKey, 0.0)
  }

  function WithTankRotation(m: Entries, rotation: real): Entries
  {
    m[TankRotationKey := FloatPref(rotation)]
  }

  function StoredTankPosition(m: Entries): Vec2
  {
    Vec2(GetFloat(m, TankPositionKeyX, 0.0), GetFloat(m, TankPositionKeyY, 0.0))
  }

  function WithTankPosition(m: Entries, p: Vec2): Entries
  {
    m[TankPositionKeyX := FloatPref(p.x)][TankPositionKeyY := FloatPref(p.y)]
  }

  function StoredTerrainOffset(m: Entries): Vec2
  {
    Vec2(GetFloat(m, TerrainOffsetKeyX, 0.0), GetFloat(m, TerrainOffsetKeyY, 0.0))
  }

  /** `SaveTerrainOffset(rotation, offset)`: the rotation argument is not stored. */
  function WithTerrainOffset(m: Entries, rotation: real, offset: Vec2): Entries
  {
    m[TerrainOffsetKeyX := FloatPref(offset.x)][TerrainOffsetKeyY := FloatPref(offset.y)]
  }

  function StoredMapInfo(m: Entries): string
  {
    GetString(m, MapDataObject, "")
  }

  function WithMapInfo(m: Entries, data: string): Entries
  {
    m[MapDataObject := StringPref(data)]
  }

  /** Every saved pose component reads back as written, and a save touches
      no other pose component. */
  lemma TankPoseRoundTrip(m: Entries, rotation: real, p: Vec2)
    ensures StoredTankRotation(WithTankRotation(m, rotation)) == rotation
    ensures StoredTankPosition(WithTankRotation(m, rotation)) == StoredTankPosition(m)
    ensures StoredTerrainOffset(WithTankRotation(m, rotation)) == StoredTerrainOffset(m)
    ensures StoredTankPosition(WithTankPosition(m, p)) == p
    ensures StoredTankRotation(WithTankPosition(m, p)) == StoredTankRotation(m)
    ensures StoredTerrainOffset(WithTankPosition(m, p)) == StoredTerrainOffset(m)
  {
    KeysDistinct();
  }

  /** SaveTerrainOffset round-trips the offset, ignores its rotation argument
      and leaves the tank position and rotation as they were. */
  lemma TerrainOffsetRoundTrip(m: Entries, rotation: real, offset: Vec2)
    ensures StoredTerrainOffset(WithTerrainOffset(m, rotation, offset)) == offset
    ensures StoredTankRotation(WithTerrainOffset(m, rotation, offset)) == StoredTankRotation(m)
    ensures StoredTankPosition(WithTerrainOffset(m, rotation, offset)) == StoredTankPosition(m)
  {
    KeysDistinct();
  }

  lemma MapInfoRoundTrip(m: Entries, data: string)
    ensures StoredMapInfo(WithMapInfo(m, data)) == data
    ensures StoredTankPosition(WithMapInfo(m, data)) == StoredTankPosition(m)
    ensures StoredTerrainOffset(WithMapInfo(m, data)) == StoredTerrainOffset(m)
    ensures StoredTankRotation(WithMapInfo(m, data)) == StoredTankRotation(m)
  {
    KeysDistinct();
  }

  /** Keys never written read as 0 (or "" for the map data). */
  lemma UnsetKeysReadDefaults()
    ensures StoredTankRotation(map[]) == 0.0
    ensures StoredTankPosition(map[]) == Vec2(0.0, 0.0)
    ensures StoredTerrainOffset(map[]) == Vec2(0.0, 0.0)
    ensures StoredMapInfo(map[]) == ""
  {
  }

  class DataManager {
    var maxVisibleObjects: int
    var bushSpawnPeriod: int
    var minimalBushDistance: int
    var tankVelocity: real
    var tankAngularVelocity: real
    var possibilities: seq<Possibility>
    /** The PlayerPrefs store, global in the game. */
    const prefs: PlayerPrefs

    function Current(): Settings
      reads this
    {
      Settings(maxVisibleObjects, bushSpawnPeriod, minimalBushDistance,
               tankVelocity, tankAngularVelocity, possibilities)
    }

    /** Reads the config resource (None when it is missing), field by field
        with fallbacks, clamps the velocity and fills the weight table. */
    constructor (config: Option<Config>, prefs: PlayerPrefs)
      ensures this.prefs == prefs
      ensures Current() == LoadedSettings(config)
    {
      this.prefs := prefs;
      var table: seq<Possibility> := [];
      var possibilitiesParseFailed := false;
      if config.Some? {
        var c := config.value;
        maxVisibleObjects := FieldOr(c.maxVisibleObjects, MaxVisibleObjectsFallback);
        bushSpawnPeriod := FieldOr(c.bushSpawnPeriod, BushSpawnPeriodFallback);
        minimalBushDistance := FieldOr(c.minimalBushDistance, MinimalBushDistanceFallback);
        var velocity := FieldOr(c.tankVelocity, TankVelocityFallback);
        if velocity < MinTankVelocity {
          velocity := MinTankVelocity;
        }
        if velocity > MaxTankVelocity {
          velocity := MaxTankVelocity;
        }
        tankVelocity := velocity;
        tankAngularVelocity := FieldOr(c.tankAngularVelocity, TankAngularVelocityFallback);
        if c.possibilities.Some? {
          var p := c.possibilities.value;
          table := AddPossibility(table, Tree, FieldOr(p.tree, TreePossibilityFallback));
          table := AddPossibility(table, Bush, FieldOr(p.bush, BushPossibilityFallback));
          table := AddPossibility(table, Puddle, FieldOr(p.puddle, PuddlePossibilityFallback));
          table := AddPossibility(table, Stone, FieldOr(p.stone, StonePossibilityFallback));
        } else {
          possibilitiesParseFailed := true;
        }
      } else {
        maxVisibleObjects := MaxVisibleObjectsFallback;
        bushSpawnPeriod := BushSpawnPeriodFallback;
        minimalBushDistance := MinimalBushDistanceFallback;
        tankVelocity := TankVelocityFallback;
        tankAngularVelocity := TankAngularVelocityFallback;
        possibilitiesParseFailed := true;
      }
      if possibilitiesParseFailed {
        table := AddPossibility(table, Tree, TreePossibilityFallback);
        table := AddPossibility(table, Bush, BushPossibilityFallback);
        table := AddPossibility(table, Puddle, PuddlePossibilityFallback);
        table := AddPossibility(table, Stone, StonePossibilityFallback);
      }
      possibilities := table;
    }

    function GetTankVelocity(): real
      reads this
    {
      tankVelocity
    }

    function GetTankAngularVelocity(): real
      reads this
    {
      tankAngularVelocity
    }

    function GetMaxVisibleObjects(): int
      reads this
    {
      maxVisibleObjects
    }

    function GetBushSpawnPeriod(): real
      reads this
    {
      bushSpawnPeriod as real
    }

    function GetBushMinimalDistance(): real
      reads this
    {
      minimalBushDistance as real
    }

    function GetPossibilities(): seq<Possibility>
      reads this
    {
      possibilities
    }

    function GetTankRotation(): real
      reads prefs
    {
      StoredTankRotation(prefs.entries)
    }

    function GetTankPosition(): Vec2
      reads prefs
    {
      StoredTankPosition(prefs.entries)
    }

    function GetTerrainOffset(): Vec2
      reads prefs
    {
      StoredTerrainOffset(prefs.entries)
    }

    function LoadMapInfo(): string
      reads prefs
    {
      StoredMapInfo(prefs.entries)
    }

    method SaveTankRotation(rotation: real)
      modifies prefs
      ensures prefs.entries == WithTankRotation(old(prefs.entries), rotation)
      ensures GetTankRotation() == rotation
    {
      prefs.SetFloat(TankRotationKey, rotation);
    }

    method SaveTankPosition(position: Vec2)
      modifies prefs
      ensures prefs.entries == WithTankPosition(old(prefs.entries), position)
      ensures GetTankPosition() == position
    {
      prefs.SetFloat(TankPositionKeyX, position.x);
      prefs.SetFloat(TankPositionKeyY, position.y);
      KeysDistinct();
    }

    method SaveTerrainOffset(rotation: real, offset: Vec2)
      modifies prefs
      ensures prefs.entries == WithTerrainOffset(old(prefs.entries), rotation, offset)
      ensures GetTerrainOffset() == offset
      ensures GetTankRotation() == old(GetTankRotation())
      ensures GetTankPosition() == old(GetTankPosition())
    {
      prefs.SetFloat(TerrainOffsetKeyX, offset.x);
      prefs.SetFloat(TerrainOffsetKeyY, offset.y);
      TerrainOffsetRoundTrip(old(prefs.entries), rotation, offset);
    }

    method SaveMapInfo(data: string)
      modifies prefs
      ensures prefs.entries == WithMapInfo(old(prefs.entries), data)
      ensures LoadMapInfo() == data
    {
      prefs.SetString(MapDataObject, data);
    }
  }

  /** The static `_instance` field behind `DataManager.GetInstance`. */
  class DataManagerHolder {
    var instance: DataManager?

    constructor ()
      ensures instance == null
    {
      instance := null;
    }

    /** Creates the manager on first use and returns that same one ever after. */
    method GetInstance(config: Option<Config>, prefs: PlayerPrefs) returns (d: DataManager)
      modifies this
      ensures instance == d
      ensures old(instance) != null ==> d == old(instance)
      ensures old(instance) == null ==> fresh(d) && d.Current() == LoadedSettings(config) && d.prefs == prefs
    {
      if instance == null {
        instance := new DataManager(config, prefs);
      }
      d := instance;
    }
  }
}
