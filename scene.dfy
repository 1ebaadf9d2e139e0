/**
 * Render planning for the city's tiles and the reset of the scene.
 *
 * Each render operation is modelled by the list of asset load requests it
 * issues, in issue order; each request also carries the placement its load
 * callback applies and the name it gives the loaded object. Positions that the
 * callbacks compute in floating point are recorded only by their integer inputs
 * (storey index, extra shift); the scene's children are a sequence of names.
 */
module Scene {
  import opened Wrappers

  /** Buildings are never taller than this many storeys. */
  const MaxStoreys := 35

  /** The names of the objects that clearing the scene removes. */
  const ToDelete: seq<string> := ["Building", "Road", "Grass", "Tree"]

  /** Tile type code of an L-shaped building. */
  const LShaped := 2

  /** The asset URLs of a building style; any of them may be null or undefined. */
  datatype BuildingAssets = BuildingAssets(groundUrl: Option<string>, floorUrl: Option<string>, roofUrl: Option<string>)

  /** The fields of a building tile that rendering reads. */
  datatype BuildingTile = BuildingTile(value: int, tileType: int, dir: int, mirror: bool, building: BuildingAssets)

  /** The fields of a road tile that rendering reads. */
  datatype RoadTile = RoadTile(roadType: int, dir: int)

  /** The three kinds of storey a building is stacked from. */
  datatype Storey = Ground | Floor | Roof

  /**
   * One asset load request and what its callback does with the loaded object:
   * a building storey (its index, extra x/z shift, rotation in degrees and
   * whether it is mirrored), a road piece (its rotation in degrees), the grass
   * of a tile or one of its trees. `asset` is the asset's name.
   */
  datatype LoadRequest =
    | BuildingPiece(asset: string, storey: nat, shiftX: int, shiftZ: int, rotation: int, mirrored: bool)
    | RoadPiece(asset: string, rotation: int)
    | GrassPiece(asset: string)
    | TreePiece(asset: string)
  {
    /** The name the callback gives the object it adds to the scene: one that clearing removes. */
    function Name(): (n: string)
      ensures Clearable(n)
    {
      match this
      case BuildingPiece(_, _, _, _, _, _) => "Building"
      case RoadPiece(_, _) => "Road"
      case GrassPiece(_) => "Grass"
      case TreePiece(_) => "Tree"
    }
  }

  /** Whether clearing the scene removes a child of this name. */
  predicate Clearable(name: string) {
    name in ToDelete
  }

  /** A URL that can be loaded: present and not the empty string. */
  predicate Loadable(url: Option<string>) {
    url.Some? && url.value != ""
  }

  // ---------------------------------------------------------------------------
  // Buildings

  /** The number of storeys a building of activity `value` is stacked to: `value` capped at 35. */
  function StoreyCount(value: int): (h: nat)
    ensures h <= MaxStoreys
    ensures h <= value || (value <= 0 && h == 0)
    ensures value <= MaxStoreys ==> h == (if value <= 0 then 0 else value)
    ensures value >= MaxStoreys ==> h == MaxStoreys
  {
    var capped := if value < MaxStoreys then value else MaxStoreys;
    if capped <= 0 then 0 else capped
  }

  /**
   * The kind of storey `k` of a building `height` storeys high: the bottom one is
   * ground, the top one is roof, those in between are floors; a building one
   * storey high has a ground and no roof.
   */
  function StoreyKind(height: nat, k: nat): (s: Storey)
    requires k < height
    ensures s == Ground <==> k == 0
    ensures s == Roof <==> 0 < k && k == height - 1
    ensures s == Floor <==> 0 < k < height - 1
  {
    if k == 0 then Ground else if k == height - 1 then Roof else Floor
  }

  /** The URL the building's style gives for a kind of storey. */
  function UrlOf(assets: BuildingAssets, s: Storey): Option<string> {
    match s
    case Ground => assets.groundUrl
    case Floor => assets.floorUrl
    case Roof => assets.roofUrl
  }

  /** The URL storey `k` of building `b` loads. */
  function StoreyUrl(b: BuildingTile, k: nat): Option<string>
    requires k < StoreyCount(b.value)
  {
    UrlOf(b.building, StoreyKind(StoreyCount(b.value), k))
  }

  /**
   * The rotation, in degrees, given to every storey of a building: a quarter turn
   * clockwise per step of `dir`, a half turn more for an L-shaped building, and
   * 270 degrees less for a mirrored one to make up for the flip.
   */
  function BuildingRotation(tileType: int, dir: int, mirror: bool): (deg: int)
    ensures deg % 90 == 0
  {
    -90 * (dir + (if tileType == LShaped then 2 else 0)) - (if mirror then 270 else 0)
  }

  /** The extra (x, z) shift of every storey: both 2 for an L-shaped building facing 1, else 0. */
  function BuildingShift(tileType: int, dir: int): (s: (int, int))
    ensures s.0 == s.1
    ensures s.0 == 2 || s.0 == 0
    ensures s.0 == 2 <==> tileType == LShaped && dir == 1
  {
    if tileType == LShaped && dir == 1 then (2, 2) else (0, 0)
  }

  /** Mirroring turns a storey by 270 degrees back, that is the same orientation as one step of `dir` less, less a full turn. */
  lemma MirrorIsOneStepBack(tileType: int, dir: int)
    ensures BuildingRotation(tileType, dir, true) == BuildingRotation(tileType, dir - 1, false) - 360
  {
  }

  /** An L-shaped building faces the opposite way to a building of any other tile type with the same `dir`. */
  lemma LShapeIsHalfTurned(tileType: int, dir: int, mirror: bool)
    requires tileType != LShaped
    ensures BuildingRotation(LShaped, dir, mirror) == BuildingRotation(tileType, dir, mirror) - 180
  {
  }

  /**
   * The request storey `k` of building `b` issues, given that its URL is loadable:
   * the ground URL for the bottom storey, the roof URL for the top storey of a
   * building taller than one, the floor URL for every storey in between.
   */
  function StoreyRequest(b: BuildingTile, k: nat): (req: LoadRequest)
    requires k < StoreyCount(b.value) && Loadable(StoreyUrl(b, k))
    ensures req.BuildingPiece? && req.storey == k && req.mirrored == b.mirror
    ensures k == 0 ==> req.asset == b.building.groundUrl.value
    ensures 0 < k == StoreyCount(b.value) - 1 ==> req.asset == b.building.roofUrl.value
    ensures 0 < k < StoreyCount(b.value) - 1 ==> req.asset == b.building.floorUrl.value
    ensures req.rotation == BuildingRotation(b.tileType, b.dir, b.mirror)
    ensures (req.shiftX, req.shiftZ) == BuildingShift(b.tileType, b.dir)
  {
    var shift := BuildingShift(b.tileType, b.dir);
    BuildingPiece(StoreyUrl(b, k).value, k, shift.0, shift.1,
                  BuildingRotation(b.tileType, b.dir, b.mirror), b.mirror)
  }

  /**
   * The number of storeys requested for building `b`, searching from storey `k`:
   * the first storey at or above `k` whose URL is missing, or the full height.
   */
  function StoreysFrom(b: BuildingTile, k: nat): (n: nat)
    requires k <= StoreyCount(b.value)
    ensures k <= n <= StoreyCount(b.value)
    ensures forall j :: k <= j < n ==> Loadable(StoreyUrl(b, j))
    ensures n < StoreyCount(b.value) ==> !Loadable(StoreyUrl(b, n))
    decreases StoreyCount(b.value) - k
  {
    if k == StoreyCount(b.value) then k
    else if !Loadable(StoreyUrl(b, k)) then k
    else StoreysFrom(b, k + 1)
  }

  /** The number of storeys renderBuilding requests for `b`. */
  function PlannedStoreys(b: BuildingTile): (n: nat)
    ensures n <= StoreyCount(b.value) <= MaxStoreys
    ensures b.value <= 0 ==> n == 0
  {
    StoreysFrom(b, 0)
  }

  /**
   * renderBuilding: one request per storey, bottom up, for at most 35 storeys;
   * it returns at the first storey whose URL is null or empty, so that storey and
   * every one above it are not requested and those below it are.
   */
  method RenderBuilding(b: BuildingTile) returns (reqs: seq<LoadRequest>)
    ensures |reqs| == PlannedStoreys(b)
    ensures forall k :: 0 <= k < |reqs| ==> reqs[k] == StoreyRequest(b, k)
  {
    var height := StoreyCount(b.value);
    reqs := [];
    var i := 0;
    while i < height
      invariant 0 <= i <= height && |reqs| == i
      invariant forall j :: 0 <= j < i ==> Loadable(StoreyUrl(b, j))
      invariant forall k :: 0 <= k < i ==> reqs[k] == StoreyRequest(b, k)
    {
      var asset: Option<string>;
      if i == 0 {
        asset := b.building.groundUrl;
      } else if i == height - 1 {
        asset := b.building.roofUrl;
      } else {
        asset := b.building.floorUrl;
      }
      if asset.None? || asset.value == "" {
        PlannedStopsAt(b, i);
        return;
      }
      var shift := BuildingShift(b.tileType, b.dir);
      reqs := reqs + [BuildingPiece(asset.value, i, shift.0, shift.1,
                                    BuildingRotation(b.tileType, b.dir, b.mirror), b.mirror)];
      i := i + 1;
    }
    PlannedStopsAt(b, i);
  }

  /**
   * If storeys below `i` are all loadable and storey `i` is missing or the top,
   * the plan stops at `i`.
   */
  lemma {:induction false} PlannedStopsAt(b: BuildingTile, i: nat)
    requires i <= StoreyCount(b.value)
    requires forall j :: 0 <= j < i ==> Loadable(StoreyUrl(b, j))
    requires i < StoreyCount(b.value) ==> !Loadable(StoreyUrl(b, i))
    ensures PlannedStoreys(b) == i
  {
  }

  /** A missing URL at storey `k` means that no storey from `k` up is requested. */
  lemma MissingStoreyStopsBuilding(b: BuildingTile, k: nat)
    requires k < StoreyCount(b.value) && !Loadable(StoreyUrl(b, k))
    ensures PlannedStoreys(b) <= k
  {
  }

  /** With ground, floor and roof all loadable, every storey up to the cap is requested. */
  lemma FullBuilding(b: BuildingTile)
    requires Loadable(b.building.groundUrl) && Loadable(b.building.floorUrl) && Loadable(b.building.roofUrl)
    ensures PlannedStoreys(b) == StoreyCount(b.value)
  {
    var h := StoreyCount(b.value);
    forall j | 0 <= j < h ensures Loadable(StoreyUrl(b, j)) {
    }
    PlannedStopsAt(b, h);
  }

  /** A building of activity 1 with a ground URL issues one request, and it loads the ground URL. */
  lemma SingleStorey(b: BuildingTile)
    requires b.value == 1 && Loadable(b.building.groundUrl)
    ensures PlannedStoreys(b) == 1
    ensures StoreyRequest(b, 0).asset == b.building.groundUrl.value
  {
    PlannedStopsAt(b, 1);
  }

  // ---------------------------------------------------------------------------
  // Roads

  /**
   * The road asset for a road type: entry `roadType` of `roadTypes` (the four road
   * meshes: two-way, three-way, four-way, turn) for a type 0 to 3, and none for
   * any other type or for an entry that is missing or empty.
   */
  function RoadAsset(roadType: int, roadTypes: seq<string>): (a: Option<string>)
    ensures a.Some? <==> 0 <= roadType <= 3 && roadType < |roadTypes| && roadTypes[roadType] != ""
    ensures a.Some? ==> a.value == roadTypes[roadType]
  {
    var asset :=
      if roadType == 0 then Entry(roadTypes, 0)
      else if roadType == 1 then Entry(roadTypes, 1)
      else if roadType == 2 then Entry(roadTypes, 2)
      else if roadType == 3 then Entry(roadTypes, 3)
      else Some("");
    if !Loadable(asset) then None else asset
  }

  /** Entry `t` of a list, or None (JavaScript's `undefined`) past its end. */
  function Entry(list: seq<string>, t: nat): Option<string> {
    if t < |list| then Some(list[t]) else None
  }

  /**
   * renderRoad: a single request for the road asset of the tile's type, turned a
   * quarter turn clockwise per step of `dir`, or no request at all.
   */
  function RenderRoad(road: RoadTile, roadTypes: seq<string>): (reqs: seq<LoadRequest>)
    ensures |reqs| <= 1
    ensures |reqs| == 1 <==> RoadAsset(road.roadType, roadTypes).Some?
    ensures |reqs| == 1 ==>
      (reqs[0].RoadPiece? && reqs[0].rotation == -90 * road.dir && reqs[0].asset == roadTypes[road.roadType])
  {
    match RoadAsset(road.roadType, roadTypes)
    case None => []
    case Some(asset) => [RoadPiece(asset, -90 * road.dir)]
  }

  // ---------------------------------------------------------------------------
  // Grass

  /**
   * renderGrass: the grass asset, then two trees, each chosen from `trees` by an
   * index the source draws at random (here the parameters `pick1` and `pick2`).
   */
  function RenderGrass(grassAsset: string, trees: seq<string>, pick1: nat, pick2: nat): (reqs: seq<LoadRequest>)
    requires pick1 < |trees| && pick2 < |trees|
    ensures |reqs| == 3 && reqs[0].GrassPiece? && reqs[1].TreePiece? && reqs[2].TreePiece?
    ensures reqs[0].asset == grassAsset
    ensures reqs[1].asset in trees && reqs[2].asset in trees
  {
    [GrassPiece(grassAsset), TreePiece(trees[pick1]), TreePiece(trees[pick2])]
  }

  // ---------------------------------------------------------------------------
  // Clearing the scene

  /** The children that survive clearing: those not named in ToDelete, in their order. */
  function Kept(children: seq<string>): seq<string> {
    if children == [] then []
    else (if Clearable(children[0]) then [] else [children[0]]) + Kept(children[1..])
  }

  /** No child that clearing removes survives it. */
  lemma {:induction false} KeptHasNoClearable(children: seq<string>)
    ensures forall x :: x in Kept(children) ==> !Clearable(x)
  {
    if children != [] {
      KeptHasNoClearable(children[1..]);
    }
  }

  /** Every child that clearing does not remove survives it, as many times as it occurred. */
  lemma {:induction false} KeptKeepsTheRest(children: seq<string>)
    ensures forall x :: !Clearable(x) ==> multiset(Kept(children))[x] == multiset(children)[x]
    ensures forall x :: Clearable(x) ==> multiset(Kept(children))[x] == 0
  {
    if children != [] {
      assert children == [children[0]] + children[1..];
      KeptKeepsTheRest(children[1..]);
    }
  }

  /** Clearing distributes over concatenation: it keeps the relative order of what survives. */
  lemma {:induction false} KeptAppend(a: seq<string>, b: seq<string>)
    ensures Kept(a + b) == Kept(a) + Kept(b)
  {
    if a != [] {
      assert (a + b)[0] == a[0] && (a + b)[1..] == a[1..] + b;
      KeptAppend(a[1..], b);
      var head := if Clearable(a[0]) then [] else [a[0]];
      assert Kept(a + b) == head + (Kept(a[1..]) + Kept(b));
    } else {
      assert a + b == b;
    }
  }

  /** Clearing is idempotent: a second clear removes nothing. */
  lemma {:induction false} KeptIdempotent(children: seq<string>)
    ensures Kept(Kept(children)) == Kept(children)
  {
    if children != [] {
      var head := if Clearable(children[0]) then [] else [children[0]];
      KeptAppend(head, Kept(children[1..]));
      KeptIdempotent(children[1..]);
    }
  }

  /** A scene with no child to delete is left as it is. */
  lemma {:induction false} KeptUnchanged(children: seq<string>)
    requires forall x :: x in children ==> !Clearable(x)
    ensures Kept(children) == children
  {
    if children != [] {
      KeptUnchanged(children[1..]);
    }
  }

  /** The scene graph, as far as clearing it is concerned: the names of its children, in order. */
  class SceneGraph {
    var children: seq<string>

    constructor (names: seq<string>)
      ensures children == names
    {
      children := names;
    }
  }

  /**
   * clearScene: walks the children from the last to the first and removes each
   * one named Building, Road, Grass or Tree, in place.
   */
  method ClearScene(scene: SceneGraph)
    modifies scene
    ensures scene.children == Kept(old(scene.children))
  {
    ghost var original := scene.children;
    var i := |scene.children| - 1;
    while i >= 0
      invariant -1 <= i < |original|
      invariant scene.children == original[..i + 1] + Kept(original[i + 1..])
    {
      assert scene.children[i] == original[i];
      assert original[i..] == [original[i]] + original[i + 1..];
      KeptAppend([original[i]], original[i + 1..]);
      if Clearable(scene.children[i]) {
        scene.children := scene.children[..i] + scene.children[i + 1..];
        assert scene.children == original[..i] + Kept(original[i + 1..]);
      } else {
        assert original[..i + 1] == original[..i] + [original[i]];
      }
      i := i - 1;
    }
    assert original[0..] == original;
  }
}
