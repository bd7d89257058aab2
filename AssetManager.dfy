/**
 * The asset manager: a name-indexed, type-checked cache over the objects of one
 * asset bundle, with a fixed table of retired asset names.
 *
 * The functions before the class are the reference description of the cache;
 * the class is the component itself and is proved against them.
 */
module LFO {
  import opened Wrappers
  import opened Unity

  /** What the cache stores under a name: the object's run-time type and the object. */
  datatype Entry = Entry(assetType: TypeTag, asset: UObject)

  /** One bundle path together with the object `LoadAsset(path)` returned for it. */
  datatype LoadedAsset = LoadedAsset(path: string, asset: UObject)

  /** A call made on the logger service. */
  datatype LogEvent =
    | Loaded(assetType: TypeTag, assetName: string, path: string)  // LogDebug while indexing
    | NotOfType(name: string, requested: TypeTag)                   // LogError: stored type does not fit
    | CouldNotFind(name: string)                                    // LogError: no entry, no rename

  /** The exceptions the mesh lookup can throw. */
  datatype Fault =
    | NullReference       // dereferencing a missing MeshFilter
    | ArgumentOutOfRange  // String.Remove with a negative start index

  /** Retired asset names and the names the assets have now. */
  const RenamedAssets: map<string, string> := map[
    "vfx_exh_bell_j_01" := "bell_j_1",
    "vfx_exh_bell_p2_1_0" := "bell_p2_1",
    "vfx_exh_shock_p1_s1_0" := "shock_1_pt1",
    "vfx_exh_shock_p2_s1_0" := "shock_1_pt2",
    "vfx_exh_shock_p3_s1_0" := "shock_1_pt3",
    "vfx_exh_shock_p4_s1_0" := "shock_1_pt4"
  ]

  /**
   * The rename table needs at most one hop: every retired name and every
   * replacement is already lower-case (so lower-casing a replacement leaves it
   * alone), and no replacement is itself retired.
   */
  lemma RenamedAssetsSingleHop()
    ensures forall retired :: retired in RenamedAssets ==>
              IsLower(retired) && IsLower(RenamedAssets[retired]) && RenamedAssets[retired] !in RenamedAssets &&
              Lower(RenamedAssets[retired]) == RenamedAssets[retired]
  {
    forall retired | retired in RenamedAssets
      ensures IsLower(retired) && IsLower(RenamedAssets[retired]) && RenamedAssets[retired] !in RenamedAssets
      ensures Lower(RenamedAssets[retired]) == RenamedAssets[retired]
    {
      var current := RenamedAssets[retired];
      assert IsLower(retired) && IsLower(current) && current !in RenamedAssets;
      LowerProperties(current);
    }
  }

  // ---------------------------------------------------------------------------
  // Building the index

  /** The key an asset is cached under: its name, lower-cased. */
  function KeyOf(a: LoadedAsset): string {
    Lower(a.asset.Name())
  }

  function EntryOf(a: LoadedAsset): Entry {
    Entry(TypeOf(a.asset), a.asset)
  }

  /** The cache after storing the assets one after the other, each overwriting its key. */
  function BuildIndex(assets: seq<LoadedAsset>): map<string, Entry> {
    if assets == [] then map[]
    else
      var last := assets[|assets| - 1];
      BuildIndex(assets[..|assets| - 1])[KeyOf(last) := EntryOf(last)]
  }

  /** The debug records written while indexing, one per asset in path order. */
  function LoadEvents(assets: seq<LoadedAsset>): seq<LogEvent> {
    seq(|assets|, i requires 0 <= i < |assets| =>
      Loaded(TypeOf(assets[i].asset), assets[i].asset.Name(), assets[i].path))
  }

  /** Every entry records the run-time type of the object it holds. */
  ghost predicate WellTyped(index: map<string, Entry>) {
    forall k :: k in index ==> index[k].assetType == TypeOf(index[k].asset)
  }

  lemma {:induction false} BuildIndexWellTyped(assets: seq<LoadedAsset>)
    ensures WellTyped(BuildIndex(assets))
  {
    if assets != [] {
      BuildIndexWellTyped(assets[..|assets| - 1]);
    }
  }

  // ---------------------------------------------------------------------------
  // Name resolution, stated without recursion

  /**
   * The key a lookup of `name` finally consults: the lower-cased name if it is
   * cached or not retired, otherwise its replacement from the rename table.
   */
  function FinalKey(index: map<string, Entry>, name: string): string {
    var key := Lower(name);
    if key !in index && key in RenamedAssets then RenamedAssets[key] else key
  }

  /** The cache entry a name denotes, if any. */
  function Resolve(index: map<string, Entry>, name: string): Option<Entry> {
    var key := FinalKey(index, name);
    if key in index then Some(index[key]) else None
  }

  /** The object a lookup of `name` as type `t` yields: the denoted entry's object when its type fits. */
  function Lookup(index: map<string, Entry>, name: string, t: TypeTag): Option<UObject> {
    match Resolve(index, name)
    case Some(e) => if Assignable(t, e.assetType) then Some(e.asset) else None
    case None => None
  }

  /** The errors the logging lookup reports for `name` as type `t`. */
  function LookupErrors(index: map<string, Entry>, name: string, t: TypeTag): seq<LogEvent> {
    var key := FinalKey(index, name);
    if key !in index then [CouldNotFind(key)]
    else if Assignable(t, index[key].assetType) then []
    else [NotOfType(key, t)]
  }

  // ---------------------------------------------------------------------------
  // Mesh and shader derivation

  /** The mesh of a prefab found directly: the skinned renderer's, else the mesh filter's. */
  function PrefabMesh(prefab: UObject): Result<Option<Mesh>, Fault>
    requires prefab.GameObjectAsset?
  {
    if prefab.skinnedRenderer.Some? then Success(prefab.skinnedRenderer.value.sharedMesh)
    else if prefab.meshFilter.Some? then Success(prefab.meshFilter.value.mesh)
    else Failure(NullReference)
  }

  /** The mesh of the first mesh filter at or below a prefab. */
  function ChildMesh(prefab: UObject): Option<Mesh>
    requires prefab.GameObjectAsset?
  {
    if prefab.meshFilterInChildren.Some? then prefab.meshFilterInChildren.value.mesh else None
  }

  /**
   * The outcome of a mesh lookup and the errors it logs: a direct game-object
   * lookup, and failing that a lookup of the name without its last two
   * characters (the `name_#` convention for meshes exported from one file).
   */
  function MeshLookup(index: map<string, Entry>, meshName: string): (Result<Option<Mesh>, Fault>, seq<LogEvent>)
    requires WellTyped(index)
  {
    var direct := Lookup(index, meshName, GameObjectType);
    var directErrors := LookupErrors(index, meshName, GameObjectType);
    if direct.Some? then
      AssignableKinds(direct.value);
      (PrefabMesh(direct.value), directErrors)
    else if |meshName| < 2 then
      (Failure(ArgumentOutOfRange), directErrors)
    else
      var baseName := meshName[..|meshName| - 2];
      var stemMesh :=
        match Lookup(index, baseName, GameObjectType)
        case Some(prefab) => (AssignableKinds(prefab); ChildMesh(prefab))
        case None => None;
      (Success(stemMesh), directErrors + LookupErrors(index, baseName, GameObjectType))
  }

  /** The shader an entry provides: a shader itself, or the shader a material uses. */
  function EntryShader(e: Option<Entry>): Option<Shader> {
    match e
    case Some(Entry(_, ShaderAsset(s))) => Some(s)
    case Some(Entry(_, MaterialAsset(_, s))) => Some(s)
    case _ => None
  }

  // ---------------------------------------------------------------------------
  // The component

  class AssetManager {
    /** The cache: lower-cased asset name to (run-time type, object). */
    var cachedAssets: map<string, Entry>
    /** Everything sent to the logger service by this instance, oldest first. */
    var log: seq<LogEvent>

    ghost predicate Valid()
      reads this
    {
      WellTyped(cachedAssets)
    }

    /** Indexes the objects of a bundle, given as the paths it lists with the object loaded from each. */
    constructor (assets: seq<LoadedAsset>)
      ensures Valid()
      ensures cachedAssets == BuildIndex(assets)
      ensures log == LoadEvents(assets)
    {
      cachedAssets := map[];
      log := [];
      new;
      var i := 0;
      while i < |assets|
        invariant 0 <= i <= |assets|
        invariant cachedAssets == BuildIndex(assets[..i])
        invariant log == LoadEvents(assets[..i])
      {
        var asset := assets[i].asset;
        var assetType := TypeOf(asset);
        cachedAssets := cachedAssets[Lower(asset.Name()) := Entry(assetType, asset)];
        log := log + [Loaded(assetType, asset.Name(), assets[i].path)];
        assert assets[..i + 1][..i] == assets[..i];
        i := i + 1;
      }
      assert assets[..i] == assets;
      BuildIndexWellTyped(assets);
    }

    /**
     * The quiet lookup: `None` is `false` with `asset` left at its default,
     * `Some(o)` is `true` with `asset == o`.
     */
    function TryGetAsset(name: string, t: TypeTag): (r: Option<UObject>)
      reads this
      ensures r == Lookup(cachedAssets, name, t)
      ensures Valid() && r.Some? ==> Assignable(t, TypeOf(r.value))
      decreases Lower(name) in RenamedAssets
    {
      var key := Lower(name);
      if key !in cachedAssets then
        if key in RenamedAssets then
          RenamedAssetsSingleHop();
          TryGetAsset(RenamedAssets[key], t)
        else
          None
      else if !Assignable(t, cachedAssets[key].assetType) then
        None
      else
        Some(cachedAssets[key].asset)
    }

    /** The logging lookup: the same object as the quiet one, with one error logged when there is none. */
    method GetAsset(name: string, t: TypeTag) returns (r: Option<UObject>)
      modifies this`log
      ensures r == TryGetAsset(name, t)
      ensures log == old(log) + LookupErrors(cachedAssets, name, t)
      decreases Lower(name) in RenamedAssets
    {
      var key := Lower(name);
      if key in cachedAssets {
        var found := cachedAssets[key];
        if Assignable(t, found.assetType) {
          return Some(found.asset);
        }
        log := log + [NotOfType(key, t)];
        return None;
      }
      if key in RenamedAssets {
        RenamedAssetsSingleHop();
        r := GetAsset(RenamedAssets[key], t);
        return;
      }
      log := log + [CouldNotFind(key)];
      return None;
    }

    /** The mesh of the prefab called `meshName`, or of the prefab named by its `name_#` stem. */
    method GetMesh(meshName: string) returns (r: Result<Option<Mesh>, Fault>)
      requires Valid()
      modifies this`log
      ensures r == MeshLookup(cachedAssets, meshName).0
      ensures log == old(log) + MeshLookup(cachedAssets, meshName).1
    {
      var prefab := GetAsset(meshName, GameObjectType);
      if prefab.Some? {
        var fbxPrefab := prefab.value;
        AssignableKinds(fbxPrefab);
        if fbxPrefab.skinnedRenderer.Some? {
          r := Success(fbxPrefab.skinnedRenderer.value.sharedMesh);
        } else if fbxPrefab.meshFilter.Some? {
          r := Success(fbxPrefab.meshFilter.value.mesh);
        } else {
          r := Failure(NullReference);
        }
        return;
      }
      if |meshName| < 2 {
        return Failure(ArgumentOutOfRange);
      }
      var stem := GetAsset(meshName[..|meshName| - 2], GameObjectType);
      if stem.Some? {
        AssignableKinds(stem.value);
        var filter := stem.value.meshFilterInChildren;
        r := Success(if filter.Some? then filter.value.mesh else None);
      } else {
        r := Success(None);
      }
    }

    /**
     * The shader stored under a name, or else the shader of the material stored
     * under it. Both probes are quiet, so nothing is logged.
     */
    function GetShader(shaderOrMaterialName: string): (r: Option<Shader>)
      reads this
      requires Valid()
      ensures r == EntryShader(Resolve(cachedAssets, shaderOrMaterialName))
    {
      match TryGetAsset(shaderOrMaterialName, ShaderType)
      case Some(shader) =>
        AssignableKinds(shader);
        Some(shader.shader)
      case None =>
        match TryGetAsset(shaderOrMaterialName, MaterialType)
        case Some(material) =>
          AssignableKinds(material);
          Some(material.materialShader)
        case None => None
    }
  }
}
