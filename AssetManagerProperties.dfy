/** Properties of the asset cache: how it is built, how names resolve, and what the derived lookups return. */
module AssetManagerProperties {
  import opened Wrappers
  import opened Unity
  import opened LFO

  // ---------------------------------------------------------------------------
  // Building the index

  /** The cache holds exactly the lower-cased names of the loaded assets, and only lower-case keys. */
  lemma {:induction false} BuildIndexKeys(assets: seq<LoadedAsset>)
    ensures BuildIndex(assets).Keys == set i | 0 <= i < |assets| :: KeyOf(assets[i])
    ensures forall k :: k in BuildIndex(assets) ==> IsLower(k)
  {
    if assets != [] {
      var front := assets[..|assets| - 1];
      BuildIndexKeys(front);
      var last := assets[|assets| - 1];
      assert forall i :: 0 <= i < |front| ==> front[i] == assets[i];
      calc {
        BuildIndex(assets).Keys;
        BuildIndex(front).Keys + {KeyOf(last)};
        (set i | 0 <= i < |front| :: KeyOf(front[i])) + {KeyOf(last)};
        set i | 0 <= i < |assets| :: KeyOf(assets[i]);
      }
      LowerProperties(last.asset.Name());
    }
  }

  /** Last one wins: an asset whose key no later asset shares is the one cached under that key. */
  lemma {:induction false} BuildIndexLastWins(assets: seq<LoadedAsset>, i: nat)
    requires i < |assets|
    requires forall j :: i < j < |assets| ==> KeyOf(assets[j]) != KeyOf(assets[i])
    ensures KeyOf(assets[i]) in BuildIndex(assets)
    ensures BuildIndex(assets)[KeyOf(assets[i])] == EntryOf(assets[i])
  {
    if i < |assets| - 1 {
      var front := assets[..|assets| - 1];
      assert forall j :: i < j < |front| ==> front[j] == assets[j];
      BuildIndexLastWins(front, i);
    }
  }

  // ---------------------------------------------------------------------------
  // Name resolution

  /** Lookups ignore case: names with the same lower-case form give the same object and the same errors. */
  lemma LookupCaseInsensitive(index: map<string, Entry>, a: string, b: string, t: TypeTag)
    requires Lower(a) == Lower(b)
    ensures Lookup(index, a, t) == Lookup(index, b, t)
    ensures LookupErrors(index, a, t) == LookupErrors(index, b, t)
  {
  }

  /** A cached name whose type fits yields the stored object and logs nothing. */
  lemma LookupDirectHit(index: map<string, Entry>, name: string, t: TypeTag)
    requires Lower(name) in index && Assignable(t, index[Lower(name)].assetType)
    ensures Lookup(index, name, t) == Some(index[Lower(name)].asset)
    ensures LookupErrors(index, name, t) == []
  {
  }

  /** A cached name whose type does not fit fails with one type error, and the rename table is never consulted. */
  lemma LookupTypeMismatch(index: map<string, Entry>, name: string, t: TypeTag)
    requires Lower(name) in index && !Assignable(t, index[Lower(name)].assetType)
    ensures FinalKey(index, name) == Lower(name)
    ensures Lookup(index, name, t) == None
    ensures LookupErrors(index, name, t) == [NotOfType(Lower(name), t)]
  {
  }

  /** A retired name that is not cached resolves exactly as its replacement does, errors included. */
  lemma LookupRenamed(index: map<string, Entry>, name: string, t: TypeTag)
    requires Lower(name) !in index && Lower(name) in RenamedAssets
    ensures Lookup(index, name, t) == Lookup(index, RenamedAssets[Lower(name)], t)
    ensures LookupErrors(index, name, t) == LookupErrors(index, RenamedAssets[Lower(name)], t)
  {
    RenamedAssetsSingleHop();
  }

  /** A name neither cached nor retired yields nothing and one "not found" error. */
  lemma LookupMissing(index: map<string, Entry>, name: string, t: TypeTag)
    requires Lower(name) !in index && Lower(name) !in RenamedAssets
    ensures Lookup(index, name, t) == None
    ensures LookupErrors(index, name, t) == [CouldNotFind(Lower(name))]
  {
  }

  /** The logging lookup logs exactly one error when the quiet lookup fails, and nothing when it succeeds. */
  lemma LookupErrorsExactlyOnFailure(index: map<string, Entry>, name: string, t: TypeTag)
    ensures LookupErrors(index, name, t) == [] <==> Lookup(index, name, t).Some?
    ensures |LookupErrors(index, name, t)| <= 1
    ensures forall e :: e in LookupErrors(index, name, t) ==> !e.Loaded?
  {
  }

  /** What the quiet lookup returns is cached under some key, with a type that fits the request. */
  lemma LookupTypeSafe(index: map<string, Entry>, name: string, t: TypeTag)
    requires WellTyped(index)
    requires Lookup(index, name, t).Some?
    ensures Assignable(t, TypeOf(Lookup(index, name, t).value))
    ensures exists k :: k in index && index[k].asset == Lookup(index, name, t).value
  {
    var k := FinalKey(index, name);
    assert k in index && index[k].asset == Lookup(index, name, t).value;
  }

  // ---------------------------------------------------------------------------
  // Mesh derivation

  /** A prefab found directly gives its own mesh, and nothing is logged. */
  lemma MeshDirectHit(index: map<string, Entry>, meshName: string)
    requires WellTyped(index)
    requires Lookup(index, meshName, GameObjectType).Some?
    ensures Lookup(index, meshName, GameObjectType).value.GameObjectAsset?
    ensures MeshLookup(index, meshName) == (PrefabMesh(Lookup(index, meshName, GameObjectType).value), [])
  {
    AssignableKinds(Lookup(index, meshName, GameObjectType).value);
  }

  /**
   * Without a direct prefab, the name minus its last two characters is looked
   * up instead, after the failed direct lookup has logged its error.
   */
  lemma MeshFallback(index: map<string, Entry>, meshName: string)
    requires WellTyped(index)
    requires Lookup(index, meshName, GameObjectType).None?
    requires |meshName| >= 2
    ensures MeshLookup(index, meshName).0.Success?
    ensures var stem := Lookup(index, meshName[..|meshName| - 2], GameObjectType);
            MeshLookup(index, meshName).0.value ==
              if stem.Some? && stem.value.meshFilterInChildren.Some?
              then stem.value.meshFilterInChildren.value.mesh else None
    ensures MeshLookup(index, meshName).1 ==
              LookupErrors(index, meshName, GameObjectType) + LookupErrors(index, meshName[..|meshName| - 2], GameObjectType)
    ensures |MeshLookup(index, meshName).1| >= 1
  {
    LookupErrorsExactlyOnFailure(index, meshName, GameObjectType);
    var stem := Lookup(index, meshName[..|meshName| - 2], GameObjectType);
    if stem.Some? {
      AssignableKinds(stem.value);
    }
  }

  /** A name of fewer than two characters with no direct prefab throws, after exactly one logged error. */
  lemma MeshShortName(index: map<string, Entry>, meshName: string)
    requires WellTyped(index)
    requires Lookup(index, meshName, GameObjectType).None?
    requires |meshName| < 2
    ensures MeshLookup(index, meshName).0 == Failure(ArgumentOutOfRange)
    ensures |MeshLookup(index, meshName).1| == 1
  {
    LookupErrorsExactlyOnFailure(index, meshName, GameObjectType);
  }

  // ---------------------------------------------------------------------------
  // Worked examples

  /** A prefab "Barrel" serves the mesh of "barrel_1", found through the `name_#` convention. */
  lemma BarrelExample(assets: seq<LoadedAsset>, m: Mesh)
    requires assets == [LoadedAsset("assets/barrel.prefab", GameObjectAsset("Barrel", None, None, Some(MeshFilter(Some(m)))))]
    ensures WellTyped(BuildIndex(assets)) && MeshLookup(BuildIndex(assets), "barrel_1").0 == Success(Some(m))
  {
    BuildIndexWellTyped(assets);
    assert assets[..0] == [];
    assert Lower("barrel_1") == "barrel_1";
    assert Lower("Barrel") == "barrel";
    assert "barrel_1"[..6] == "barrel" && Lower("barrel") == "barrel";
    assert KeyOf(assets[0]) == "barrel";
    var index := BuildIndex(assets);
    assert index == BuildIndex(assets[..0])[KeyOf(assets[0]) := EntryOf(assets[0])];
    assert index == map["barrel" := EntryOf(assets[0])];
    assert "barrel_1" !in RenamedAssets;
    assert Lookup(index, "barrel_1", GameObjectType) == None;
    assert Lookup(index, "barrel", GameObjectType) == Some(assets[0].asset);
  }

  /** Asking for the retired name "VFX_EXH_BELL_J_01" finds the asset now called "Bell_J_1". */
  lemma RenameExample(assets: seq<LoadedAsset>, o: UObject)
    requires o.OtherAsset? && o.name == "Bell_J_1"
    requires assets == [LoadedAsset("assets/bell.asset", o)]
    ensures Lookup(BuildIndex(assets), "VFX_EXH_BELL_J_01", ObjectType) == Some(o)
  {
    assert assets[..0] == [];
    assert Lower("Bell_J_1") == "bell_j_1";
    assert Lower("VFX_EXH_BELL_J_01") == "vfx_exh_bell_j_01";
    assert KeyOf(assets[0]) == "bell_j_1";
    assert BuildIndex(assets) == map["bell_j_1" := EntryOf(assets[0])];
  }
}
