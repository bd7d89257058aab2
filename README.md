# LFO asset manager, modelled in Dafny

`AssetManager` (src/LFO/Services/AssetManager.cs) loads one asset bundle and caches every object in it under its lower-cased name, together with the object's run-time type. Callers then ask for an asset by name and by expected type:

- `TryGetAsset<T>` is the quiet lookup: it returns `false` on any failure.
- `GetAsset<T>` is the logging lookup: it returns `null` and logs an error on failure.

Both look the lower-cased name up directly. A hit whose stored type is not assignable to `T` fails, and the rename table is not consulted. A miss falls back to a fixed table of retired names (`RenamedAssets`) and recurses on the replacement. Two lookups are built on top of these:

- `GetMesh` finds a prefab by name and returns its mesh. Failing that, it drops the last two characters (the `name_#` convention) and tries again.
- `GetShader` returns the shader stored under a name, or else the shader of the material stored under it.

Files:

- `Wrappers.dfy`: `Option` (a possibly-null reference) and `Result` (a value or a thrown exception).
- `Unity.dfy`: the engine side. It has the run-time types (`TypeTag`), the objects (`UObject`) as far as the manager looks into them, `Assignable` for `IsAssignableFrom`, and `Lower` for `ToLowerInvariant`.
- `AssetManager.dfy` (module `LFO`): the rename table and the reference description of the cache:
  - `BuildIndex` describes the cache after loading.
  - `FinalKey`, `Resolve`, `Lookup` and `LookupErrors` describe name resolution without recursion.
  - `MeshLookup` and `EntryShader` describe the two derived lookups.

  The class `AssetManager` is proved against these: its constructor loop, the recursive `TryGetAsset` and `GetAsset`, `GetMesh` and `GetShader`. The logger is the field `log`, which records every call this instance makes on it.
- `AssetManagerProperties.dfy`: lemmas about the reference description. They cover last-wins indexing, case-insensitivity, the type gate, rename fallback, error logging and mesh derivation, plus two worked examples.

## Model

| member | source | states |
|---|---|---|
| `Unity.LowerProperties` | src/LFO/Services/AssetManager.cs:44 | Lower-casing keeps the length and yields a lower-case string. It fixes exactly the lower-case strings and is idempotent, so a query and a stored key normalise alike. |
| `Unity.AssignableKinds` | src/LFO/Services/AssetManager.cs:51 | Asking for GameObject, Shader, Material or Mesh accepts only an object of exactly that kind. Asking for UnityEngine.Object accepts every object. |
| `LFO.RenamedAssetsSingleHop` | src/LFO/Services/AssetManager.cs:14-22 | Every retired name and every replacement in the rename table is lower-case, so lower-casing a replacement leaves it unchanged, and no replacement is itself a retired name. So the recursive lookup stops after at most one hop. |
| `LFO.BuildIndexWellTyped` | src/LFO/Services/AssetManager.cs:33-35 | Every cached entry records the run-time type of the object it holds. |
| `LFO.AssetManager.constructor` | src/LFO/Services/AssetManager.cs:24-38 | Storing the bundle's objects one by one, each overwriting its lower-cased key, gives the cache `BuildIndex(assets)`. Exactly one debug record per asset is logged, in path order. |
| `LFO.AssetManager.TryGetAsset` | src/LFO/Services/AssetManager.cs:40-59 | The recursive quiet lookup equals the flat resolution `Lookup`. That means a direct hit gated by type, else the rename target, else nothing. Whatever it returns has a type assignable to the requested one. |
| `LFO.AssetManager.GetAsset` | src/LFO/Services/AssetManager.cs:61-83 | The logging lookup returns exactly what the quiet lookup returns. It appends to the log exactly the errors `LookupErrors` names and changes nothing else. |
| `LFO.AssetManager.GetMesh` | src/LFO/Services/AssetManager.cs:85-98 | The result and the appended log are those of `MeshLookup`, which covers both exceptions the source can throw. |
| `LFO.AssetManager.GetShader` | src/LFO/Services/AssetManager.cs:100-113 | Both probes read the one entry the name resolves to. The result is that entry's shader if it is a shader, its material's shader if it is a material, and null otherwise. Nothing is logged. |
| `AssetManagerProperties.BuildIndexKeys` | src/LFO/Services/AssetManager.cs:31-37 | After loading, the keys are exactly the lower-cased names of the loaded assets, and every key is lower-case. |
| `AssetManagerProperties.BuildIndexLastWins` | src/LFO/Services/AssetManager.cs:35 | If no later asset shares an asset's lower-cased name, the entry cached under that name is that asset's type and object. The last one wins. |
| `AssetManagerProperties.LookupCaseInsensitive` | src/LFO/Services/AssetManager.cs:44-46 | Two names with the same lower-case form give the same object and the same logged errors. |
| `AssetManagerProperties.LookupDirectHit` | src/LFO/Services/AssetManager.cs:51-57 | A cached name whose stored type fits yields exactly the stored object and logs nothing. |
| `AssetManagerProperties.LookupTypeMismatch` | src/LFO/Services/AssetManager.cs:65-73 | A cached name whose stored type does not fit yields null with one "not of type" error. The rename table is not consulted, even for a retired name. |
| `AssetManagerProperties.LookupRenamed` | src/LFO/Services/AssetManager.cs:76-79 | A retired name that is not cached resolves exactly as its replacement does, in both the object and the errors. |
| `AssetManagerProperties.LookupMissing` | src/LFO/Services/AssetManager.cs:80-82 | A name that is neither cached nor retired yields null with one "couldn't find" error naming the lower-cased name. |
| `AssetManagerProperties.LookupErrorsExactlyOnFailure` | src/LFO/Services/AssetManager.cs:61-83 | The logging lookup logs nothing when the quiet lookup succeeds. It logs exactly one error, and never a debug record, when the quiet lookup fails. |
| `AssetManagerProperties.LookupTypeSafe` | src/LFO/Services/AssetManager.cs:51-56 | In a well-typed cache, an object returned for type `T` has a type assignable to `T` and is stored under some key. |
| `AssetManagerProperties.MeshDirectHit` | src/LFO/Services/AssetManager.cs:87-92 | A prefab found directly gives its skinned renderer's shared mesh, else its mesh filter's mesh, else a null dereference. Nothing is logged. |
| `AssetManagerProperties.MeshFallback` | src/LFO/Services/AssetManager.cs:94-97 | With no direct prefab, the name minus its last two characters is looked up. Its first mesh filter's mesh, or null, is returned. The appended log is the failed direct lookup's one error followed by the errors of the stem lookup. |
| `AssetManagerProperties.MeshShortName` | src/LFO/Services/AssetManager.cs:95 | With no direct prefab and a name shorter than two characters, the call throws ArgumentOutOfRange after exactly one logged error. |
| `AssetManagerProperties.BarrelExample` | src/LFO/Services/AssetManager.cs:94-97 | A bundle holding only a prefab "Barrel" serves that prefab's mesh-filter mesh for "barrel_1". |
| `AssetManagerProperties.RenameExample` | src/LFO/Services/AssetManager.cs:16 | An asset now named "Bell_J_1" is found under its retired name "VFX_EXH_BELL_J_01". |

## Left out

- Bundle I/O (`AssetBundle.LoadFromFile`, `GetAllAssetNames`, `LoadAsset`) is not modelled. The constructor takes the list of (path, loaded object) pairs. A bundle that cannot be opened (a null bundle, then a null dereference) is therefore not modelled.
- The logger comes from `ServiceProvider.GetService<ILogger>()`, and that is not modelled. Log calls are `LogEvent` values appended to `log`, without their message text. `log` starts empty at construction.
- `ToLowerInvariant` is modelled on ASCII letters only. Full Unicode case mapping is not modelled.
- `IsAssignableFrom` is modelled over a flat hierarchy: every asset type derives directly from UnityEngine.Object. Deeper .NET/Unity inheritance (Texture2D under Texture, say) is not modelled.
- Unity component queries are fields of the game-object value: `TryGetComponent<SkinnedMeshRenderer>`, `GetComponent<MeshFilter>` and `GetComponentInChildren<MeshFilter>`. Their search over the scene hierarchy is not modelled. `MeshFilter.mesh` duplicating the shared mesh on first access is not modelled either. `Material.shader` is never null in the model.
- Null names, and Unity's "destroyed object compares equal to null", are not modelled: names are plain strings and objects are values.
- The rename chain has no hop-count guard: the lookups recurse exactly as the source does, and `LFO.RenamedAssetsSingleHop` proves that the constant table needs at most one hop.
- `GetMesh` does not guard short names: a name shorter than two characters makes `String.Remove` throw, and the model returns `Failure(ArgumentOutOfRange)` rather than an empty result.
- `LFO.AssetManager.GetMesh`, `LFO.AssetManager.GetShader`: require the class invariant `Valid()` (every entry's type tag is its object's run-time type). The constructor establishes it and nothing changes the cache afterwards.
- LFO.AssetManager.GetMesh, AssetManagerProperties.MeshFallback, AssetManagerProperties.MeshShortName: string lengths count Unicode scalar values, not the UTF-16 code units of .NET's `Length` and `Remove`. So names with characters outside the Basic Multilingual Plane truncate and throw differently: "😀" throws in the model but is cut to "" in the source.
