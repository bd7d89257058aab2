/**
 * The parts of the game engine and of .NET that the asset manager relies on:
 * the run-time types of bundle objects, the objects themselves (as far as the
 * asset manager looks inside them), type assignability and invariant lower-casing.
 */
module Unity {
  import opened Wrappers

  /** The run-time `Type` of an engine object (`asset.GetType()`), or a requested type `T`. */
  datatype TypeTag =
    | ObjectType                      // UnityEngine.Object, the root of every asset type
    | GameObjectType
    | ShaderType
    | MaterialType
    | MeshType
    | OtherType(typeName: string)     // any other concrete asset type (textures, clips, ...)

  datatype Mesh = Mesh(name: string, id: nat)

  datatype Shader = Shader(name: string, id: nat)

  /** The only member of a skinned renderer that is read: its `sharedMesh`, possibly null. */
  datatype SkinnedMeshRenderer = SkinnedMeshRenderer(sharedMesh: Option<Mesh>)

  /** The only member of a mesh filter that is read: its `mesh`, possibly null. */
  datatype MeshFilter = MeshFilter(mesh: Option<Mesh>)

  /**
   * An object loaded from a bundle. A game object is described by the three
   * component queries made on it: `TryGetComponent<SkinnedMeshRenderer>`,
   * `GetComponent<MeshFilter>` and `GetComponentInChildren<MeshFilter>`.
   */
  datatype UObject =
    | GameObjectAsset(name: string,
                      skinnedRenderer: Option<SkinnedMeshRenderer>,
                      meshFilter: Option<MeshFilter>,
                      meshFilterInChildren: Option<MeshFilter>)
    | ShaderAsset(shader: Shader)
    | MaterialAsset(name: string, materialShader: Shader)
    | MeshAsset(mesh: Mesh)
    | OtherAsset(name: string, typeName: string)
  {
    /** `UnityEngine.Object.name` */
    function Name(): string {
      match this
      case GameObjectAsset(n, _, _, _) => n
      case ShaderAsset(s) => s.name
      case MaterialAsset(n, _) => n
      case MeshAsset(m) => m.name
      case OtherAsset(n, _) => n
    }
  }

  /** `GetType()`: the most derived run-time type of an object. */
  function TypeOf(o: UObject): TypeTag {
    match o
    case GameObjectAsset(_, _, _, _) => GameObjectType
    case ShaderAsset(_) => ShaderType
    case MaterialAsset(_, _) => MaterialType
    case MeshAsset(_) => MeshType
    case OtherAsset(_, t) => OtherType(t)
  }

  /**
   * `typeof(requested).IsAssignableFrom(actual)`: every asset type derives
   * directly from UnityEngine.Object, so a type accepts itself and Object accepts all.
   */
  predicate Assignable(requested: TypeTag, actual: TypeTag) {
    requested == actual || requested == ObjectType
  }

  /** A request for a concrete engine type is met only by an object of exactly that kind. */
  lemma AssignableKinds(o: UObject)
    ensures Assignable(GameObjectType, TypeOf(o)) <==> o.GameObjectAsset?
    ensures Assignable(ShaderType, TypeOf(o)) <==> o.ShaderAsset?
    ensures Assignable(MaterialType, TypeOf(o)) <==> o.MaterialAsset?
    ensures Assignable(MeshType, TypeOf(o)) <==> o.MeshAsset?
    ensures Assignable(ObjectType, TypeOf(o))
  {
  }

  predicate IsUpper(c: char) {
    'A' <= c <= 'Z'
  }

  function LowerChar(c: char): char {
    if IsUpper(c) then (c as int - 'A' as int + 'a' as int) as char else c
  }

  /** `ToLowerInvariant`, restricted to the ASCII letters. */
  function Lower(s: string): string {
    seq(|s|, i requires 0 <= i < |s| => LowerChar(s[i]))
  }

  /** A string that lower-casing leaves alone. */
  predicate IsLower(s: string) {
    forall i :: 0 <= i < |s| ==> !IsUpper(s[i])
  }

  /** Lower-casing yields a lower-case string of the same length, fixes exactly the lower-case strings, and is idempotent. */
  lemma LowerProperties(s: string)
    ensures |Lower(s)| == |s| && IsLower(Lower(s))
    ensures Lower(s) == s <==> IsLower(s)
    ensures Lower(Lower(s)) == Lower(s)
  {
    if Lower(s) == s {
      assert IsLower(s);
    }
    if IsLower(s) {
      assert forall i :: 0 <= i < |s| ==> Lower(s)[i] == s[i];
    }
  }
}
