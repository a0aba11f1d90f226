/** `Model` (Model.h / Model.cpp): a list of meshes, either a single given mesh
    or the meshes of an imported scene. The importer (Assimp) is an oracle
    whose answer is an `AiScene` value or nothing; `loadModel` walks the
    scene's node tree in pre-order, turns each referenced mesh into a `Mesh`
    and loads each material texture at most once per cache key. */
module Models {
  import opened Base
  import opened Geometry
  import opened GL
  import opened Meshes

  // ---------------------------------------------------------------------
  // The imported scene, as the importer returns it.

  datatype AiVector3 = AiVector3(x: real, y: real, z: real)

  /** Channel 0 of the texture coordinates is absent when `texCoords0` is
      `None`; each face lists vertex indices. */
  datatype AiMesh = AiMesh(
    vertices: seq<AiVector3>,
    normals: seq<AiVector3>,
    texCoords0: Option<seq<AiVector3>>,
    faces: seq<seq<nat>>,
    materialIndex: nat)

  /** The diffuse and specular texture file names of a material, by slot. */
  datatype AiMaterial = AiMaterial(diffuse: seq<string>, specular: seq<string>)

  /** A node refers to scene meshes by index and owns its children. */
  datatype AiNode = AiNode(meshes: seq<nat>, children: seq<AiNode>)

  datatype AiScene = AiScene(incomplete: bool, root: Option<AiNode>, meshes: seq<AiMesh>, materials: seq<AiMaterial>)

  /** Per-vertex arrays have one entry per vertex. */
  predicate MeshWellFormed(m: AiMesh)
  {
    && |m.normals| == |m.vertices|
    && (m.texCoords0.Some? ==> |m.texCoords0.value| == |m.vertices|)
  }

  /** Every mesh index in the subtree names a scene mesh. */
  predicate NodeWellFormed(node: AiNode, meshCount: nat)
    decreases node
  {
    && (forall i :: 0 <= i < |node.meshes| ==> node.meshes[i] < meshCount)
    && forall i :: 0 <= i < |node.children| ==> NodeWellFormed(node.children[i], meshCount)
  }

  /** Every scene mesh is well formed and names an existing material. */
  predicate MeshesWellFormed(scene: AiScene)
  {
    forall i :: 0 <= i < |scene.meshes| ==>
      MeshWellFormed(scene.meshes[i]) && scene.meshes[i].materialIndex < |scene.materials|
  }

  /** What a successful import guarantees about the scene it hands over. */
  predicate SceneWellFormed(scene: AiScene)
  {
    && MeshesWellFormed(scene)
    && (scene.root.Some? ==> NodeWellFormed(scene.root.value, |scene.meshes|))
  }

  // ---------------------------------------------------------------------
  // Model state

  /** The `Model` object: its meshes, the directory of the imported file and
      the textures loaded so far. */
  datatype Model = Model(meshes: seq<Mesh>, directory: string, texturesLoaded: seq<MeshTexture>)

  /** Import-time state: the model under construction, the next unused GL
      object name, and every path handed to `Texture::loadTexture`, in order. */
  datatype Loader = Loader(model: Model, nextName: nat, loads: seq<string>)

  const EmptyModel: Model := Model([], "", [])

  /** `Model(const Mesh&)`. */
  function FromMesh(mesh: Mesh): (m: Model)
    ensures |m.meshes| == 1 && m.meshes[0] == mesh
  {
    Model([mesh], "", [])
  }

  /** Trace of `Model::draw`: each mesh's `draw`, in list order. */
  function ModelDrawCalls(meshes: seq<Mesh>): seq<Call>
  {
    if |meshes| == 0 then [] else DrawCalls(meshes[0]) + ModelDrawCalls(meshes[1..])
  }

  /** Drawing a concatenation of mesh lists draws the first list, then the
      second; a model built from one mesh draws exactly that mesh. */
  lemma {:induction false} ModelDrawInOrder(a: seq<Mesh>, b: seq<Mesh>)
    ensures ModelDrawCalls(a + b) == ModelDrawCalls(a) + ModelDrawCalls(b)
  {
    if |a| == 0 {
      assert a + b == b;
    } else {
      assert (a + b)[0] == a[0];
      assert (a + b)[1..] == a[1..] + b;
      ModelDrawInOrder(a[1..], b);
      assert ModelDrawCalls(a + b) == DrawCalls(a[0]) + ModelDrawCalls(a[1..] + b);
    }
  }

  lemma DrawFromMesh(mesh: Mesh)
    ensures ModelDrawCalls(FromMesh(mesh).meshes) == DrawCalls(mesh)
  {
  }

  // ---------------------------------------------------------------------
  // Directory of the imported file

  /** Position of the last `c` in `s`, if any (`find_last_of`). */
  function LastIndexOf(s: string, c: char): (r: Option<nat>)
    ensures r.Some? ==> r.value < |s| && s[r.value] == c && forall j :: r.value < j < |s| ==> s[j] != c
    ensures r.None? ==> forall j :: 0 <= j < |s| ==> s[j] != c
  {
    if |s| == 0 then None
    else if s[|s| - 1] == c then Some(|s| - 1)
    else LastIndexOf(s[..|s| - 1], c)
  }

  /** `path.substr(0, path.find_last_of('/'))`: `npos` keeps the whole path. */
  function Directory(path: string): string
  {
    match LastIndexOf(path, '/')
    case None => path
    case Some(k) => path[..k]
  }

  /** The directory is the part of the path before its last '/', and the
      path is that directory, a '/', and a slash-free file name; a path
      without '/' is its own directory. */
  lemma DirectorySplit(path: string)
    ensures var d := Directory(path);
      && ('/' !in path ==> d == path)
      && ('/' in path ==>
            && |d| < |path|
            && path == d + "/" + path[|d| + 1..]
            && '/' !in path[|d| + 1..])
  {
    var d := Directory(path);
    match LastIndexOf(path, '/')
    case None =>
    case Some(k) =>
      assert path == path[..k] + "/" + path[k + 1..];
      var name := path[k + 1..];
      forall j | 0 <= j < |name|
        ensures name[j] != '/'
      {
        assert name[j] == path[k + 1 + j];
      }
  }

  // ---------------------------------------------------------------------
  // Texture cache

  /** How a requested file name is compared with stored paths: as written,
      the raw name is compared (`RawName`); the evidently intended key is the
      full path that a load would store (`DirectoryPath`). */
  datatype KeyRule = RawName | DirectoryPath

  /** The path a load stores for `name`: `directory + '/' + name`. */
  function StoredPath(directory: string, name: string): string
  {
    directory + "/" + name
  }

  function CacheKey(rule: KeyRule, directory: string, name: string): string
  {
    match rule
    case RawName => name
    case DirectoryPath => StoredPath(directory, name)
  }

  /** First cached texture whose path equals `key` (`strcmp(...) == 0`,
      then `break`). */
  function FindByPath(loaded: seq<MeshTexture>, key: string, from: nat): (r: Option<nat>)
    requires from <= |loaded|
    ensures r.Some? ==> from <= r.value < |loaded| && loaded[r.value].path == key
    ensures r.Some? ==> forall j :: from <= j < r.value ==> loaded[j].path != key
    ensures r.None? ==> forall j :: from <= j < |loaded| ==> loaded[j].path != key
    decreases |loaded| - from
  {
    if from == |loaded| then None
    else if loaded[from].path == key then Some(from)
    else FindByPath(loaded, key, from + 1)
  }

  predicate Cached(loaded: seq<MeshTexture>, key: string)
  {
    exists j :: 0 <= j < |loaded| && loaded[j].path == key
  }

  datatype Step = Step(texture: MeshTexture, loader: Loader)

  /** One slot of `loadMaterialTextures`: a cache hit returns the first cached
      entry and changes nothing; a miss loads `directory/name` into a fresh
      texture of kind `kind`, and appends it to the cache. */
  function LoadSlot(ld: Loader, name: string, kind: string, rule: KeyRule): (r: Step)
    ensures var loaded := ld.model.texturesLoaded;
            var key := CacheKey(rule, ld.model.directory, name);
      && (Cached(loaded, key) ==>
            && r.loader == ld
            && exists j :: 0 <= j < |loaded| && r.texture == loaded[j] && loaded[j].path == key
                          && forall i :: 0 <= i < j ==> loaded[i].path != key)
      && (!Cached(loaded, key) ==>
            && r.texture == MeshTexture(ld.nextName, kind, StoredPath(ld.model.directory, name))
            && r.loader == Loader(ld.model.(texturesLoaded := loaded + [r.texture]), ld.nextName + 1,
                                  ld.loads + [StoredPath(ld.model.directory, name)]))
  {
    var loaded := ld.model.texturesLoaded;
    match FindByPath(loaded, CacheKey(rule, ld.model.directory, name), 0)
    case Some(j) => Step(loaded[j], ld)
    case None =>
      var path := StoredPath(ld.model.directory, name);
      var texture := MeshTexture(ld.nextName, kind, path);
      Step(texture, Loader(ld.model.(texturesLoaded := loaded + [texture]), ld.nextName + 1, ld.loads + [path]))
  }

  /** The entry returned for slot `name` either came from the cache under
      the rule's key or was just loaded from `directory/name` as `kind`. */
  predicate Serves(t: MeshTexture, directory: string, name: string, kind: string, rule: KeyRule)
  {
    || t.path == CacheKey(rule, directory, name)
    || (t.kind == kind && t.path == StoredPath(directory, name))
  }

  /** `before` evolves into `after` by texture loads only: same meshes and
      directory, the cache only grows, by exactly one entry per load, and
      object names are only consumed. */
  predicate CacheGrows(before: Loader, after: Loader)
  {
    && after.model.meshes == before.model.meshes
    && after.model.directory == before.model.directory
    && |before.model.texturesLoaded| <= |after.model.texturesLoaded|
    && after.model.texturesLoaded[..|before.model.texturesLoaded|] == before.model.texturesLoaded
    && |before.loads| <= |after.loads|
    && after.loads[..|before.loads|] == before.loads
    && |after.model.texturesLoaded| - |before.model.texturesLoaded| == |after.loads| - |before.loads|
    && before.nextName <= after.nextName
  }

  datatype Batch = Batch(textures: seq<MeshTexture>, loader: Loader)

  /** `loadMaterialTextures(mat, type, typeName)` over the slot names of one
      texture type: exactly one entry per slot, in slot order. */
  function LoadMaterialTextures(ld: Loader, names: seq<string>, kind: string, rule: KeyRule): (r: Batch)
    ensures |r.textures| == |names|
    ensures CacheGrows(ld, r.loader)
    decreases |names|
  {
    if |names| == 0 then Batch([], ld)
    else
      var s := LoadSlot(ld, names[0], kind, rule);
      var rest := LoadMaterialTextures(s.loader, names[1..], kind, rule);
      SlotGrows(ld, names[0], kind, rule);
      CacheGrowsTrans(ld, s.loader, rest.loader);
      Batch([s.texture] + rest.textures, rest.loader)
  }

  /** Entry `k` of the batch serves slot `k`: it was cached under the slot's
      key or loaded from `directory/names[k]` as `kind`. */
  lemma {:induction false} LoadMaterialTexturesServe(ld: Loader, names: seq<string>, kind: string, rule: KeyRule)
    ensures var r := LoadMaterialTextures(ld, names, kind, rule);
      forall k :: 0 <= k < |names| ==> Serves(r.textures[k], ld.model.directory, names[k], kind, rule)
    decreases |names|
  {
    if |names| > 0 {
      var s := LoadSlot(ld, names[0], kind, rule);
      var rest := LoadMaterialTextures(s.loader, names[1..], kind, rule);
      var r := LoadMaterialTextures(ld, names, kind, rule);
      SlotGrows(ld, names[0], kind, rule);
      LoadMaterialTexturesServe(s.loader, names[1..], kind, rule);
      forall k | 0 <= k < |names|
        ensures Serves(r.textures[k], ld.model.directory, names[k], kind, rule)
      {
        if k > 0 {
          assert r.textures[k] == rest.textures[k - 1];
          assert names[k] == names[1..][k - 1];
        }
      }
    }
  }

  lemma SlotGrows(ld: Loader, name: string, kind: string, rule: KeyRule)
    ensures CacheGrows(ld, LoadSlot(ld, name, kind, rule).loader)
  {
    var r := LoadSlot(ld, name, kind, rule);
    if !Cached(ld.model.texturesLoaded, CacheKey(rule, ld.model.directory, name)) {
      assert r.loader.model.texturesLoaded[..|ld.model.texturesLoaded|] == ld.model.texturesLoaded;
      assert r.loader.loads[..|ld.loads|] == ld.loads;
    }
  }

  lemma CacheGrowsTrans(a: Loader, b: Loader, c: Loader)
    requires CacheGrows(a, b) && CacheGrows(b, c)
    ensures CacheGrows(a, c)
  {
    var ta, tb := |a.model.texturesLoaded|, |b.model.texturesLoaded|;
    assert c.model.texturesLoaded[..ta] == c.model.texturesLoaded[..tb][..ta];
    assert c.loads[..|a.loads|] == c.loads[..|b.loads|][..|a.loads|];
  }

  // ---------------------------------------------------------------------
  // The recorded bug: the as-written key never matches a stored path.

  /** Every stored path is `directory/...`, as every miss stores. */
  predicate StoredUnderDirectory(ld: Loader)
  {
    forall j :: 0 <= j < |ld.model.texturesLoaded| ==>
      HasPrefix(ld.model.texturesLoaded[j].path, ld.model.directory + "/")
  }

  predicate HasPrefix(s: string, p: string)
  {
    |p| <= |s| && s[..|p|] == p
  }

  lemma {:induction false} LoadsKeepPathsUnderDirectory(ld: Loader, names: seq<string>, kind: string, rule: KeyRule)
    requires StoredUnderDirectory(ld)
    ensures StoredUnderDirectory(LoadMaterialTextures(ld, names, kind, rule).loader)
    decreases |names|
  {
    if |names| > 0 {
      var s := LoadSlot(ld, names[0], kind, rule);
      var path := StoredPath(ld.model.directory, names[0]);
      assert path[..|ld.model.directory + "/"|] == ld.model.directory + "/";
      LoadsKeepPathsUnderDirectory(s.loader, names[1..], kind, rule);
    }
  }

  /** As written, a slot whose file name does not itself start with
      `directory/` is never a cache hit: the texture is loaded again on
      every request. */
  lemma RawNameNeverHits(ld: Loader, name: string, kind: string)
    requires StoredUnderDirectory(ld)
    requires !HasPrefix(name, ld.model.directory + "/")
    ensures var r := LoadSlot(ld, name, kind, RawName);
      r.loader.loads == ld.loads + [StoredPath(ld.model.directory, name)]
  {
    forall j | 0 <= j < |ld.model.texturesLoaded|
      ensures ld.model.texturesLoaded[j].path != name
    {
      assert HasPrefix(ld.model.texturesLoaded[j].path, ld.model.directory + "/");
    }
  }

  /** Concretely: a fresh model in directory `models` whose material lists
      `a.png` in two diffuse slots loads `models/a.png` twice and caches it
      twice. */
  lemma RawNameLoadsDuplicate()
    ensures var ld := Loader(Model([], "models", []), 1, []);
            var r := LoadMaterialTextures(ld, ["a.png", "a.png"], DiffuseKind, RawName);
      && r.loader.loads == ["models/a.png", "models/a.png"]
      && |r.loader.model.texturesLoaded| == 2
      && r.textures[0].id != r.textures[1].id
  {
    var ld := Loader(Model([], "models", []), 1, []);
    var s0 := LoadSlot(ld, "a.png", DiffuseKind, RawName);
    assert !Cached(ld.model.texturesLoaded, "a.png");
    assert StoredPath("models", "a.png") == "models/a.png";
    assert s0.loader.model.texturesLoaded == [MeshTexture(1, DiffuseKind, "models/a.png")];
    assert !Cached(s0.loader.model.texturesLoaded, "a.png") by {
      assert s0.loader.model.texturesLoaded[0].path == "models/a.png";
      assert "models/a.png" != "a.png" by { assert |"models/a.png"| != |"a.png"|; }
    }
    var s1 := LoadSlot(s0.loader, "a.png", DiffuseKind, RawName);
    assert LoadMaterialTextures(s1.loader, [], DiffuseKind, RawName) == Batch([], s1.loader);
    assert ["a.png", "a.png"][1..] == ["a.png"];
    assert ["a.png"][1..] == [];
  }

  /** Paths in the cache are pairwise distinct. */
  predicate DistinctPaths(loaded: seq<MeshTexture>)
  {
    forall i, j :: 0 <= i < j < |loaded| ==> loaded[i].path != loaded[j].path
  }

  /** With the intended key, the cache never holds the same path twice, and
      a file that is already cached is never loaded again. */
  lemma {:induction false} IntendedRuleKeepsPathsDistinct(ld: Loader, names: seq<string>, kind: string)
    requires DistinctPaths(ld.model.texturesLoaded)
    ensures var r := LoadMaterialTextures(ld, names, kind, DirectoryPath);
      && DistinctPaths(r.loader.model.texturesLoaded)
      && forall k :: 0 <= k < |names| ==> r.textures[k].path == StoredPath(ld.model.directory, names[k])
    decreases |names|
  {
    if |names| > 0 {
      var s := LoadSlot(ld, names[0], kind, DirectoryPath);
      IntendedRuleKeepsPathsDistinct(s.loader, names[1..], kind);
    }
  }

  /** With the intended key, a file requested in two slots is loaded once and
      both slots receive the same texture. */
  lemma IntendedRuleLoadsOnce(ld: Loader, name: string, kind: string)
    ensures var r := LoadMaterialTextures(ld, [name, name], kind, DirectoryPath);
      && |r.loader.loads| <= |ld.loads| + 1
      && r.textures[0] == r.textures[1]
  {
    var s0 := LoadSlot(ld, name, kind, DirectoryPath);
    var key := StoredPath(ld.model.directory, name);
    assert s0.texture.path == key;
    assert Cached(s0.loader.model.texturesLoaded, key) by {
      if !Cached(ld.model.texturesLoaded, key) {
        assert s0.loader.model.texturesLoaded[|ld.model.texturesLoaded|] == s0.texture;
      }
    }
    var s1 := LoadSlot(s0.loader, name, kind, DirectoryPath);
    assert [name, name][1..] == [name];
    assert [name][1..] == [];
    assert LoadMaterialTextures(s1.loader, [], kind, DirectoryPath) == Batch([], s1.loader);
    var found := FindByPath(s0.loader.model.texturesLoaded, key, 0);
    if !Cached(ld.model.texturesLoaded, key) {
      var before := ld.model.texturesLoaded;
      assert forall j :: 0 <= j < |before| ==> s0.loader.model.texturesLoaded[j] == before[j];
      assert found.Some?;
      assert found.value == |before|;
      assert s1.texture == s0.texture;
    } else {
      assert s0.loader == ld;
      assert s1.texture == s0.texture;
    }
  }

  // ---------------------------------------------------------------------
  // processMesh

  function ToVec3(v: AiVector3): Vec3
  {
    Vec3(v.x, v.y, v.z)
  }

  /** Vertex `i` of `m`: position, normal, and the first two components of
      texture-coordinate channel 0, or (0,0) without that channel. */
  function ToVertex(m: AiMesh, i: nat): Vertex
    requires MeshWellFormed(m) && i < |m.vertices|
  {
    Vertex(
      ToVec3(m.vertices[i]),
      ToVec3(m.normals[i]),
      match m.texCoords0
      case Some(tc) => Vec2(tc[i].x, tc[i].y)
      case None => Vec2(0.0, 0.0))
  }

  /** The vertex loop of `processMesh`: one vertex per Assimp vertex, in
      order, whose position and normal are copied and whose texture
      coordinates are the first two components of channel 0, or (0,0) when
      the mesh has no channel 0. */
  function ConvertVertices(m: AiMesh): (vs: seq<Vertex>)
    requires MeshWellFormed(m)
    ensures |vs| == |m.vertices|
    ensures forall i :: 0 <= i < |vs| ==> vs[i].position == ToVec3(m.vertices[i])
    ensures forall i :: 0 <= i < |vs| ==> vs[i].normal == ToVec3(m.normals[i])
    ensures m.texCoords0.None? ==> forall i :: 0 <= i < |vs| ==> vs[i].texCoords == Vec2(0.0, 0.0)
    ensures m.texCoords0.Some? ==>
              forall i :: 0 <= i < |vs| ==> vs[i].texCoords == Vec2(m.texCoords0.value[i].x, m.texCoords0.value[i].y)
  {
    seq(|m.vertices|, i requires 0 <= i < |m.vertices| => ToVertex(m, i))
  }

  /** What the mesh built from `m` carries besides textures. */
  function MeshGeometry(m: AiMesh): (seq<Vertex>, seq<nat>)
    requires MeshWellFormed(m)
  {
    (ConvertVertices(m), Concat(m.faces))
  }

  datatype MeshStep = MeshStep(mesh: Mesh, loader: Loader)

  const NamesPerMesh: nat := 3   // setupMesh generates a VAO, a VBO and an EBO

  /** The textures `processMesh` gathers for a material: the diffuse slots'
      entries followed by the specular slots' entries. */
  function MaterialTextures(ld: Loader, mat: AiMaterial, rule: KeyRule): (r: Batch)
    ensures |r.textures| == |mat.diffuse| + |mat.specular|
    ensures CacheGrows(ld, r.loader)
  {
    var diffuse := LoadMaterialTextures(ld, mat.diffuse, DiffuseKind, rule);
    var specular := LoadMaterialTextures(diffuse.loader, mat.specular, SpecularKind, rule);
    CacheGrowsTrans(ld, diffuse.loader, specular.loader);
    Batch(diffuse.textures + specular.textures, specular.loader)
  }

  /** Entry `k` of the diffuse part serves diffuse slot `k`, and entry
      `|diffuse| + k` serves specular slot `k`. */
  lemma MaterialTexturesServe(ld: Loader, mat: AiMaterial, rule: KeyRule)
    ensures var r := MaterialTextures(ld, mat, rule);
      && (forall k :: 0 <= k < |mat.diffuse| ==>
            Serves(r.textures[k], ld.model.directory, mat.diffuse[k], DiffuseKind, rule))
      && (forall k :: 0 <= k < |mat.specular| ==>
            Serves(r.textures[|mat.diffuse| + k], ld.model.directory, mat.specular[k], SpecularKind, rule))
  {
    var diffuse := LoadMaterialTextures(ld, mat.diffuse, DiffuseKind, rule);
    var specular := LoadMaterialTextures(diffuse.loader, mat.specular, SpecularKind, rule);
    var r := MaterialTextures(ld, mat, rule);
    LoadMaterialTexturesServe(ld, mat.diffuse, DiffuseKind, rule);
    LoadMaterialTexturesServe(diffuse.loader, mat.specular, SpecularKind, rule);
    assert r.textures == diffuse.textures + specular.textures;
    assert diffuse.loader.model.directory == ld.model.directory;
    forall k | 0 <= k < |mat.specular|
      ensures Serves(r.textures[|mat.diffuse| + k], ld.model.directory, mat.specular[k], SpecularKind, rule)
    {
      assert r.textures[|mat.diffuse| + k] == specular.textures[k];
    }
  }

  /** `processMesh`: converts the vertices, flattens the faces, loads the
      diffuse then the specular textures of the mesh's material, and
      constructs the `Mesh`. */
  function ProcessMesh(ld: Loader, scene: AiScene, m: AiMesh, rule: KeyRule): (r: MeshStep)
    requires MeshWellFormed(m) && m.materialIndex < |scene.materials|
    ensures (r.mesh.vertices, r.mesh.indices) == MeshGeometry(m)
    ensures CacheGrows(ld, r.loader)
  {
    var mat := scene.materials[m.materialIndex];
    var textures := MaterialTextures(ld, mat, rule);
    var mesh := NewMesh(ConvertVertices(m), Concat(m.faces), textures.textures, textures.loader.nextName).0;
    MeshStep(mesh, textures.loader.(nextName := textures.loader.nextName + NamesPerMesh))
  }

  /** The mesh's textures are one entry per diffuse slot of its material,
      then one per specular slot, each serving its slot. */
  lemma ProcessMeshTextures(ld: Loader, scene: AiScene, m: AiMesh, rule: KeyRule)
    requires MeshWellFormed(m) && m.materialIndex < |scene.materials|
    ensures var r := ProcessMesh(ld, scene, m, rule);
            var mat := scene.materials[m.materialIndex];
      && |r.mesh.textures| == |mat.diffuse| + |mat.specular|
      && (forall k :: 0 <= k < |mat.diffuse| ==>
            Serves(r.mesh.textures[k], ld.model.directory, mat.diffuse[k], DiffuseKind, rule))
      && (forall k :: 0 <= k < |mat.specular| ==>
            Serves(r.mesh.textures[|mat.diffuse| + k], ld.model.directory, mat.specular[k], SpecularKind, rule))
  {
    MaterialTexturesServe(ld, scene.materials[m.materialIndex], rule);
  }

  /** The indices of the mesh are every face's indices, in face order. */
  lemma FaceFlattening(m: AiMesh, k: nat, j: nat)
    requires MeshWellFormed(m) && k < |m.faces| && j < |m.faces[k]|
    ensures |MeshGeometry(m).1| == TotalLength(m.faces)
    ensures StartOf(m.faces, k) + j < |MeshGeometry(m).1|
    ensures MeshGeometry(m).1[StartOf(m.faces, k) + j] == m.faces[k][j]
  {
    ConcatLength(m.faces);
    ConcatAt(m.faces, k, j);
  }

  // ---------------------------------------------------------------------
  // processNode: pre-order traversal

  /** Reference order: a node's own mesh indices, then each child subtree
      from left to right. */
  function PreOrder(node: AiNode): seq<nat>
    decreases node, |node.children| + 1
  {
    node.meshes + PreOrderFrom(node, 0)
  }

  function PreOrderFrom(node: AiNode, i: nat): seq<nat>
    requires i <= |node.children|
    decreases node, |node.children| - i
  {
    if i == |node.children| then [] else PreOrder(node.children[i]) + PreOrderFrom(node, i + 1)
  }

  /** `after` is `before` with one mesh appended per index of `order`, in
      that order, each with the geometry of the scene mesh it names. */
  predicate AppendsInOrder(before: Loader, after: Loader, scene: AiScene, order: seq<nat>)
    requires MeshesWellFormed(scene)
  {
    var n := |before.model.meshes|;
    && after.model.directory == before.model.directory
    && |after.model.meshes| == n + |order|
    && after.model.meshes[..n] == before.model.meshes
    && |before.model.texturesLoaded| <= |after.model.texturesLoaded|
    && after.model.texturesLoaded[..|before.model.texturesLoaded|] == before.model.texturesLoaded
    && forall k :: 0 <= k < |order| ==>
         && order[k] < |scene.meshes|
         && (after.model.meshes[n + k].vertices, after.model.meshes[n + k].indices) == MeshGeometry(scene.meshes[order[k]])
  }

  lemma AppendsNothing(ld: Loader, scene: AiScene)
    requires MeshesWellFormed(scene)
    ensures AppendsInOrder(ld, ld, scene, [])
  {
  }

  lemma AppendsChain(a: Loader, b: Loader, c: Loader, scene: AiScene, o1: seq<nat>, o2: seq<nat>)
    requires MeshesWellFormed(scene)
    requires AppendsInOrder(a, b, scene, o1) && AppendsInOrder(b, c, scene, o2)
    ensures AppendsInOrder(a, c, scene, o1 + o2)
  {
    var na := |a.model.meshes|;
    var nb := |b.model.meshes|;
    assert c.model.meshes[..na] == c.model.meshes[..nb][..na];
    assert c.model.texturesLoaded[..|a.model.texturesLoaded|]
        == c.model.texturesLoaded[..|b.model.texturesLoaded|][..|a.model.texturesLoaded|];
    forall k | 0 <= k < |o1 + o2|
      ensures (o1 + o2)[k] < |scene.meshes|
      ensures (c.model.meshes[na + k].vertices, c.model.meshes[na + k].indices) == MeshGeometry(scene.meshes[(o1 + o2)[k]])
    {
      if k < |o1| {
        assert c.model.meshes[na + k] == c.model.meshes[..nb][na + k] == b.model.meshes[na + k];
      } else {
        assert (o1 + o2)[k] == o2[k - |o1|];
        assert na + k == nb + (k - |o1|);
      }
    }
  }

  /** One iteration of `processNode`'s mesh loop: process scene mesh
      `index` and append the result. */
  function AppendMesh(ld: Loader, scene: AiScene, index: nat, rule: KeyRule): (r: Loader)
    requires MeshesWellFormed(scene) && index < |scene.meshes|
    ensures AppendsInOrder(ld, r, scene, [index])
  {
    var step := ProcessMesh(ld, scene, scene.meshes[index], rule);
    var r := step.loader.(model := step.loader.model.(meshes := step.loader.model.meshes + [step.mesh]));
    assert r.model.meshes[..|ld.model.meshes|] == ld.model.meshes;
    r
  }

  /** Processes the scene meshes named by `indices`, in order, appending one
      `Mesh` per index. */
  function ProcessMeshList(ld: Loader, scene: AiScene, indices: seq<nat>, rule: KeyRule): (r: Loader)
    requires MeshesWellFormed(scene)
    requires forall i :: 0 <= i < |indices| ==> indices[i] < |scene.meshes|
    ensures AppendsInOrder(ld, r, scene, indices)
    decreases |indices|
  {
    if |indices| == 0 then AppendsNothing(ld, scene); ld
    else
      var appended := AppendMesh(ld, scene, indices[0], rule);
      var r := ProcessMeshList(appended, scene, indices[1..], rule);
      AppendsCons(ld, appended, r, scene, indices);
      r
  }

  lemma AppendsCons(a: Loader, b: Loader, c: Loader, scene: AiScene, order: seq<nat>)
    requires MeshesWellFormed(scene) && |order| > 0
    requires AppendsInOrder(a, b, scene, [order[0]]) && AppendsInOrder(b, c, scene, order[1..])
    ensures AppendsInOrder(a, c, scene, order)
  {
    AppendsChain(a, b, c, scene, [order[0]], order[1..]);
    assert [order[0]] + order[1..] == order;
  }

  /** `processNode`: the node's own meshes, then every child subtree left to
      right, so meshes are appended in pre-order. */
  function ProcessNode(ld: Loader, scene: AiScene, node: AiNode, rule: KeyRule): (r: Loader)
    requires MeshesWellFormed(scene) && NodeWellFormed(node, |scene.meshes|)
    ensures AppendsInOrder(ld, r, scene, PreOrder(node))
    decreases node, |node.children| + 1
  {
    var own := ProcessMeshList(ld, scene, node.meshes, rule);
    var r := ProcessChildren(own, scene, node, 0, rule);
    AppendsChain(ld, own, r, scene, node.meshes, PreOrderFrom(node, 0));
    r
  }

  function ProcessChildren(ld: Loader, scene: AiScene, node: AiNode, i: nat, rule: KeyRule): (r: Loader)
    requires MeshesWellFormed(scene) && NodeWellFormed(node, |scene.meshes|)
    requires i <= |node.children|
    ensures AppendsInOrder(ld, r, scene, PreOrderFrom(node, i))
    decreases node, |node.children| - i
  {
    if i == |node.children| then AppendsNothing(ld, scene); ld
    else
      var first := ProcessNode(ld, scene, node.children[i], rule);
      var r := ProcessChildren(first, scene, node, i + 1, rule);
      AppendsChain(ld, first, r, scene, PreOrder(node.children[i]), PreOrderFrom(node, i + 1));
      r
  }

  /** Whether the importer's answer is usable: a scene, complete, with a
      root node. */
  predicate ImportSucceeded(imported: Option<AiScene>)
  {
    imported.Some? && !imported.value.incomplete && imported.value.root.Some?
  }

  /** `Model(path)` / `loadModel(path)` given the importer's answer. On
      failure nothing is appended and the directory stays unset; otherwise
      the directory is taken from the path and the root is processed. */
  function LoadModel(path: string, imported: Option<AiScene>, nextName: nat, rule: KeyRule): (r: Loader)
    requires ImportSucceeded(imported) ==> SceneWellFormed(imported.value)
    ensures !ImportSucceeded(imported) ==> r == Loader(EmptyModel, nextName, [])
    ensures ImportSucceeded(imported) ==>
      var start := Loader(EmptyModel.(directory := Directory(path)), nextName, []);
      && r.model.directory == Directory(path)
      && AppendsInOrder(start, r, imported.value, PreOrder(imported.value.root.value))
  {
    if !ImportSucceeded(imported) then Loader(EmptyModel, nextName, [])
    else
      var scene := imported.value;
      ProcessNode(Loader(EmptyModel.(directory := Directory(path)), nextName, []), scene, scene.root.value, rule)
  }
}
