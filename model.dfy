/** Model loading (src/Model.cpp): the file path and directory, the material
    list with its texture cache, and the pre-order walk of the scene graph that
    turns every referenced scene mesh into a renderer mesh.  The imported
    scene is a parameter; a missing, incomplete or rootless import is the
    error path. */
module Models {
  import opened Wrappers
  import MachineInts

  const MODEL_DIR: string := "data/model/"
  const ASSIMP_ERROR: string := "Assimp Error - "

  // ---------------------------------------------------------------------------
  // Paths
  // ---------------------------------------------------------------------------

  /** Position of the last `c` in `s`, as `find_last_of` with one character. */
  function FindLast(s: string, c: char): (r: Option<nat>)
    ensures r.Some? <==> c in s
    ensures r.Some? ==> r.value < |s| && s[r.value] == c && c !in s[r.value + 1..]
  {
    if |s| == 0 then None
    else if s[|s| - 1] == c then Some(|s| - 1)
    else
      var r := FindLast(s[..|s| - 1], c);
      assert s == s[..|s| - 1] + [s[|s| - 1]];
      if r.Some? then
        assert s[r.value + 1..] == s[..|s| - 1][r.value + 1..] + [s[|s| - 1]];
        r
      else r
  }

  /** The model's directory: everything before the last '/', or the whole
      path when it has none (`substr` with `npos`). */
  function Directory(path: string): (r: string)
    ensures r <= path
    ensures '/' in path ==> |r| < |path| && path[|r|] == '/' && '/' !in path[|r| + 1..]
    ensures '/' !in path ==> r == path
  {
    match FindLast(path, '/')
    case None => path
    case Some(i) => path[..i]
  }

  /** Only one position of `s` holds a `c` with no `c` after it. */
  lemma LastOccurrenceUnique(s: string, c: char, i: nat, j: nat)
    requires i < |s| && s[i] == c && c !in s[i + 1..]
    requires j < |s| && s[j] == c && c !in s[j + 1..]
    ensures i == j
  {
  }

  lemma DropAfterPrefix(a: string, b: string, j: nat)
    requires j <= |b|
    ensures (a + b)[|a| + j..] == b[j..]
  {
    assert forall n :: 0 <= n < |b| - j ==> (a + b)[|a| + j..][n] == b[j..][n];
  }

  /** The directory of a model under the model root is the root plus the
      directory part of the given path, or the root itself (without its
      trailing '/') when the given path names a bare file. */
  lemma {:induction false} ModelDirectory(filePath: string)
    ensures '/' in filePath ==> Directory(MODEL_DIR + filePath) == MODEL_DIR + Directory(filePath)
    ensures '/' !in filePath ==> Directory(MODEL_DIR + filePath) == "data/model"
  {
    var s := MODEL_DIR + filePath;
    assert s[10] == '/';
    assert '/' in s;
    var d := Directory(s);
    if '/' in filePath {
      var k := |Directory(filePath)|;
      var i := |MODEL_DIR| + k;
      assert s[i] == filePath[k];
      DropAfterPrefix(MODEL_DIR, filePath, k + 1);
      LastOccurrenceUnique(s, '/', |d|, i);
      assert s[..i] == MODEL_DIR + filePath[..k];
    } else {
      assert s[11..] == filePath;
      LastOccurrenceUnique(s, '/', |d|, 10);
      assert s[..10] == "data/model";
    }
  }

  // ---------------------------------------------------------------------------
  // The imported scene
  // ---------------------------------------------------------------------------

  datatype Vec2 = Vec2(x: real, y: real)
  datatype Vec3 = Vec3(x: real, y: real, z: real)
  datatype Color = Color(r: real, g: real, b: real, a: real)

  const ZERO2: Vec2 := Vec2(0.0, 0.0)
  const ZERO3: Vec3 := Vec3(0.0, 0.0, 0.0)
  const WHITE: Color := Color(1.0, 1.0, 1.0, 1.0)

  /** A node's local transformation, kept as its entries; the model does no
      arithmetic on it. */
  datatype Transform = Transform(entries: seq<real>)

  /** A scene mesh: its vertex count, the optional attribute streams, its faces
      as index lists, and the index of its material. */
  datatype SceneMesh = SceneMesh(
    vertexCount: nat,
    positions: Option<seq<Vec3>>,
    normals: Option<seq<Vec3>>,
    uvs: Option<seq<Vec2>>,
    faces: seq<seq<nat>>,
    materialIndex: nat)

  /** A scene material: its diffuse colour if it has one, and the file names of
      its diffuse textures. */
  datatype SceneMaterial = SceneMaterial(diffuseColor: Option<Color>, diffuseTextures: seq<string>)

  datatype Node = Node(transform: Transform, meshes: seq<nat>, children: seq<Node>)

  datatype Scene = Scene(
    incomplete: bool,
    root: Option<Node>,
    meshes: seq<SceneMesh>,
    materials: seq<SceneMaterial>)

  /** The importer produced a usable scene: present, complete and rooted. */
  predicate Imported(scene: Option<Scene>)
  {
    scene.Some? && !scene.value.incomplete && scene.value.root.Some?
  }

  /** Every present attribute stream covers every vertex. */
  predicate MeshWellFormed(m: SceneMesh)
  {
    (m.positions.Some? ==> |m.positions.value| >= m.vertexCount) &&
    (m.normals.Some? ==> |m.normals.value| >= m.vertexCount) &&
    (m.uvs.Some? ==> |m.uvs.value| >= m.vertexCount)
  }

  /** A mesh reference the walk can follow: it names a scene mesh, that mesh is
      well formed, and its material index is below the material count. */
  predicate MeshUsable(scene: Scene, index: nat, materialCount: nat)
  {
    index < |scene.meshes| &&
    MeshWellFormed(scene.meshes[index]) &&
    scene.meshes[index].materialIndex < materialCount
  }

  /** Every mesh reference in the subtree is usable. */
  predicate NodeUsable(scene: Scene, node: Node, materialCount: nat)
    decreases node
  {
    (forall i :: 0 <= i < |node.meshes| ==> MeshUsable(scene, node.meshes[i], materialCount)) &&
    (forall k :: 0 <= k < |node.children| ==> NodeUsable(scene, node.children[k], materialCount))
  }

  /** What the loader demands of a successful import: every mesh the scene graph
      references exists and indexes an existing material. */
  predicate SceneUsable(scene: Scene)
  {
    scene.root.Some? && NodeUsable(scene, scene.root.value, |scene.materials|)
  }

  // ---------------------------------------------------------------------------
  // The pre-order walk
  // ---------------------------------------------------------------------------

  /** A scene mesh to process, with the chain of node transforms (root first)
      it is processed under. */
  datatype MeshRef = MeshRef(index: nat, transforms: seq<Transform>)

  function OwnMeshes(ids: seq<nat>, chain: seq<Transform>): (r: seq<MeshRef>)
    ensures |r| == |ids|
    ensures forall i :: 0 <= i < |ids| ==> r[i] == MeshRef(ids[i], chain)
  {
    seq(|ids|, i requires 0 <= i < |ids| => MeshRef(ids[i], chain))
  }

  /** The meshes of a subtree in visiting order: the node's own meshes, then
      the subtrees of its children from left to right. */
  function PreOrder(node: Node, parents: seq<Transform>): seq<MeshRef>
    decreases node, 1
  {
    var chain := parents + [node.transform];
    OwnMeshes(node.meshes, chain) + ChildrenPreOrder(node, |node.children|, chain)
  }

  /** The walk of the first `k` children of `node`. */
  function ChildrenPreOrder(node: Node, k: nat, chain: seq<Transform>): seq<MeshRef>
    requires k <= |node.children|
    decreases node, 0, k
  {
    if k == 0 then []
    else ChildrenPreOrder(node, k - 1, chain) + PreOrder(node.children[k - 1], chain)
  }

  /** Every mesh the walk visits is usable and is processed under the
      transforms of all its ancestors, outermost first. */
  lemma {:induction false} PreOrderUsable(scene: Scene, node: Node, parents: seq<Transform>, materialCount: nat)
    requires NodeUsable(scene, node, materialCount)
    ensures forall k :: 0 <= k < |PreOrder(node, parents)| ==>
      MeshUsable(scene, PreOrder(node, parents)[k].index, materialCount) &&
      parents + [node.transform] <= PreOrder(node, parents)[k].transforms
    decreases node, 1
  {
    var chain := parents + [node.transform];
    ChildrenPreOrderUsable(scene, node, |node.children|, chain, materialCount);
  }

  lemma {:induction false} ChildrenPreOrderUsable(scene: Scene, node: Node, n: nat, chain: seq<Transform>, materialCount: nat)
    requires n <= |node.children|
    requires forall k :: 0 <= k < |node.children| ==> NodeUsable(scene, node.children[k], materialCount)
    ensures forall k :: 0 <= k < |ChildrenPreOrder(node, n, chain)| ==>
      MeshUsable(scene, ChildrenPreOrder(node, n, chain)[k].index, materialCount) &&
      chain <= ChildrenPreOrder(node, n, chain)[k].transforms
    decreases node, 0, n
  {
    if n > 0 {
      var child := node.children[n - 1];
      ChildrenPreOrderUsable(scene, node, n - 1, chain, materialCount);
      PreOrderUsable(scene, child, chain, materialCount);
      var front: seq<MeshRef> := ChildrenPreOrder(node, n - 1, chain);
      var back: seq<MeshRef> := PreOrder(child, chain);
      assert ChildrenPreOrder(node, n, chain) == front + back;
      forall k | 0 <= k < |front + back|
        ensures MeshUsable(scene, (front + back)[k].index, materialCount)
        ensures chain <= (front + back)[k].transforms
      {
        if k >= |front| {
          assert (front + back)[k] == back[k - |front|];
          assert chain <= chain + [child.transform];
        }
      }
    }
  }

  // ---------------------------------------------------------------------------
  // Mesh processing
  // ---------------------------------------------------------------------------

  datatype Vertex = Vertex(pos: Vec3, normal: Vec3, uv: Vec2)

  /** A renderer mesh: its vertices, its flattened index list, the index of its
      material in the model's list, and the transforms it was placed under. */
  datatype Mesh = Mesh(vertices: seq<Vertex>, indices: seq<nat>, material: nat, transforms: seq<Transform>)

  /** Vertex `i`, with every missing attribute stream read as zero (on a
      well-formed mesh every present stream covers `i`). */
  function VertexAt(m: SceneMesh, i: nat): Vertex
  {
    Vertex(
      if m.positions.Some? && i < |m.positions.value| then m.positions.value[i] else ZERO3,
      if m.normals.Some? && i < |m.normals.value| then m.normals.value[i] else ZERO3,
      if m.uvs.Some? && i < |m.uvs.value| then m.uvs.value[i] else ZERO2)
  }

  function Vertices(m: SceneMesh): seq<Vertex>
  {
    seq(m.vertexCount, i requires 0 <= i < m.vertexCount => VertexAt(m, i))
  }

  /** The faces' index lists joined in face order. */
  function Flatten(faces: seq<seq<nat>>): seq<nat>
  {
    if faces == [] then [] else Flatten(faces[..|faces| - 1]) + faces[|faces| - 1]
  }

  /** The number of indices of all faces, counted from the first face. */
  function IndexCount(faces: seq<seq<nat>>): nat
  {
    if faces == [] then 0 else |faces[0]| + IndexCount(faces[1..])
  }

  lemma {:induction false} IndexCountAppend(a: seq<seq<nat>>, b: seq<seq<nat>>)
    ensures IndexCount(a + b) == IndexCount(a) + IndexCount(b)
  {
    if a != [] {
      assert (a + b)[1..] == a[1..] + b;
      IndexCountAppend(a[1..], b);
    } else {
      assert a + b == b;
    }
  }

  /** The flattened list has as many entries as the faces have indices. */
  lemma {:induction false} FlattenLength(faces: seq<seq<nat>>)
    ensures |Flatten(faces)| == IndexCount(faces)
  {
    if faces != [] {
      var n := |faces| - 1;
      var front := faces[..n];
      FlattenLength(front);
      assert faces == front + [faces[n]];
      IndexCountAppend(front, [faces[n]]);
      assert IndexCount([faces[n]]) == |faces[n]| + IndexCount([]);
    }
  }

  /** Index `j` of face `f` sits in the flattened list right after the indices
      of all earlier faces. */
  lemma {:induction false} FlattenAt(faces: seq<seq<nat>>, f: nat, j: nat)
    requires f < |faces| && j < |faces[f]|
    ensures IndexCount(faces[..f]) + j < |Flatten(faces)|
    ensures Flatten(faces)[IndexCount(faces[..f]) + j] == faces[f][j]
  {
    var n := |faces| - 1;
    var front := faces[..n];
    FlattenLength(front);
    FlattenLength(faces);
    assert Flatten(faces) == Flatten(front) + faces[n];
    if f < n {
      FlattenAt(front, f, j);
      assert front[..f] == faces[..f];
    } else {
      assert faces[..f] == front;
    }
  }

  /** The mesh `ProcessMesh` builds. */
  function ProcessedMesh(m: SceneMesh, transforms: seq<Transform>): Mesh
  {
    Mesh(Vertices(m), Flatten(m.faces), m.materialIndex, transforms)
  }

  /** The mesh built for a reference (a reference outside the scene, which the
      loader's precondition rules out, yields an empty mesh). */
  function MeshFor(scene: Scene, r: MeshRef): Mesh
  {
    if r.index < |scene.meshes| then ProcessedMesh(scene.meshes[r.index], r.transforms)
    else Mesh([], [], 0, r.transforms)
  }

  /** The meshes built for a list of references, in order. */
  function ProcessAll(scene: Scene, refs: seq<MeshRef>): (r: seq<Mesh>)
    ensures |r| == |refs|
  {
    if refs == [] then []
    else ProcessAll(scene, refs[..|refs| - 1]) + [MeshFor(scene, refs[|refs| - 1])]
  }

  lemma {:induction false} ProcessAllAppend(scene: Scene, a: seq<MeshRef>, b: seq<MeshRef>)
    ensures ProcessAll(scene, a + b) == ProcessAll(scene, a) + ProcessAll(scene, b)
    decreases |b|
  {
    if b != [] {
      var n := |b| - 1;
      assert (a + b)[..|a + b| - 1] == a + b[..n];
      ProcessAllAppend(scene, a, b[..n]);
    } else {
      assert a + b == a;
    }
  }

  /** One step of the children loop: the walk of `k + 1` children is the walk
      of `k` children followed by the subtree of child `k`. */
  lemma ChildStep(scene: Scene, node: Node, k: nat, chain: seq<Transform>,
                  start: seq<Mesh>, before: seq<Mesh>, after: seq<Mesh>)
    requires k < |node.children|
    requires before == start + ProcessAll(scene, ChildrenPreOrder(node, k, chain))
    requires after == before + ProcessAll(scene, PreOrder(node.children[k], chain))
    ensures after == start + ProcessAll(scene, ChildrenPreOrder(node, k + 1, chain))
  {
    ProcessAllAppend(scene, ChildrenPreOrder(node, k, chain), PreOrder(node.children[k], chain));
  }

  /** The two loops of a node together produce its pre-order walk. */
  lemma NodeStep(scene: Scene, node: Node, parents: seq<Transform>,
                 start: seq<Mesh>, mid: seq<Mesh>, after: seq<Mesh>)
    requires mid == start + ProcessAll(scene, OwnMeshes(node.meshes, parents + [node.transform]))
    requires after == mid + ProcessAll(scene, ChildrenPreOrder(node, |node.children|, parents + [node.transform]))
    ensures after == start + ProcessAll(scene, PreOrder(node, parents))
  {
    var chain := parents + [node.transform];
    ProcessAllAppend(scene, OwnMeshes(node.meshes, chain), ChildrenPreOrder(node, |node.children|, chain));
  }

  // ---------------------------------------------------------------------------
  // The model
  // ---------------------------------------------------------------------------

  /** A material created by the loader: its diffuse colour and the id of its
      diffuse texture, if it has one. */
  datatype LoadedMaterial = LoadedMaterial(diffuseColor: Color, diffuseTex: Option<nat>)

  /** The diffuse colour, white when the material has none. */
  function DiffuseColor(m: SceneMaterial): Color
  {
    match m.diffuseColor
    case None => WHITE
    case Some(c) => c
  }

  /** The path of the first diffuse texture, relative to the model's directory. */
  function TexturePath(directory: string, m: SceneMaterial): Option<string>
  {
    if |m.diffuseTextures| > 0 then Some(directory + "/" + m.diffuseTextures[0]) else None
  }

  /** The texture paths the first `n` materials name. */
  function TexturePaths(directory: string, ms: seq<SceneMaterial>, n: nat): set<string>
    requires n <= |ms|
  {
    set i | 0 <= i < n && TexturePath(directory, ms[i]).Some? :: TexturePath(directory, ms[i]).value
  }

  /** `lm` is what the loader creates for `m` given the texture cache: its
      diffuse colour (white by default) and the cached texture of its first
      diffuse texture path. */
  predicate MaterialLoaded(directory: string, textures: map<string, nat>, lm: LoadedMaterial, m: SceneMaterial)
  {
    lm.diffuseColor == DiffuseColor(m) &&
    match TexturePath(directory, m)
    case None => lm.diffuseTex.None?
    case Some(p) => p in textures && lm.diffuseTex == Some(textures[p])
  }

  /** The cache `after` keeps every entry of `before`. */
  predicate Extends(before: map<string, nat>, after: map<string, nat>)
  {
    forall p :: p in before ==> p in after && after[p] == before[p]
  }

  /** Materials naming the same texture path share one texture. */
  lemma SharedTexture(directory: string, textures: map<string, nat>,
                      lm1: LoadedMaterial, m1: SceneMaterial, lm2: LoadedMaterial, m2: SceneMaterial)
    requires MaterialLoaded(directory, textures, lm1, m1) && MaterialLoaded(directory, textures, lm2, m2)
    requires TexturePath(directory, m1) == TexturePath(directory, m2)
    ensures lm1.diffuseTex == lm2.diffuseTex
  {
  }

  /** Each created material is what the loader creates for the scene material
      at the same position. */
  predicate MaterialsLoaded(directory: string, textures: map<string, nat>,
                            loaded: seq<LoadedMaterial>, ms: seq<SceneMaterial>)
  {
    |loaded| == |ms| &&
    forall k :: 0 <= k < |ms| ==> MaterialLoaded(directory, textures, loaded[k], ms[k])
  }

  /** One step of the material loop: growing the cache keeps the earlier
      materials loaded, and the new material joins them. */
  lemma MaterialsStep(directory: string, before: map<string, nat>, after: map<string, nat>,
                      base: nat, done: seq<LoadedMaterial>, now: seq<LoadedMaterial>,
                      ms: seq<SceneMaterial>, i: nat)
    requires base <= |done| && i < |ms|
    requires MaterialsLoaded(directory, before, done[base..], ms[..i])
    requires |now| == |done| + 1 && now == done + [now[|now| - 1]]
    requires Extends(before, after) && MaterialLoaded(directory, after, now[|now| - 1], ms[i])
    ensures now[..base] == done[..base]
    ensures MaterialsLoaded(directory, after, now[base..], ms[..i + 1])
  {
    assert now[base..] == done[base..] + [now[|now| - 1]];
    assert ms[..i + 1] == ms[..i] + [ms[i]];
  }

  const TEXTURE_ERROR: string := "Failed to load Texture2D "

  /** `m` names a texture path that is neither in the cache nor a file the
      image decoder can read: creating its texture throws. */
  predicate TextureFails(directory: string, cached: set<string>, m: SceneMaterial, decodable: set<string>)
  {
    TexturePath(directory, m).Some? && TexturePath(directory, m).value !in cached
    && TexturePath(directory, m).value !in decodable
  }

  /** None of the first `n` materials fails. */
  predicate NoFailureBefore(directory: string, cached: set<string>, ms: seq<SceneMaterial>,
                            decodable: set<string>, n: nat)
    requires n <= |ms|
  {
    forall j :: 0 <= j < n ==> !TextureFails(directory, cached, ms[j], decodable)
  }

  /** Material `i` is the first whose texture creation throws. */
  predicate FirstFailure(directory: string, cached: set<string>, ms: seq<SceneMaterial>,
                         decodable: set<string>, i: nat)
  {
    i < |ms| && TextureFails(directory, cached, ms[i], decodable)
    && NoFailureBefore(directory, cached, ms, decodable, i)
  }

  lemma NoFailureStep(directory: string, cached: set<string>, ms: seq<SceneMaterial>,
                      decodable: set<string>, i: nat)
    requires i < |ms| && NoFailureBefore(directory, cached, ms, decodable, i)
    requires !TextureFails(directory, cached, ms[i], decodable)
    ensures NoFailureBefore(directory, cached, ms, decodable, i + 1)
  {
  }

  /** When none of the materials fails, the loop does not throw. */
  lemma NoneFails(directory: string, cached: set<string>, ms: seq<SceneMaterial>, decodable: set<string>)
    requires NoFailureBefore(directory, cached, ms, decodable, |ms|)
    ensures !SomeTextureFails(directory, cached, ms, decodable)
  {
  }

  predicate SomeTextureFails(directory: string, cached: set<string>, ms: seq<SceneMaterial>,
                             decodable: set<string>)
  {
    exists i :: 0 <= i < |ms| && TextureFails(directory, cached, ms[i], decodable)
  }

  /** While no earlier material failed, material `i` fails against the grown
      cache exactly when it fails against the cache the loop started with: a
      path an earlier material added was decodable. */
  lemma FailsAgainstCache(directory: string, start: set<string>, ms: seq<SceneMaterial>,
                          decodable: set<string>, i: nat)
    requires i < |ms|
    requires NoFailureBefore(directory, start, ms, decodable, i)
    ensures TextureFails(directory, start + TexturePaths(directory, ms, i), ms[i], decodable)
      <==> TextureFails(directory, start, ms[i], decodable)
  {
  }

  /** One step of the material loop on the cache's keys. */
  lemma KeysStep(directory: string, ms: seq<SceneMaterial>, i: nat,
                 start: set<string>, before: set<string>, after: set<string>)
    requires i < |ms|
    requires before == start + TexturePaths(directory, ms, i)
    requires after == before +
      (if TexturePath(directory, ms[i]).Some? then {TexturePath(directory, ms[i]).value} else {})
    ensures after == start + TexturePaths(directory, ms, i + 1)
  {
    assert TexturePaths(directory, ms, i + 1) == TexturePaths(directory, ms, i) +
      (if TexturePath(directory, ms[i]).Some? then {TexturePath(directory, ms[i]).value} else {});
  }

  class Model {
    const filePath: string
    const directory: string
    var meshes: seq<Mesh>
    var materials: seq<LoadedMaterial>
    /** The texture cache: path to texture id. */
    var textures: map<string, nat>
    /** The path of every texture created, in creation order (the id is the position). */
    var loadedTextures: seq<string>

    /** The cache and the creation list are inverse to each other, and every
        material's texture exists. */
    ghost predicate Valid()
      reads this
    {
      (forall p :: p in textures ==> textures[p] < |loadedTextures| && loadedTextures[textures[p]] == p) &&
      (forall i :: 0 <= i < |loadedTextures| ==> loadedTextures[i] in textures && textures[loadedTextures[i]] == i) &&
      (forall i :: 0 <= i < |materials| && materials[i].diffuseTex.Some? ==>
        materials[i].diffuseTex.value < |loadedTextures|)
    }

    /** No texture path is created twice. */
    lemma TexturesCreatedOnce()
      requires Valid()
      ensures forall i, j :: 0 <= i < j < |loadedTextures| ==> loadedTextures[i] != loadedTextures[j]
    {
    }

    /** The model's paths, before any loading. */
    constructor(filePath: string)
      ensures this.filePath == MODEL_DIR + filePath
      ensures directory == Directory(this.filePath)
      ensures meshes == [] && materials == [] && textures == map[] && loadedTextures == []
      ensures Valid()
    {
      this.filePath := MODEL_DIR + filePath;
      directory := Directory(MODEL_DIR + filePath);
      meshes := [];
      materials := [];
      textures := map[];
      loadedTextures := [];
    }

    function GetMeshCount(): (r: nat)
      reads this
      ensures r < MachineInts.TWO_TO_THE_32
      ensures |meshes| < MachineInts.TWO_TO_THE_32 ==> r == |meshes|
    {
      MachineInts.Wrap32(|meshes|)
    }

    /** One material per scene material, in order, none when the scene has
        none; every texture path is created once and shared through the
        cache. The first material whose new texture path does not decode
        ends the loop with the texture's error. */
    method LoadMaterials(scene: Scene, decodable: set<string>) returns (r: Outcome<()>)
      requires Valid()
      modifies this
      ensures Valid()
      ensures meshes == old(meshes)
      ensures |loadedTextures| >= |old(loadedTextures)|
      ensures loadedTextures[..|old(loadedTextures)|] == old(loadedTextures)
      ensures r.Err? <==> SomeTextureFails(directory, old(textures).Keys, scene.materials, decodable)
      ensures r.Err? ==> exists i: nat ::
        FirstFailure(directory, old(textures).Keys, scene.materials, decodable, i)
        && r.msg == TEXTURE_ERROR + TexturePath(directory, scene.materials[i]).value
      ensures r.Ok? ==> |materials| == |old(materials)| + |scene.materials|
      ensures r.Ok? ==> materials[..|old(materials)|] == old(materials)
      ensures r.Ok? ==> MaterialsLoaded(directory, textures, materials[|old(materials)|..], scene.materials)
      ensures r.Ok? ==> Extends(old(textures), textures)
      ensures r.Ok? ==>
        textures.Keys == old(textures).Keys + TexturePaths(directory, scene.materials, |scene.materials|)
    {
      if |scene.materials| == 0 {
        assert TexturePaths(directory, scene.materials, 0) == {};
        assert materials[|materials|..] == [];
        return Ok(());
      }
      var base := |materials|;
      for i := 0 to |scene.materials|
        invariant Valid()
        invariant meshes == old(meshes)
        invariant |materials| == base + i
        invariant materials[..base] == old(materials)
        invariant Extends(old(textures), textures)
        invariant MaterialsLoaded(directory, textures, materials[base..], scene.materials[..i])
        invariant textures.Keys == old(textures).Keys + TexturePaths(directory, scene.materials, i)
        invariant |loadedTextures| >= |old(loadedTextures)|
        invariant loadedTextures[..|old(loadedTextures)|] == old(loadedTextures)
        invariant NoFailureBefore(directory, old(textures).Keys, scene.materials, decodable, i)
      {
        ghost var before := textures;
        ghost var done := materials;
        FailsAgainstCache(directory, old(textures).Keys, scene.materials, decodable, i);
        var loaded := LoadMaterial(scene.materials[i], decodable);
        if loaded.Err? {
          assert FirstFailure(directory, old(textures).Keys, scene.materials, decodable, i);
          return Err(loaded.msg);
        }
        NoFailureStep(directory, old(textures).Keys, scene.materials, decodable, i);
        MaterialsStep(directory, before, textures, base, done, materials, scene.materials, i);
        KeysStep(directory, scene.materials, i, old(textures).Keys, before.Keys, textures.Keys);
      }
      assert scene.materials[..|scene.materials|] == scene.materials;
      NoneFails(directory, old(textures).Keys, scene.materials, decodable);
      return Ok(());
    }

    /** One iteration of the material loop: look the texture path up in the
        cache; when absent, create the texture, which fails for a file that
        does not decode, and insert it; then append the material. */
    method LoadMaterial(m: SceneMaterial, decodable: set<string>) returns (r: Outcome<()>)
      requires Valid()
      modifies this
      ensures Valid()
      ensures meshes == old(meshes)
      ensures |loadedTextures| >= |old(loadedTextures)|
      ensures loadedTextures[..|old(loadedTextures)|] == old(loadedTextures)
      ensures r.Err? <==> TextureFails(directory, old(textures).Keys, m, decodable)
      ensures r.Err? ==> r.msg == TEXTURE_ERROR + TexturePath(directory, m).value
      ensures r.Err? ==> materials == old(materials) && textures == old(textures)
      ensures r.Ok? ==> |materials| == |old(materials)| + 1
      ensures r.Ok? ==> materials == old(materials) + [materials[|materials| - 1]]
      ensures r.Ok? ==> MaterialLoaded(directory, textures, materials[|materials| - 1], m)
      ensures r.Ok? ==> Extends(old(textures), textures)
      ensures r.Ok? ==>
        textures.Keys == old(textures).Keys
          + (if TexturePath(directory, m).Some? then {TexturePath(directory, m).value} else {})
    {
      var diffuseColor := DiffuseColor(m);
      var diffuseTex: Option<nat> := None;
      if |m.diffuseTextures| > 0 {
        var fullFilePath := directory + "/" + m.diffuseTextures[0];
        if fullFilePath !in textures {
          if fullFilePath !in decodable {
            return Err(TEXTURE_ERROR + fullFilePath);
          }
          var id := |loadedTextures|;
          loadedTextures := loadedTextures + [fullFilePath];
          textures := textures[fullFilePath := id];
          diffuseTex := Some(id);
        } else {
          diffuseTex := Some(textures[fullFilePath]);
        }
      }
      materials := materials + [LoadedMaterial(diffuseColor, diffuseTex)];
      return Ok(());
    }

    /** Builds the mesh for one scene mesh: one vertex per scene vertex with
        missing attributes read as zero, and the faces' indices in order. */
    method ProcessMesh(m: SceneMesh, transforms: seq<Transform>) returns (r: Mesh)
      requires MeshWellFormed(m) && m.materialIndex < |materials|
      ensures r == ProcessedMesh(m, transforms)
      ensures |r.vertices| == m.vertexCount
      ensures forall i :: 0 <= i < m.vertexCount ==>
        r.vertices[i].pos == (if m.positions.Some? then m.positions.value[i] else ZERO3) &&
        r.vertices[i].normal == (if m.normals.Some? then m.normals.value[i] else ZERO3) &&
        r.vertices[i].uv == (if m.uvs.Some? then m.uvs.value[i] else ZERO2)
      ensures r.material < |materials|
    {
      var vertices: seq<Vertex> := [];
      for i := 0 to m.vertexCount
        invariant vertices == Vertices(m)[..i]
      {
        var pos := ZERO3;
        if m.positions.Some? {
          pos := m.positions.value[i];
        }
        var normal := ZERO3;
        if m.normals.Some? {
          normal := m.normals.value[i];
        }
        var uv := ZERO2;
        if m.uvs.Some? {
          uv := m.uvs.value[i];
        }
        vertices := vertices + [Vertex(pos, normal, uv)];
      }
      assert vertices == Vertices(m);
      var indices: seq<nat> := [];
      for f := 0 to |m.faces|
        invariant indices == Flatten(m.faces[..f])
      {
        var face := m.faces[f];
        for j := 0 to |face|
          invariant indices == Flatten(m.faces[..f]) + face[..j]
        {
          indices := indices + [face[j]];
        }
        assert m.faces[..f + 1][..f] == m.faces[..f];
      }
      assert m.faces[..|m.faces|] == m.faces;
      r := Mesh(vertices, indices, m.materialIndex, transforms);
    }

    /** The first loop of `ProcessNode`: a mesh for each of the node's own
        mesh references, in order. */
    method ProcessNodeMeshes(scene: Scene, ids: seq<nat>, chain: seq<Transform>)
      requires forall i :: 0 <= i < |ids| ==> MeshUsable(scene, ids[i], |materials|)
      modifies this`meshes
      ensures materials == old(materials)
      ensures meshes == old(meshes) + ProcessAll(scene, OwnMeshes(ids, chain))
    {
      var own := OwnMeshes(ids, chain);
      for i := 0 to |ids|
        invariant meshes == old(meshes) + ProcessAll(scene, own[..i])
      {
        var mesh := ProcessMesh(scene.meshes[ids[i]], chain);
        assert own[..i + 1][..i] == own[..i];
        meshes := meshes + [mesh];
      }
      assert own[..|ids|] == own;
    }

    /** Appends the meshes of the subtree at `node` in pre-order: the node's
        own meshes in order, then each child's subtree from left to right. */
    method ProcessNode(scene: Scene, node: Node, parents: seq<Transform>)
      requires NodeUsable(scene, node, |materials|)
      modifies this`meshes
      ensures materials == old(materials)
      ensures meshes == old(meshes) + ProcessAll(scene, PreOrder(node, parents))
      decreases node, 1
    {
      var chain := parents + [node.transform];
      ProcessNodeMeshes(scene, node.meshes, chain);
      ghost var mid := meshes;
      ProcessChildren(scene, node, chain);
      NodeStep(scene, node, parents, old(meshes), mid, meshes);
    }

    /** The second loop of `ProcessNode`: each child's subtree, left to right. */
    method ProcessChildren(scene: Scene, node: Node, chain: seq<Transform>)
      requires forall k :: 0 <= k < |node.children| ==> NodeUsable(scene, node.children[k], |materials|)
      modifies this`meshes
      ensures materials == old(materials)
      ensures meshes == old(meshes) + ProcessAll(scene, ChildrenPreOrder(node, |node.children|, chain))
      decreases node, 0
    {
      for k := 0 to |node.children|
        invariant materials == old(materials)
        invariant meshes == old(meshes) + ProcessAll(scene, ChildrenPreOrder(node, k, chain))
      {
        ghost var before := meshes;
        ProcessNode(scene, node.children[k], chain);
        ChildStep(scene, node, k, chain, old(meshes), before, meshes);
      }
    }
  }

  /** Loads a model: an import that is missing, incomplete or has no root node
      is an error; otherwise the materials are loaded first, where the first
      new texture path that does not decode is an error, and the meshes are
      then collected in pre-order from the root under the identity transform.
      `decodable` holds the paths of the image files the decoder reads. */
  method LoadModel(filePath: string, scene: Option<Scene>, importerError: string, decodable: set<string>)
    returns (r: Outcome<Model>)
    requires Imported(scene) ==> SceneUsable(scene.value)
    ensures r.Err? <==>
      !Imported(scene) || SomeTextureFails(Directory(MODEL_DIR + filePath), {}, scene.value.materials, decodable)
    ensures !Imported(scene) ==> r.Err? && r.msg == ASSIMP_ERROR + importerError
    ensures Imported(scene) && r.Err? ==>
      exists i: nat :: FirstFailure(Directory(MODEL_DIR + filePath), {}, scene.value.materials, decodable, i)
        && r.msg == TEXTURE_ERROR + TexturePath(Directory(MODEL_DIR + filePath), scene.value.materials[i]).value
    ensures r.Ok? ==> fresh(r.value) && r.value.Valid()
    ensures r.Ok? ==> r.value.filePath == MODEL_DIR + filePath
    ensures r.Ok? ==> r.value.directory == Directory(MODEL_DIR + filePath)
    ensures r.Ok? ==> MaterialsLoaded(r.value.directory, r.value.textures, r.value.materials, scene.value.materials)
    ensures r.Ok? ==>
      r.value.textures.Keys == TexturePaths(r.value.directory, scene.value.materials, |scene.value.materials|)
    ensures r.Ok? ==> r.value.meshes == ProcessAll(scene.value, PreOrder(scene.value.root.value, []))
    ensures r.Ok? ==> r.value.GetMeshCount() == MachineInts.Wrap32(|PreOrder(scene.value.root.value, [])|)
  {
    if !Imported(scene) {
      return Err(ASSIMP_ERROR + importerError);
    }
    var s := scene.value;
    var model := new Model(filePath);
    var loaded := model.LoadMaterials(s, decodable);
    if loaded.Err? {
      return Err(loaded.msg);
    }
    model.ProcessNode(s, s.root.value, []);
    return Ok(model);
  }
}
