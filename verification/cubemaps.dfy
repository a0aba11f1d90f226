/** `Cubemap` (Cubemap.h / Cubemap.cpp): a cube-map texture loaded face by face
    from image files, drawn as a skybox, plus the constant capture table
    (six look-at views and a 90-degree projection) and the skybox vertex
    list. The image decoder is an oracle from path to `Option<Image>`. */
module Cubemaps {
  import opened Base
  import opened GL
  import opened Geometry
  import Textures

  datatype Cubemap = Cubemap(id: nat, vao: nat)

  // ---------------------------------------------------------------------
  // loadMap

  const FaceFailedPrefix: string := "Cubemap tex failed to load at path: "

  /** What the loop does with face `k >= 1`: upload it to layer `k`, or report
      its path. */
  function FaceStep(id: nat, k: nat, path: string, decoded: Option<Textures.Image>): Call
  {
    match decoded
    case Some(img) => TextureSubImage3D(id, 0, k, img.width, img.height)
    case None => Log(FaceFailedPrefix + path + "\n")
  }

  /** `loadMap(faces)`: the first face fixes the storage (one level of RGB8 at
      its size) and goes to layer 0; if it does not decode, the literal `0`
      is reported in place of its path and nothing else is attempted.
      Otherwise every later face is uploaded to its own layer or reported,
      and a failure does not stop the loop. */
  method LoadMap(cube: Cubemap, faces: seq<string>, decode: string -> Option<Textures.Image>) returns (calls: seq<Call>)
    requires |faces| >= 1
    ensures decode(faces[0]).None? ==> calls == [Log(FaceFailedPrefix + "0\n")]
    ensures decode(faces[0]).Some? ==>
      var first := decode(faces[0]).value;
      && |calls| == |faces| + 1
      && calls[0] == TextureStorage2D(cube.id, 1, Some(Rgb8), first.width, first.height)
      && calls[1] == TextureSubImage3D(cube.id, 0, 0, first.width, first.height)
      && (forall k :: 1 <= k < |faces| ==> calls[k + 1] == FaceStep(cube.id, k, faces[k], decode(faces[k])))
  {
    var decoded := decode(faces[0]);
    if decoded.None? {
      return [Log(FaceFailedPrefix + "0\n")];
    }
    var first := decoded.value;
    calls := [TextureStorage2D(cube.id, 1, Some(Rgb8), first.width, first.height),
              TextureSubImage3D(cube.id, 0, 0, first.width, first.height)];
    var faceIdx := 1;
    while faceIdx < |faces|
      invariant 1 <= faceIdx <= |faces|
      invariant |calls| == faceIdx + 1
      invariant calls[0] == TextureStorage2D(cube.id, 1, Some(Rgb8), first.width, first.height)
      invariant calls[1] == TextureSubImage3D(cube.id, 0, 0, first.width, first.height)
      invariant forall k :: 1 <= k < faceIdx ==> calls[k + 1] == FaceStep(cube.id, k, faces[k], decode(faces[k]))
    {
      var data := decode(faces[faceIdx]);
      if data.Some? {
        calls := calls + [TextureSubImage3D(cube.id, 0, faceIdx, data.value.width, data.value.height)];
      } else {
        calls := calls + [Log(FaceFailedPrefix + faces[faceIdx] + "\n")];
      }
      faceIdx := faceIdx + 1;
    }
  }

  /** The face-load policy seen from the trace: storage is allocated exactly
      once, by the first call, at the first face's size; the call at
      position `k + 1` is the upload of face `k` to layer `k` exactly when
      that face decodes, and a report otherwise. */
  lemma LoadMapPolicy(cube: Cubemap, faces: seq<string>, decode: string -> Option<Textures.Image>, calls: seq<Call>, k: nat)
    requires |faces| >= 1 && decode(faces[0]).Some?
    requires |calls| == |faces| + 1
    requires calls[0] == TextureStorage2D(cube.id, 1, Some(Rgb8), decode(faces[0]).value.width, decode(faces[0]).value.height)
    requires calls[1] == TextureSubImage3D(cube.id, 0, 0, decode(faces[0]).value.width, decode(faces[0]).value.height)
    requires forall j :: 1 <= j < |faces| ==> calls[j + 1] == FaceStep(cube.id, j, faces[j], decode(faces[j]))
    requires k < |faces|
    ensures forall j :: 1 <= j < |calls| ==> !calls[j].TextureStorage2D?
    ensures calls[k + 1].TextureSubImage3D? <==> decode(faces[k]).Some?
    ensures calls[k + 1].TextureSubImage3D? ==> calls[k + 1].layer == k
    ensures calls[k + 1].Log? <==> decode(faces[k]).None?
  {
    forall j | 1 <= j < |calls| ensures !calls[j].TextureStorage2D? {
      if j > 1 {
        assert calls[j] == FaceStep(cube.id, j - 1, faces[j - 1], decode(faces[j - 1]));
      }
    }
  }

  // ---------------------------------------------------------------------
  // draw

  const SkyboxSampler: string := "skybox"

  /** `draw(shader)`: with the depth test relaxed to LEQUAL, binds the cube
      map to unit 0 and the vertex array, points `skybox` at unit 0, draws
      the buffer's vertices as triangles and sets the depth test to LESS. */
  function Draw(cube: Cubemap, vertexCount: nat): (calls: seq<Call>)
    ensures |calls| == 6
    ensures calls[0] == SetDepthFunc(LessEqual) && calls[5] == SetDepthFunc(Less)
    ensures BindTextureUnit(0, cube.id) in calls && SetSampler(SkyboxSampler, 0) in calls
    ensures forall i :: 0 < i < 5 ==> !calls[i].SetDepthFunc?
  {
    [ SetDepthFunc(LessEqual),
      BindTextureUnit(0, cube.id),
      BindVertexArray(cube.vao),
      SetSampler(SkyboxSampler, 0),
      DrawArrays(0, vertexCount),
      SetDepthFunc(Less) ]
  }

  /** The depth function in effect after a trace, starting from `start`: the
      one the last `SetDepthFunc` set, or `start` when there is none. */
  function DepthAfter(start: DepthFunc, calls: seq<Call>): DepthFunc
    decreases |calls|
  {
    if |calls| == 0 then start
    else DepthAfter(if calls[0].SetDepthFunc? then calls[0].func else start, calls[1..])
  }

  /** Position of the draw call in `Draw`'s trace. */
  const DrawIndex: nat := 4

  /** Whatever depth function was set before, the skybox is drawn under LEQUAL
      and the depth function is LESS afterwards: the previous setting is not
      restored, only the renderer's usual one. */
  lemma DrawDepthDiscipline(cube: Cubemap, vertexCount: nat, start: DepthFunc)
    ensures Draw(cube, vertexCount)[DrawIndex] == DrawArrays(0, vertexCount)
    ensures DepthAfter(start, Draw(cube, vertexCount)[..DrawIndex]) == LessEqual
    ensures DepthAfter(start, Draw(cube, vertexCount)) == Less
    ensures start == LessEqual ==> DepthAfter(start, Draw(cube, vertexCount)) != start
  {
    var calls := Draw(cube, vertexCount);
    DepthAfterUnset(LessEqual, calls[1..DrawIndex]);
    assert calls[..DrawIndex][1..] == calls[1..DrawIndex];
    DepthAfterUnset(LessEqual, calls[1..5]);
    assert calls[1..] == calls[1..5] + [calls[5]];
    DepthAfterAppend(LessEqual, calls[1..5], calls[5]);
  }

  /** A trace that sets no depth function leaves it as it was. */
  lemma {:induction false} DepthAfterUnset(start: DepthFunc, calls: seq<Call>)
    requires forall i :: 0 <= i < |calls| ==> !calls[i].SetDepthFunc?
    ensures DepthAfter(start, calls) == start
    decreases |calls|
  {
    if |calls| > 0 {
      DepthAfterUnset(start, calls[1..]);
    }
  }

  /** Appending one call to a trace applies it last. */
  lemma {:induction false} DepthAfterAppend(start: DepthFunc, calls: seq<Call>, c: Call)
    ensures DepthAfter(start, calls + [c]) == if c.SetDepthFunc? then c.func else DepthAfter(start, calls)
    decreases |calls|
  {
    if |calls| > 0 {
      assert (calls + [c])[1..] == calls[1..] + [c];
      DepthAfterAppend(if calls[0].SetDepthFunc? then calls[0].func else start, calls[1..], c);
    } else {
      assert (calls + [c])[1..] == [];
    }
  }

  // ---------------------------------------------------------------------
  // captureViews / captureProjection

  /** The coordinate of `v` along axis 0 (x), 1 (y) or 2 (z). */
  function Coord(v: Vec3, axis: nat): real
    requires axis < 3
  {
    if axis == 0 then v.x else if axis == 1 then v.y else v.z
  }

  /** The unit vector along `axis`, with sign +1 or -1. */
  function AxisVector(axis: nat, positive: bool): (v: Vec3)
    requires axis < 3
    ensures Coord(v, axis) == (if positive then 1.0 else -1.0)
    ensures forall a :: 0 <= a < 3 && a != axis ==> Coord(v, a) == 0.0
  {
    var s := if positive then 1.0 else -1.0;
    if axis == 0 then Vec3(s, 0.0, 0.0) else if axis == 1 then Vec3(0.0, s, 0.0) else Vec3(0.0, 0.0, s)
  }

  /** Cube-map face `k` in the order of section 8.13 of the OpenGL 4.5 Core
      Profile specification (+X, -X, +Y, -Y, +Z, -Z) looks along axis
      `k / 2`, positively for even `k`. */
  function FaceAxis(k: nat): (v: Vec3)
    requires k < 6
  {
    AxisVector(k / 2, k % 2 == 0)
  }

  /** The `center` argument of each `lookAt` in `captureViews` (the eye is the
      origin). */
  const CaptureTargets: seq<Vec3> := [
    Vec3(1.0, 0.0, 0.0), Vec3(-1.0, 0.0, 0.0),
    Vec3(0.0, 1.0, 0.0), Vec3(0.0, -1.0, 0.0),
    Vec3(0.0, 0.0, 1.0), Vec3(0.0, 0.0, -1.0)]

  /** The `up` argument of each `lookAt` in `captureViews`. */
  const CaptureUps: seq<Vec3> := [
    Vec3(0.0, -1.0, 0.0), Vec3(0.0, -1.0, 0.0),
    Vec3(0.0, 0.0, 1.0), Vec3(0.0, 0.0, -1.0),
    Vec3(0.0, -1.0, 0.0), Vec3(0.0, -1.0, 0.0)]

  /** The six views look from the origin toward the faces in layer order. */
  lemma CaptureOrder(k: nat)
    requires k < 6
    ensures |CaptureTargets| == 6 && |CaptureUps| == 6
    ensures CaptureTargets[k] == FaceAxis(k)
  {
  }

  /** The up vectors are -Y for the four side faces, +Z looking up and -Z
      looking down; each is a unit vector orthogonal to its view direction,
      so no view is degenerate. */
  lemma CaptureUpVectors(k: nat)
    requires k < 6
    ensures CaptureUps[k] == (if k == 2 then Vec3(0.0, 0.0, 1.0) else if k == 3 then Vec3(0.0, 0.0, -1.0) else Vec3(0.0, -1.0, 0.0))
    ensures Dot(CaptureUps[k], CaptureTargets[k]) == 0.0
    ensures Dot(CaptureUps[k], CaptureUps[k]) == 1.0 && Dot(CaptureTargets[k], CaptureTargets[k]) == 1.0
  {
  }

  /** The view transform of a right-handed look-at from the origin toward
      unit `f` with unit `up` orthogonal to it: side `s = f x up`,
      true up `u = s x f`, and the rows `s`, `u`, `-f`. */
  function LookAtView(f: Vec3, up: Vec3, p: Vec3): Vec3
  {
    var s := Cross(f, up);
    var u := Cross(s, f);
    Vec3(Dot(s, p), Dot(u, p), -Dot(f, p))
  }

  function CaptureView(k: nat, p: Vec3): Vec3
    requires k < 6
  {
    LookAtView(CaptureTargets[k], CaptureUps[k], p)
  }

  /** Each view looks straight down its face axis (the direction lands on the
      view's -Z axis) with its up vector pointing screen-up. */
  lemma CaptureViewFrames(k: nat)
    requires k < 6
    ensures CaptureView(k, CaptureTargets[k]) == Vec3(0.0, 0.0, -1.0)
    ensures CaptureView(k, CaptureUps[k]) == Vec3(0.0, 1.0, 0.0)
  {
    CaptureUpVectors(k);
    CaptureSide(k);
    OrthonormalFrameView(CaptureTargets[k], CaptureUps[k]);
  }

  /** For a unit `f` and a unit `up` orthogonal to it, the look-at transform
      sends `f` to -Z and `up` to +Y. */
  lemma OrthonormalFrameView(f: Vec3, up: Vec3)
    requires Dot(f, f) == 1.0 && Dot(up, up) == 1.0 && Dot(up, f) == 0.0
    requires Cross(Cross(f, up), f) == up
    requires Dot(Cross(f, up), f) == 0.0 && Dot(Cross(f, up), up) == 0.0
    ensures LookAtView(f, up, f) == Vec3(0.0, 0.0, -1.0)
    ensures LookAtView(f, up, up) == Vec3(0.0, 1.0, 0.0)
  {
    assert Dot(up, f) == Dot(f, up);
  }

  /** The side vector `f x up` of each view. */
  const CaptureSides: seq<Vec3> := [
    Vec3(0.0, 0.0, -1.0), Vec3(0.0, 0.0, 1.0),
    Vec3(1.0, 0.0, 0.0), Vec3(1.0, 0.0, 0.0),
    Vec3(1.0, 0.0, 0.0), Vec3(-1.0, 0.0, 0.0)]

  /** The side vector of each view is an axis vector orthogonal to the view
      direction and the up vector, and completes them to a right-handed
      frame. */
  lemma CaptureSide(k: nat)
    requires k < 6
    ensures |CaptureSides| == 6
    ensures Cross(CaptureTargets[k], CaptureUps[k]) == CaptureSides[k]
    ensures Cross(CaptureSides[k], CaptureTargets[k]) == CaptureUps[k]
    ensures Dot(CaptureSides[k], CaptureTargets[k]) == 0.0 && Dot(CaptureSides[k], CaptureUps[k]) == 0.0
    ensures IsAxis(CaptureSides[k]) && IsAxis(CaptureUps[k])
  {
    var f, up, side := CaptureTargets[k], CaptureUps[k], CaptureSides[k];
    SideIsCross(k);
    SideCompletesFrame(k);
    SideOrthogonal(k);
    FrameOnAxes(k);
    assert Cross(f, up) == side && Cross(side, f) == up;
  }

  lemma SideIsCross(k: nat)
    requires k < 6
    ensures Cross(CaptureTargets[k], CaptureUps[k]) == CaptureSides[k]
  {
    if k == 0 {
    } else if k == 1 {
    } else if k == 2 {
    } else if k == 3 {
    } else if k == 4 {
    } else {
    }
  }

  lemma SideCompletesFrame(k: nat)
    requires k < 6
    ensures Cross(CaptureSides[k], CaptureTargets[k]) == CaptureUps[k]
  {
    if k == 0 {
    } else if k == 1 {
    } else if k == 2 {
    } else if k == 3 {
    } else if k == 4 {
    } else {
    }
  }

  lemma SideOrthogonal(k: nat)
    requires k < 6
    ensures Dot(CaptureSides[k], CaptureTargets[k]) == 0.0 && Dot(CaptureSides[k], CaptureUps[k]) == 0.0
  {
  }

  lemma FrameOnAxes(k: nat)
    requires k < 6
    ensures IsAxis(CaptureSides[k]) && IsAxis(CaptureUps[k])
  {
  }

  /** `glm::perspective(radians(90), 1, 0.1, 10)`: a 90-degree field of view
      has focal length cot(45 degrees) = 1. */
  const CaptureFovDegrees: real := 90.0
  const CaptureAspect: real := 1.0
  const CaptureNear: real := 0.1
  const CaptureFar: real := 10.0
  const CaptureFocal: real := 1.0

  /** Normalised device x and y of a view-space point in front of the camera. */
  function Project(p: Vec3): (real, real)
    requires p.z < 0.0
  {
    ((CaptureFocal / CaptureAspect) * p.x / -p.z, CaptureFocal * p.y / -p.z)
  }

  /** A 90-degree field of view with aspect 1 is the square frustum bounded by
      the 45-degree planes: a point in front of the camera projects inside
      [-1, 1] horizontally exactly when `|x| <= -z`, and vertically exactly
      when `|y| <= -z`; the near plane lies in front of the far plane. */
  lemma CaptureFrustum(v: Vec3)
    requires v.z < 0.0
    ensures 0.0 < CaptureNear < CaptureFar
    ensures -1.0 <= Project(v).0 <= 1.0 <==> v.z <= v.x <= -v.z
    ensures -1.0 <= Project(v).1 <= 1.0 <==> v.z <= v.y <= -v.z
  {
    var depth := -v.z;
    assert Project(v).0 == v.x / depth;
    assert Project(v).1 == v.y / depth;
    DivisionBounds(v.x, depth);
    DivisionBounds(v.y, depth);
  }

  /** For a positive `d`, `a / d` lies in [-1, 1] exactly when `a` lies in
      [-d, d]. */
  lemma DivisionBounds(a: real, d: real)
    requires d > 0.0
    ensures -1.0 <= a / d <= 1.0 <==> -d <= a <= d
  {
    assert a == (a / d) * d;
  }

  /** The six signed unit axis vectors. */
  predicate IsAxis(a: Vec3)
  {
    a in {Vec3(1.0, 0.0, 0.0), Vec3(-1.0, 0.0, 0.0), Vec3(0.0, 1.0, 0.0),
          Vec3(0.0, -1.0, 0.0), Vec3(0.0, 0.0, 1.0), Vec3(0.0, 0.0, -1.0)}
  }

  // ---------------------------------------------------------------------
  // cubemapVertices

  /** The skybox: 36 positions, two triangles per face, six faces. */
  const CubemapVertices: seq<Vec3> := [
    Vec3(-1.0,  1.0, -1.0), Vec3(-1.0, -1.0, -1.0), Vec3( 1.0, -1.0, -1.0),
    Vec3( 1.0, -1.0, -1.0), Vec3( 1.0,  1.0, -1.0), Vec3(-1.0,  1.0, -1.0),

    Vec3(-1.0, -1.0,  1.0), Vec3(-1.0, -1.0, -1.0), Vec3(-1.0,  1.0, -1.0),
    Vec3(-1.0,  1.0, -1.0), Vec3(-1.0,  1.0,  1.0), Vec3(-1.0, -1.0,  1.0),

    Vec3( 1.0, -1.0, -1.0), Vec3( 1.0, -1.0,  1.0), Vec3( 1.0,  1.0,  1.0),
    Vec3( 1.0,  1.0,  1.0), Vec3( 1.0,  1.0, -1.0), Vec3( 1.0, -1.0, -1.0),

    Vec3(-1.0, -1.0,  1.0), Vec3(-1.0,  1.0,  1.0), Vec3( 1.0,  1.0,  1.0),
    Vec3( 1.0,  1.0,  1.0), Vec3( 1.0, -1.0,  1.0), Vec3(-1.0, -1.0,  1.0),

    Vec3(-1.0,  1.0, -1.0), Vec3( 1.0,  1.0, -1.0), Vec3( 1.0,  1.0,  1.0),
    Vec3( 1.0,  1.0,  1.0), Vec3(-1.0,  1.0,  1.0), Vec3(-1.0,  1.0, -1.0),

    Vec3(-1.0, -1.0, -1.0), Vec3(-1.0, -1.0,  1.0), Vec3( 1.0, -1.0, -1.0),
    Vec3( 1.0, -1.0, -1.0), Vec3(-1.0, -1.0,  1.0), Vec3( 1.0, -1.0,  1.0)]

  predicate IsUnitSign(r: real)
  {
    r == 1.0 || r == -1.0
  }

  /** Face of each block of six skybox vertices, as an index into the
      cube-map face order: -Z, -X, +X, +Z, +Y, -Y. */
  const SkyboxBlockFaces: seq<nat> := [5, 1, 0, 4, 2, 3]

  /** Every skybox vertex is a corner of the [-1, 1] cube. */
  lemma SkyboxCorners()
    ensures |CubemapVertices| == 36
    ensures forall i :: 0 <= i < |CubemapVertices| ==>
              IsUnitSign(CubemapVertices[i].x) && IsUnitSign(CubemapVertices[i].y) && IsUnitSign(CubemapVertices[i].z)
  {
  }

  /** Each block of six skybox vertices lies on one face of the cube. */
  lemma SkyboxBlocks(b: nat, j: nat)
    requires b < 6 && j < 6
    ensures |CubemapVertices| == 36 && |SkyboxBlockFaces| == 6 && SkyboxBlockFaces[b] < 6
    ensures Dot(CubemapVertices[6 * b + j], FaceAxis(SkyboxBlockFaces[b])) == 1.0
  {
    if b == 0 {
      assert CubemapVertices[6 * b + j].z == -1.0;
      assert FaceAxis(5) == Vec3(0.0, 0.0, -1.0);
    } else if b == 1 {
      assert CubemapVertices[6 * b + j].x == -1.0;
      assert FaceAxis(1) == Vec3(-1.0, 0.0, 0.0);
    } else if b == 2 {
      assert CubemapVertices[6 * b + j].x == 1.0;
      assert FaceAxis(0) == Vec3(1.0, 0.0, 0.0);
    } else if b == 3 {
      assert CubemapVertices[6 * b + j].z == 1.0;
      assert FaceAxis(4) == Vec3(0.0, 0.0, 1.0);
    } else if b == 4 {
      assert CubemapVertices[6 * b + j].y == 1.0;
      assert FaceAxis(2) == Vec3(0.0, 1.0, 0.0);
    } else {
      assert CubemapVertices[6 * b + j].y == -1.0;
      assert FaceAxis(3) == Vec3(0.0, -1.0, 0.0);
    }
  }

  /** Different blocks lie on different faces, so the six blocks cover all six
      faces of the cube. */
  lemma SkyboxBlockFacesDistinct(b: nat, c: nat)
    requires b < 6 && c < 6 && b != c
    ensures |SkyboxBlockFaces| == 6 && SkyboxBlockFaces[b] != SkyboxBlockFaces[c]
  {
  }
}
