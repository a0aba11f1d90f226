/** `Cube` and `Quad` (Shapes.h / Shapes.cpp): meshes built from constant
    position, normal and texture-coordinate tables, textured by one `Texture`
    object loaded with a diffuse map and, when a second path is given, a
    specular map. The tables are flat float lists in the source; here each
    is the flattening of a list of rows, so that row `i` is vertex `i`. */
module Shapes {
  import opened Base
  import opened GL
  import opened Geometry
  import Meshes
  import Textures

  // ---------------------------------------------------------------------
  // Flat float tables

  function Flatten3(rows: seq<Vec3>): (fs: seq<real>)
    ensures |fs| == 3 * |rows|
  {
    if |rows| == 0 then [] else [rows[0].x, rows[0].y, rows[0].z] + Flatten3(rows[1..])
  }

  function Flatten2(rows: seq<Vec2>): (fs: seq<real>)
    ensures |fs| == 2 * |rows|
  {
    if |rows| == 0 then [] else [rows[0].x, rows[0].y] + Flatten2(rows[1..])
  }

  /** Float `3 * i + c` of a flattened table is component `c` of row `i`. */
  lemma {:induction false} Flatten3At(rows: seq<Vec3>, i: nat)
    requires i < |rows|
    ensures Flatten3(rows)[3 * i] == rows[i].x
    ensures Flatten3(rows)[3 * i + 1] == rows[i].y
    ensures Flatten3(rows)[3 * i + 2] == rows[i].z
  {
    if i > 0 {
      Flatten3At(rows[1..], i - 1);
    }
  }

  /** Float `2 * i + c` of a flattened table is component `c` of row `i`. */
  lemma {:induction false} Flatten2At(rows: seq<Vec2>, i: nat)
    requires i < |rows|
    ensures Flatten2(rows)[2 * i] == rows[i].x
    ensures Flatten2(rows)[2 * i + 1] == rows[i].y
  {
    if i > 0 {
      Flatten2At(rows[1..], i - 1);
    }
  }

  // ---------------------------------------------------------------------
  // Cube tables: blocks of six vertices, Back, Front, Left, Right, Bottom, Top

  const CubePositionRows: seq<Vec3> := [
    Vec3(-0.5, -0.5, -0.5), Vec3( 0.5,  0.5, -0.5), Vec3( 0.5, -0.5, -0.5),
    Vec3( 0.5,  0.5, -0.5), Vec3(-0.5, -0.5, -0.5), Vec3(-0.5,  0.5, -0.5),

    Vec3(-0.5, -0.5,  0.5), Vec3( 0.5, -0.5,  0.5), Vec3( 0.5,  0.5,  0.5),
    Vec3( 0.5,  0.5,  0.5), Vec3(-0.5,  0.5,  0.5), Vec3(-0.5, -0.5,  0.5),

    Vec3(-0.5,  0.5,  0.5), Vec3(-0.5,  0.5, -0.5), Vec3(-0.5, -0.5, -0.5),
    Vec3(-0.5, -0.5, -0.5), Vec3(-0.5, -0.5,  0.5), Vec3(-0.5,  0.5,  0.5),

    Vec3( 0.5,  0.5,  0.5), Vec3( 0.5, -0.5, -0.5), Vec3( 0.5,  0.5, -0.5),
    Vec3( 0.5, -0.5, -0.5), Vec3( 0.5,  0.5,  0.5), Vec3( 0.5, -0.5,  0.5),

    Vec3(-0.5, -0.5, -0.5), Vec3( 0.5, -0.5, -0.5), Vec3( 0.5, -0.5,  0.5),
    Vec3( 0.5, -0.5,  0.5), Vec3(-0.5, -0.5,  0.5), Vec3(-0.5, -0.5, -0.5),

    Vec3(-0.5,  0.5, -0.5), Vec3( 0.5,  0.5,  0.5), Vec3( 0.5,  0.5, -0.5),
    Vec3( 0.5,  0.5,  0.5), Vec3(-0.5,  0.5, -0.5), Vec3(-0.5,  0.5,  0.5)]

  const CubeNormalRows: seq<Vec3> := [
    Vec3(0.0, 0.0, -1.0), Vec3(0.0, 0.0, -1.0), Vec3(0.0, 0.0, -1.0),
    Vec3(0.0, 0.0, -1.0), Vec3(0.0, 0.0, -1.0), Vec3(0.0, 0.0, -1.0),

    Vec3(0.0, 0.0, 1.0), Vec3(0.0, 0.0, 1.0), Vec3(0.0, 0.0, 1.0),
    Vec3(0.0, 0.0, 1.0), Vec3(0.0, 0.0, 1.0), Vec3(0.0, 0.0, 1.0),

    Vec3(-1.0, 0.0, 0.0), Vec3(-1.0, 0.0, 0.0), Vec3(-1.0, 0.0, 0.0),
    Vec3(-1.0, 0.0, 0.0), Vec3(-1.0, 0.0, 0.0), Vec3(-1.0, 0.0, 0.0),

    Vec3(1.0, 0.0, 0.0), Vec3(1.0, 0.0, 0.0), Vec3(1.0, 0.0, 0.0),
    Vec3(1.0, 0.0, 0.0), Vec3(1.0, 0.0, 0.0), Vec3(1.0, 0.0, 0.0),

    Vec3(0.0, -1.0, 0.0), Vec3(0.0, -1.0, 0.0), Vec3(0.0, -1.0, 0.0),
    Vec3(0.0, -1.0, 0.0), Vec3(0.0, -1.0, 0.0), Vec3(0.0, -1.0, 0.0),

    Vec3(0.0, 1.0, 0.0), Vec3(0.0, 1.0, 0.0), Vec3(0.0, 1.0, 0.0),
    Vec3(0.0, 1.0, 0.0), Vec3(0.0, 1.0, 0.0), Vec3(0.0, 1.0, 0.0)]

  const CubeTexCoordRows: seq<Vec2> := [
    Vec2(0.0, 0.0), Vec2(1.0, 1.0), Vec2(1.0, 0.0), Vec2(1.0, 1.0), Vec2(0.0, 0.0), Vec2(0.0, 1.0),
    Vec2(0.0, 0.0), Vec2(1.0, 0.0), Vec2(1.0, 1.0), Vec2(1.0, 1.0), Vec2(0.0, 1.0), Vec2(0.0, 0.0),
    Vec2(1.0, 0.0), Vec2(1.0, 1.0), Vec2(0.0, 1.0), Vec2(0.0, 1.0), Vec2(0.0, 0.0), Vec2(1.0, 0.0),
    Vec2(1.0, 0.0), Vec2(0.0, 1.0), Vec2(1.0, 1.0), Vec2(0.0, 1.0), Vec2(1.0, 0.0), Vec2(0.0, 0.0),
    Vec2(0.0, 1.0), Vec2(1.0, 1.0), Vec2(1.0, 0.0), Vec2(1.0, 0.0), Vec2(0.0, 0.0), Vec2(0.0, 1.0),
    Vec2(0.0, 1.0), Vec2(1.0, 0.0), Vec2(1.0, 1.0), Vec2(1.0, 0.0), Vec2(0.0, 1.0), Vec2(0.0, 0.0)]

  /** `cubePositions`, `cubeNormals`, `cubeTexCoords` as flat float lists. */
  function CubePositions(): seq<real> { Flatten3(CubePositionRows) }
  function CubeNormals(): seq<real> { Flatten3(CubeNormalRows) }
  function CubeTexCoords(): seq<real> { Flatten2(CubeTexCoordRows) }

  /** The outward normal of each labelled block. */
  const CubeFaceNormals: seq<Vec3> := [
    Vec3(0.0, 0.0, -1.0), Vec3(0.0, 0.0, 1.0),
    Vec3(-1.0, 0.0, 0.0), Vec3(1.0, 0.0, 0.0),
    Vec3(0.0, -1.0, 0.0), Vec3(0.0, 1.0, 0.0)]

  predicate IsHalf(r: real)
  {
    r == 0.5 || r == -0.5
  }

  predicate IsUnitUV(r: real)
  {
    r == 0.0 || r == 1.0
  }

  /** The three cube tables have 36 rows each; flattened at three, three and
      two floats per row (108, 108 and 72 floats) they describe the same 36
      vertices. */
  lemma CubeTableSizes()
    ensures |CubePositionRows| == 36 && |CubeNormalRows| == 36 && |CubeTexCoordRows| == 36
  {
  }

  /** Every cube position coordinate is +-0.5 and every texture coordinate 0
      or 1. */
  lemma CubeTableValues()
    ensures forall i :: 0 <= i < |CubePositionRows| ==>
              IsHalf(CubePositionRows[i].x) && IsHalf(CubePositionRows[i].y) && IsHalf(CubePositionRows[i].z)
    ensures forall i :: 0 <= i < |CubeTexCoordRows| ==>
              IsUnitUV(CubeTexCoordRows[i].x) && IsUnitUV(CubeTexCoordRows[i].y)
  {
  }

  /** Within block `b` every normal is the block's constant unit axis
      vector. */
  lemma CubeFaceBlock(b: nat, j: nat)
    requires b < 6 && j < 6
    ensures |CubeNormalRows| == 36 && |CubeFaceNormals| == 6
    ensures CubeNormalRows[6 * b + j] == CubeFaceNormals[b]
    ensures Dot(CubeFaceNormals[b], CubeFaceNormals[b]) == 1.0
  {
  }

  /** Every position of block `b` lies on that face's plane,
      `position . normal == 0.5`. */
  lemma CubeFacePlane(b: nat, j: nat)
    requires b < 6 && j < 6
    ensures |CubePositionRows| == 36 && |CubeFaceNormals| == 6
    ensures Dot(CubePositionRows[6 * b + j], CubeFaceNormals[b]) == 0.5
  {
    if b == 0 {
      assert CubePositionRows[6 * b + j].z == -0.5;
    } else if b == 1 {
      assert CubePositionRows[6 * b + j].z == 0.5;
    } else if b == 2 {
      assert CubePositionRows[6 * b + j].x == -0.5;
    } else if b == 3 {
      assert CubePositionRows[6 * b + j].x == 0.5;
    } else if b == 4 {
      assert CubePositionRows[6 * b + j].y == -0.5;
    } else {
      assert CubePositionRows[6 * b + j].y == 0.5;
    }
  }

  /** The six blocks have six different normals, so the cube is closed. */
  lemma CubeFaceNormalsDistinct(b: nat, c: nat)
    requires b < 6 && c < 6 && b != c
    ensures |CubeFaceNormals| == 6 && CubeFaceNormals[b] != CubeFaceNormals[c]
  {
  }

  // ---------------------------------------------------------------------
  // Quad tables

  const QuadPositionRows: seq<Vec3> := [
    Vec3(-5.0, -0.5,  5.0), Vec3( 5.0, -0.5,  5.0), Vec3(-5.0, -0.5, -5.0),
    Vec3(-5.0, -0.5, -5.0), Vec3( 5.0, -0.5,  5.0), Vec3( 5.0, -0.5, -5.0)]

  const QuadNormalRows: seq<Vec3> := [
    Vec3(0.0, 1.0, 0.0), Vec3(0.0, 1.0, 0.0), Vec3(0.0, 1.0, 0.0),
    Vec3(0.0, 1.0, 0.0), Vec3(0.0, 1.0, 0.0), Vec3(0.0, 1.0, 0.0)]

  const QuadTexCoordRows: seq<Vec2> := [
    Vec2(0.0, 0.0), Vec2(2.0, 0.0), Vec2(0.0, 2.0),
    Vec2(0.0, 2.0), Vec2(2.0, 0.0), Vec2(2.0, 2.0)]

  function QuadPositions(): seq<real> { Flatten3(QuadPositionRows) }
  function QuadNormals(): seq<real> { Flatten3(QuadNormalRows) }
  function QuadTexCoords(): seq<real> { Flatten2(QuadTexCoordRows) }

  /** The quad is six vertices on the plane y = -0.5 facing +Y, with texture
      coordinates 0 or 2 (the texture repeats twice across it). */
  lemma QuadTables()
    ensures |QuadPositions()| == 18 && |QuadNormals()| == 18 && |QuadTexCoords()| == 12
    ensures forall i :: 0 <= i < |QuadPositionRows| ==>
              QuadPositionRows[i].y == -0.5 && QuadNormalRows[i] == Vec3(0.0, 1.0, 0.0)
    ensures forall i :: 0 <= i < |QuadTexCoordRows| ==>
              (QuadTexCoordRows[i].x == 0.0 || QuadTexCoordRows[i].x == 2.0)
              && (QuadTexCoordRows[i].y == 0.0 || QuadTexCoordRows[i].y == 2.0)
  {
  }

  // ---------------------------------------------------------------------
  // Cube / Quad constructors

  /** The mesh state a shape constructor fills: the three tables, one row per
      vertex (their flattenings are the source's float lists), and the
      texture list. */
  datatype ShapeMesh = ShapeMesh(positions: seq<Vec3>, normals: seq<Vec3>, texCoords: seq<Vec2>,
                                 textures: seq<Meshes.MeshTexture>)

  datatype Built = Built(mesh: ShapeMesh, calls: seq<Call>)

  datatype Shape = CubeShape | QuadShape

  /** The rows of a shape's position, normal and texture-coordinate tables. */
  function Tables(shape: Shape): (seq<Vec3>, seq<Vec3>, seq<Vec2>)
  {
    match shape
    case CubeShape => (CubePositionRows, CubeNormalRows, CubeTexCoordRows)
    case QuadShape => (QuadPositionRows, QuadNormalRows, QuadTexCoordRows)
  }

  /** `Cube(diffTexPath, specTexPath)` / `Quad(...)`: copies the shape's
      tables, then loads one `Texture` (named `textureId`) from the diffuse
      path and lists it as `texture_diffuse`; for a non-empty specular path
      the same texture object is loaded again from it and listed as
      `texture_specular`. */
  function Build(shape: Shape, textureId: nat, diffPath: string, specPath: string,
                 decode: string -> Option<Textures.Image>): (r: Built)
    ensures (r.mesh.positions, r.mesh.normals, r.mesh.texCoords) == Tables(shape)
    ensures |r.mesh.textures| == (if specPath != "" then 2 else 1)
    ensures r.mesh.textures[0] == Meshes.MeshTexture(textureId, Meshes.DiffuseKind, diffPath)
    ensures specPath != "" ==> r.mesh.textures[1] == Meshes.MeshTexture(textureId, Meshes.SpecularKind, specPath)
  {
    var tables := Tables(shape);
    var texture := Textures.Texture(textureId, "");
    var diffuse := Textures.LoadTexture(texture, diffPath, decode(diffPath));
    var entries := [Meshes.MeshTexture(diffuse.texture.id, Meshes.DiffuseKind, diffuse.texture.path)];
    if specPath != "" then
      var specular := Textures.LoadTexture(diffuse.texture, specPath, decode(specPath));
      Built(ShapeMesh(tables.0, tables.1, tables.2,
                      entries + [Meshes.MeshTexture(specular.texture.id, Meshes.SpecularKind, specular.texture.path)]),
            diffuse.calls + specular.calls)
    else
      Built(ShapeMesh(tables.0, tables.1, tables.2, entries), diffuse.calls)
  }

  /** Both entries share the one texture object, so when both maps decode the
      second load re-specifies storage of the texture the diffuse entry
      already uses. */
  lemma SpecularReusesDiffuseTexture(shape: Shape, textureId: nat, diffPath: string, specPath: string,
                                     decode: string -> Option<Textures.Image>)
    requires specPath != "" && decode(diffPath).Some? && decode(specPath).Some?
    ensures var r := Build(shape, textureId, diffPath, specPath, decode);
      && r.mesh.textures[1].id == r.mesh.textures[0].id
      && exists i, j :: 0 <= i < j < |r.calls| && r.calls[i].TextureStorage2D? && r.calls[j].TextureStorage2D?
                        && r.calls[i].texture == textureId && r.calls[j].texture == textureId
  {
    var r := Build(shape, textureId, diffPath, specPath, decode);
    var diffuse := Textures.LoadTexture(Textures.Texture(textureId, ""), diffPath, decode(diffPath));
    var specular := Textures.LoadTexture(diffuse.texture, specPath, decode(specPath));
    var i := |diffuse.calls| - 3;
    var j := |diffuse.calls| + |specular.calls| - 3;
    assert r.calls[i] == diffuse.calls[i];
    assert r.calls[j] == specular.calls[|specular.calls| - 3];
  }
}
