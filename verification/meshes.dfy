/** `Mesh` (Mesh.h / Mesh.cpp): interleaved vertices, optional indices and a
    list of textures; `setupMesh` describes the vertex layout to GL and `draw`
    binds the textures to consecutive units, names their sampler uniforms and
    issues one indexed or non-indexed draw. */
module Meshes {
  import opened Base
  import opened GL
  import opened Geometry
  import Buffers
  import Textures

  /** `struct Vertex { vec3 Position; vec3 Normal; vec2 TexCoords; }` */
  datatype Vertex = Vertex(position: Vec3, normal: Vec3, texCoords: Vec2)

  /** The members of `Vertex`, in declaration order. */
  datatype VertexField = Position | Normal | TexCoords

  const VertexFields: seq<VertexField> := [Position, Normal, TexCoords]

  /** Floats in each member of `Vertex` (glm vectors are tightly packed). */
  function FieldFloats(f: VertexField): nat
  {
    match f
    case Position => 3
    case Normal => 3
    case TexCoords => 2
  }

  /** Floats occupied by the first `n` members of `Vertex`. */
  function PrefixFloats(n: nat): nat
    requires n <= |VertexFields|
  {
    if n == 0 then 0 else PrefixFloats(n - 1) + FieldFloats(VertexFields[n - 1])
  }

  /** `offsetof(Vertex, f)` in bytes. */
  function OffsetOf(f: VertexField): nat
  {
    Buffers.FloatSize * PrefixFloats(match f case Position => 0 case Normal => 1 case TexCoords => 2)
  }

  /** `sizeof(Vertex)` in bytes: no padding between float members. */
  function SizeOfVertex(): nat
  {
    Buffers.FloatSize * PrefixFloats(|VertexFields|)
  }

  const SizeOfIndex: nat := 4   // sizeof(unsigned int)

  /** `struct MeshTexture { id; type; path; }` (`type` is the sampler kind). */
  datatype MeshTexture = MeshTexture(id: nat, kind: string, path: string)

  /** A mesh together with the vertex array object its `setupMesh` created. */
  datatype Mesh = Mesh(vertices: seq<Vertex>, indices: seq<nat>, textures: seq<MeshTexture>, vao: nat)

  /** `glVertexAttribPointer(index, size, GL_FLOAT, GL_FALSE, stride, offset)`
      after `glEnableVertexAttribArray(index)`. */
  datatype AttribPointer = AttribPointer(index: nat, size: nat, strideBytes: nat, byteOffset: nat)

  /** What `setupMesh` hands to GL: the vertex bytes, the element bytes when
      an element buffer is filled, and the attribute pointers. */
  datatype MeshSetup = MeshSetup(vao: nat, vertexBytes: nat, elementBytes: Option<nat>, attributes: seq<AttribPointer>)

  function SetupMesh(vao: nat, vertices: seq<Vertex>, indices: seq<nat>): MeshSetup
  {
    MeshSetup(
      vao,
      |vertices| * SizeOfVertex(),
      if |indices| > 0 then Some(|indices| * SizeOfIndex) else None,
      [ AttribPointer(0, 3, SizeOfVertex(), 0),
        AttribPointer(1, 3, SizeOfVertex(), OffsetOf(Normal)),
        AttribPointer(2, 2, SizeOfVertex(), OffsetOf(TexCoords)) ])
  }

  /** `Mesh(vertices, indices, textures)`: stores its arguments unchanged and
      then runs `setupMesh` on them. */
  function NewMesh(vertices: seq<Vertex>, indices: seq<nat>, textures: seq<MeshTexture>, vao: nat): (r: (Mesh, MeshSetup))
    ensures r.0.vertices == vertices && r.0.indices == indices && r.0.textures == textures
    ensures r.1 == SetupMesh(r.0.vao, r.0.vertices, r.0.indices)
  {
    (Mesh(vertices, indices, textures, vao), SetupMesh(vao, vertices, indices))
  }

  /** The `Vertex` layout is the one `VertexArray` derives for three
      attributes: widths 3, 3, 2 at the running offsets, with a stride of
      eight floats, so a vertex fills its stride exactly. The element buffer
      is filled only when there are indices. */
  lemma SetupMeshLayout(vao: nat, vertices: seq<Vertex>, indices: seq<nat>)
    ensures var s := SetupMesh(vao, vertices, indices);
      && |s.attributes| == 3
      && SizeOfVertex() == Buffers.FloatSize * Buffers.StrideFloats
      && s.vertexBytes == |vertices| * Buffers.FloatSize * Buffers.StrideFloats
      && (s.elementBytes.Some? <==> |indices| > 0)
      && (s.elementBytes.Some? ==> s.elementBytes.value == 4 * |indices|)
      && forall i :: 0 <= i < 3 ==>
           s.attributes[i] == AttribPointer(i, Buffers.AttributeWidth(i), Buffers.FloatSize * Buffers.StrideFloats,
                                            Buffers.FloatSize * Buffers.FloatOffset(i))
  {
    assert Buffers.FloatOffset(2) == 6;
  }

  // ---------------------------------------------------------------------
  // draw

  const DiffuseKind: string := "texture_diffuse"
  const SpecularKind: string := "texture_specular"

  /** Number of entries of `ts` whose kind is `kind`. */
  function CountKind(ts: seq<MeshTexture>, kind: string): nat
  {
    if |ts| == 0 then 0
    else CountKind(ts[..|ts| - 1], kind) + (if ts[|ts| - 1].kind == kind then 1 else 0)
  }

  /** Reference naming rule: `material.<kind>` followed, for diffuse and
      specular entries, by the 1-based rank of the entry among the entries of
      its kind. */
  function SamplerName(ts: seq<MeshTexture>, i: nat): string
    requires i < |ts|
  {
    var kind := ts[i].kind;
    "material." + kind +
      (if kind == DiffuseKind || kind == SpecularKind then DecimalString(CountKind(ts[..i], kind) + 1) else "")
  }

  /** Unit binding and sampler assignment of the first `n` textures. */
  function TextureBindings(ts: seq<MeshTexture>, n: nat): seq<Call>
    requires n <= |ts|
  {
    if n == 0 then []
    else TextureBindings(ts, n - 1) + [BindTextureUnit(n - 1, ts[n - 1].id), SetSampler(SamplerName(ts, n - 1), n - 1)]
  }

  /** The single draw call for `mesh`. */
  function DrawCall(mesh: Mesh): Call
  {
    if |mesh.indices| > 0 then DrawElements(|mesh.indices|) else DrawArrays(0, |mesh.vertices|)
  }

  /** Reference trace of `Mesh::draw`. */
  function DrawCalls(mesh: Mesh): seq<Call>
  {
    TextureBindings(mesh.textures, |mesh.textures|)
      + [BindVertexArray(mesh.vao), DrawCall(mesh), BindVertexArray(0), BindTextureUnit(0, 0), BindTextureUnit(1, 0)]
  }

  /** `Mesh::draw`: numbers diffuse and specular samplers with two running
      counters, then draws and unbinds. */
  method Draw(mesh: Mesh) returns (calls: seq<Call>)
    ensures calls == DrawCalls(mesh)
  {
    var ts := mesh.textures;
    var diffuseNr: nat := 1;
    var specularNr: nat := 1;
    calls := [];
    var i: nat := 0;
    while i < |ts|
      invariant i <= |ts|
      invariant calls == TextureBindings(ts, i)
      invariant diffuseNr == CountKind(ts[..i], DiffuseKind) + 1
      invariant specularNr == CountKind(ts[..i], SpecularKind) + 1
    {
      var name := ts[i].kind;
      var number: string := "";
      if name == DiffuseKind {
        number := DecimalString(diffuseNr);
        diffuseNr := diffuseNr + 1;
      } else if name == SpecularKind {
        number := DecimalString(specularNr);
        specularNr := specularNr + 1;
      }
      assert ts[..i + 1][..i] == ts[..i];
      calls := calls + [BindTextureUnit(i, ts[i].id), SetSampler("material." + name + number, i)];
      i := i + 1;
    }
    var drawCall := if |mesh.indices| > 0 then DrawElements(|mesh.indices|) else DrawArrays(0, |mesh.vertices|);
    calls := calls + [BindVertexArray(mesh.vao), drawCall, BindVertexArray(0), BindTextureUnit(0, 0), BindTextureUnit(1, 0)];
  }

  lemma {:induction false} TextureBindingsLayout(ts: seq<MeshTexture>, n: nat)
    requires n <= |ts|
    ensures |TextureBindings(ts, n)| == 2 * n
    ensures forall i :: 0 <= i < n ==>
              TextureBindings(ts, n)[2 * i] == BindTextureUnit(i, ts[i].id) &&
              TextureBindings(ts, n)[2 * i + 1] == SetSampler(SamplerName(ts, i), i)
  {
    if n > 0 {
      TextureBindingsLayout(ts, n - 1);
    }
  }

  /** Texture `i` is bound to unit `i` and its sampler uniform is set to `i`;
      then the vertex array is bound, one draw is issued, the array is
      unbound and units 0 and 1 are cleared. */
  lemma DrawCallsLayout(mesh: Mesh)
    ensures var calls := DrawCalls(mesh); var n := |mesh.textures|;
      && |calls| == 2 * n + 5
      && (forall i :: 0 <= i < n ==>
            calls[2 * i] == BindTextureUnit(i, mesh.textures[i].id) &&
            calls[2 * i + 1] == SetSampler(SamplerName(mesh.textures, i), i))
      && calls[2 * n] == BindVertexArray(mesh.vao)
      && calls[2 * n + 2] == BindVertexArray(0)
      && calls[2 * n + 3] == BindTextureUnit(0, 0)
      && calls[2 * n + 4] == BindTextureUnit(1, 0)
  {
    TextureBindingsLayout(mesh.textures, |mesh.textures|);
  }

  /** Binding entry `i` in `Mesh::draw` issues the same call as
      `Texture::bind(i)` on any texture object with that entry's id. */
  lemma DrawBindsAsTextureBind(mesh: Mesh, t: Textures.Texture, i: nat)
    requires i < |mesh.textures| && i < UintRange && mesh.textures[i].id == t.id
    ensures 2 * i < |DrawCalls(mesh)| && DrawCalls(mesh)[2 * i] == Textures.Bind(t, i)
  {
    DrawCallsLayout(mesh);
  }

  /** Exactly one draw is issued: an indexed draw of all indices when there
      are any, otherwise an array draw of all vertices. */
  lemma DrawModeChoice(mesh: Mesh)
    ensures var calls := DrawCalls(mesh);
      && (forall k :: 0 <= k < |calls| && (calls[k].DrawElements? || calls[k].DrawArrays?) ==> k == 2 * |mesh.textures| + 1)
      && ((exists k :: 0 <= k < |calls| && calls[k] == DrawElements(|mesh.indices|)) <==> |mesh.indices| > 0)
      && ((exists k :: 0 <= k < |calls| && calls[k] == DrawArrays(0, |mesh.vertices|)) <==> |mesh.indices| == 0)
  {
    var calls := DrawCalls(mesh);
    var n := |mesh.textures|;
    DrawCallsLayout(mesh);
    assert calls[2 * n + 1] == DrawCall(mesh);
    forall k | 0 <= k < 2 * n
      ensures !(calls[k].DrawElements? || calls[k].DrawArrays?)
    {
      if k % 2 == 0 {
        assert calls[2 * (k / 2)] == BindTextureUnit(k / 2, mesh.textures[k / 2].id);
      } else {
        assert calls[2 * (k / 2) + 1] == SetSampler(SamplerName(mesh.textures, k / 2), k / 2);
      }
    }
  }

  /** Units beyond 1 are never cleared: after `draw`, the last binding of a
      unit `u >= 2` in the trace is still texture `u`. */
  lemma HigherUnitsStayBound(mesh: Mesh, u: nat)
    requires 2 <= u < |mesh.textures|
    ensures var calls := DrawCalls(mesh);
      forall k :: 2 * u < k < |calls| ==> !(calls[k].BindTextureUnit? && calls[k].unit == u)
  {
    var calls := DrawCalls(mesh);
    var n := |mesh.textures|;
    DrawCallsLayout(mesh);
    forall k | 2 * u < k < |calls|
      ensures !(calls[k].BindTextureUnit? && calls[k].unit == u)
    {
      if k < 2 * n {
        if k % 2 == 0 {
          assert calls[2 * (k / 2)] == BindTextureUnit(k / 2, mesh.textures[k / 2].id);
        } else {
          assert calls[2 * (k / 2) + 1] == SetSampler(SamplerName(mesh.textures, k / 2), k / 2);
        }
      }
    }
  }

  lemma {:induction false} CountKindMonotone(ts: seq<MeshTexture>, kind: string, i: nat, j: nat)
    requires i <= j <= |ts|
    ensures CountKind(ts[..i], kind) <= CountKind(ts[..j], kind)
  {
    if i < j {
      CountKindMonotone(ts, kind, i, j - 1);
      assert ts[..j][..j - 1] == ts[..j - 1];
    }
  }

  /** The `k`-th diffuse entry (1-based, in list order) is named
      `material.texture_diffuse<k>`, the `k`-th specular entry
      `material.texture_specular<k>`, each kind with its own counter; any
      other kind is named `material.<kind>` without a number. */
  lemma SamplerNumbering(ts: seq<MeshTexture>, i: nat)
    requires i < |ts|
    ensures ts[i].kind == DiffuseKind ==>
              SamplerName(ts, i) == "material." + DiffuseKind + DecimalString(CountKind(ts[..i + 1], DiffuseKind))
    ensures ts[i].kind == SpecularKind ==>
              SamplerName(ts, i) == "material." + SpecularKind + DecimalString(CountKind(ts[..i + 1], SpecularKind))
    ensures ts[i].kind != DiffuseKind && ts[i].kind != SpecularKind ==>
              SamplerName(ts, i) == "material." + ts[i].kind
  {
    assert ts[..i + 1][..i] == ts[..i];
  }

  /** Two diffuse (or two specular) entries never share a sampler name. */
  lemma SamplerNamesDistinct(ts: seq<MeshTexture>, i: nat, j: nat)
    requires i < j < |ts|
    requires ts[i].kind == ts[j].kind
    requires ts[i].kind == DiffuseKind || ts[i].kind == SpecularKind
    ensures SamplerName(ts, i) != SamplerName(ts, j)
  {
    var kind := ts[i].kind;
    var prefix := "material." + kind;
    CountKindMonotone(ts, kind, i + 1, j);
    assert ts[..i + 1][..i] == ts[..i];
    if SamplerName(ts, i) == SamplerName(ts, j) {
      var a := DecimalString(CountKind(ts[..i], kind) + 1);
      var b := DecimalString(CountKind(ts[..j], kind) + 1);
      assert prefix + a == prefix + b;
      assert a == (prefix + a)[|prefix|..];
      assert b == (prefix + b)[|prefix|..];
      DecimalInjective(CountKind(ts[..i], kind) + 1, CountKind(ts[..j], kind) + 1);
      assert false;
    }
  }
}
