/** `Buffer` and `VertexArray` (Buffers.h / Buffers.cpp): a vertex buffer that
    remembers how many attributes each vertex carries, and a vertex array
    object whose attribute formats are laid out from that count. Every
    attribute is three floats wide except the texture-coordinate slot at
    index 2, which is two floats; vertices are interleaved with a fixed
    stride of eight floats. */
module Buffers {

  const FloatSize: nat := 4        // sizeof(float)
  const TexDataSize: nat := 2      // width of the texture-coordinate attribute
  const OtherDataSize: nat := 3    // width of every other attribute
  const TexIndex: nat := 2         // index of the texture-coordinate attribute
  const StrideFloats: nat := 8     // floats per interleaved vertex

  /** `Buffer(data, amount, componentCount)`: a GL buffer object filled with
      `amount` bytes, tagged with the number of attributes per vertex. */
  datatype Buffer = Buffer(id: nat, sizeBytes: nat, componentCount: nat)

  /** The single vertex-buffer binding point of the array. */
  datatype VertexBufferBinding = VertexBufferBinding(bindingIndex: nat, buffer: nat, offset: nat, strideBytes: nat)

  /** One enabled attribute: `glVertexArrayAttribFormat(vao, index, size,
      GL_FLOAT, GL_FALSE, relativeOffset)` followed by
      `glVertexArrayAttribBinding(vao, index, binding)`. */
  datatype Attribute = Attribute(index: nat, size: nat, relativeOffset: nat, binding: nat)

  datatype VertexArray = VertexArray(id: nat, binding: VertexBufferBinding, attributes: seq<Attribute>)

  /** Width in floats of attribute `index`. */
  function AttributeWidth(index: nat): nat
  {
    if index == TexIndex then TexDataSize else OtherDataSize
  }

  /** Reference layout: attribute `index` starts after the widths of all
      attributes before it, in floats. */
  function FloatOffset(index: nat): nat
  {
    if index == 0 then 0 else FloatOffset(index - 1) + AttributeWidth(index - 1)
  }

  /** Reference attribute `index`: its width, its byte offset after all
      earlier attributes, sourced from binding point 0. */
  function AttributeAt(index: nat): Attribute
  {
    Attribute(index, AttributeWidth(index), FloatSize * FloatOffset(index), 0)
  }

  /** `VertexArray(buffer)`: binds `buffer` at binding point 0 with a stride of
      eight floats, then enables and formats one attribute per component,
      each at the running float offset, all sourced from binding point 0. */
  method NewVertexArray(id: nat, buffer: Buffer) returns (vao: VertexArray)
    ensures vao.id == id
    ensures vao.binding == VertexBufferBinding(0, buffer.id, 0, FloatSize * StrideFloats)
    ensures |vao.attributes| == buffer.componentCount
    ensures forall i :: 0 <= i < |vao.attributes| ==> vao.attributes[i] == AttributeAt(i)
  {
    var attributes: seq<Attribute> := [];
    var offset: nat := 0;
    var index: nat := 0;
    while index < buffer.componentCount
      invariant index <= buffer.componentCount
      invariant |attributes| == index
      invariant offset == FloatOffset(index)
      invariant forall i :: 0 <= i < index ==> attributes[i] == AttributeAt(i)
    {
      var dataSize := if index == TexIndex then TexDataSize else OtherDataSize;
      assert Attribute(index, dataSize, offset * FloatSize, 0) == AttributeAt(index);
      attributes := attributes + [Attribute(index, dataSize, offset * FloatSize, 0)];
      offset := offset + dataSize;
      index := index + 1;
    }
    vao := VertexArray(id, VertexBufferBinding(0, buffer.id, 0, FloatSize * StrideFloats), attributes);
  }

  /** The texture-coordinate slot is the only two-float attribute. */
  lemma AttributeWidthRule(index: nat)
    ensures AttributeWidth(index) == 2 <==> index == TexIndex
    ensures AttributeWidth(index) == 2 || AttributeWidth(index) == 3
  {
  }

  /** Closed form of the running offset: three floats per attribute, one
      less once the two-float slot has been passed. */
  lemma {:induction false} FloatOffsetClosedForm(index: nat)
    ensures FloatOffset(index) == 3 * index - (if index > TexIndex then 1 else 0)
  {
    if index > 0 {
      FloatOffsetClosedForm(index - 1);
    }
  }

  /** Offsets strictly increase with the attribute index. */
  lemma {:induction false} FloatOffsetIncreasing(i: nat, j: nat)
    requires i < j
    ensures FloatOffset(i) < FloatOffset(j)
  {
    if i + 1 < j {
      FloatOffsetIncreasing(i, j - 1);
    }
  }

  /** With at most three attributes the last one ends inside the eight-float
      stride, and with exactly three it ends on it. */
  lemma {:induction false} LayoutFitsStride(componentCount: nat)
    requires 0 < componentCount <= 3
    ensures FloatOffset(componentCount - 1) + AttributeWidth(componentCount - 1) <= StrideFloats
    ensures componentCount == 3 ==>
              FloatOffset(componentCount - 1) + AttributeWidth(componentCount - 1) == StrideFloats
  {
    FloatOffsetClosedForm(componentCount - 1);
  }

  /** A fourth attribute would overrun the fixed stride: the stride does not
      follow the component count. */
  lemma FourthAttributeOverrunsStride()
    ensures FloatOffset(3) + AttributeWidth(3) > StrideFloats
  {
    FloatOffsetClosedForm(3);
  }
}
