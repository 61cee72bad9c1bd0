/** The fixed vertex layout of renderer/RenderBatch.java: per vertex, a position
    (2 scalars), a colour (4), texture coordinates (2) and a texture slot (1),
    every scalar 4 bytes wide. */
module VertexLayout {

  /** `Float.BYTES` */
  const FLOAT_BYTES: nat := 4

  const POS_SIZE: nat := 2
  const COLOR_SIZE: nat := 4
  const TEX_CORDS_SIZE: nat := 2
  const TEX_ID_SIZE: nat := 1

  /** Byte offsets of the four attributes inside one vertex. */
  const POS_OFFSET: nat := 0
  const COLOR_OFFSET: nat := POS_OFFSET + POS_SIZE * FLOAT_BYTES
  const TEX_CORDS_OFFSET: nat := COLOR_OFFSET + COLOR_SIZE * FLOAT_BYTES
  const TEX_ID_OFFSET: nat := TEX_CORDS_OFFSET + TEX_CORDS_SIZE * FLOAT_BYTES

  /** Scalars per vertex; the source writes the literal rather than the sum. */
  const VERTEX_SIZE: nat := 9
  const VERTEX_SIZE_BYTES: nat := VERTEX_SIZE * FLOAT_BYTES

  /** A sprite is a quad of four vertices, so it occupies 36 scalars. */
  const VERTICES_PER_QUAD: nat := 4
  const QUAD_SIZE: nat := 36

  /** One `glVertexAttribPointer` binding: shader location, component count,
      stride and offset in bytes. */
  datatype VertexAttribute = VertexAttribute(location: nat, size: nat, strideBytes: nat, offsetBytes: nat)

  /** The four attribute bindings `start()` makes, in the order it makes them. */
  const ATTRIBUTES: seq<VertexAttribute> := [
    VertexAttribute(0, POS_SIZE, VERTEX_SIZE_BYTES, POS_OFFSET),
    VertexAttribute(1, COLOR_SIZE, VERTEX_SIZE_BYTES, COLOR_OFFSET),
    VertexAttribute(2, TEX_CORDS_SIZE, VERTEX_SIZE_BYTES, TEX_CORDS_OFFSET),
    VertexAttribute(3, TEX_ID_SIZE, VERTEX_SIZE_BYTES, TEX_ID_OFFSET)
  ]

  /** The layout constants: 9 scalars or 36 bytes per vertex, colour at byte 8,
      texture coordinates at 24, texture slot at 32; the literal vertex size
      agrees with the sum of the attribute sizes, and a quad is 36 scalars. */
  lemma LayoutOffsets()
    ensures POS_OFFSET == 0 && COLOR_OFFSET == 8 && TEX_CORDS_OFFSET == 24 && TEX_ID_OFFSET == 32
    ensures VERTEX_SIZE == POS_SIZE + COLOR_SIZE + TEX_CORDS_SIZE + TEX_ID_SIZE
    ensures VERTEX_SIZE_BYTES == 36
    ensures QUAD_SIZE == VERTICES_PER_QUAD * VERTEX_SIZE
  {
  }

  /** The attributes sit at locations 0..3, share the vertex stride, and tile one
      vertex: each starts where the previous one ends and the last ends at the stride. */
  lemma AttributesTileVertex()
    ensures |ATTRIBUTES| == 4
    ensures forall k :: 0 <= k < |ATTRIBUTES| ==>
      ATTRIBUTES[k].location == k && ATTRIBUTES[k].strideBytes == VERTEX_SIZE_BYTES
    ensures ATTRIBUTES[0].offsetBytes == 0
    ensures forall k :: 0 <= k < |ATTRIBUTES| - 1 ==>
      ATTRIBUTES[k + 1].offsetBytes == ATTRIBUTES[k].offsetBytes + ATTRIBUTES[k].size * FLOAT_BYTES
    ensures ATTRIBUTES[3].offsetBytes + ATTRIBUTES[3].size * FLOAT_BYTES == VERTEX_SIZE_BYTES
  {
  }
}
