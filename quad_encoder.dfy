/** The quad encoder of renderer/RenderBatch.java (`loadVertexProperties`): the
    36 scalars a sprite occupies in the batch's vertex buffer, as a function of
    the sprite and the texture slot it resolves to. */
module QuadEncoder {
  import opened Sprites
  import opened SpriteRenderers
  import opened VertexLayout
  import opened TextureSlots

  /** The offset of corner k within the unit square: (1,1), (1,0), (0,0), (0,1). */
  function Corner(k: nat): Vec2
    requires k < VERTICES_PER_QUAD
  {
    if k == 0 then Vec2(1.0, 1.0)
    else if k == 1 then Vec2(1.0, 0.0)
    else if k == 2 then Vec2(0.0, 0.0)
    else Vec2(0.0, 1.0)
  }

  /** Vertex k of a sprite's quad: corner position, colour, k-th texture
      coordinate and texture slot. */
  function Vertex(spr: SpriteRenderer, k: nat, texId: nat): (v: seq<real>)
    requires spr.WellFormed() && k < VERTICES_PER_QUAD
    ensures |v| == VERTEX_SIZE
  {
    seq(VERTEX_SIZE, m requires 0 <= m < VERTEX_SIZE => VertexField(spr, k, texId, m))
  }

  /** Scalar m of vertex k: x, y, r, g, b, a, u, v, slot. */
  function VertexField(spr: SpriteRenderer, k: nat, texId: nat, m: nat): real
    requires spr.WellFormed() && k < VERTICES_PER_QUAD && m < VERTEX_SIZE
  {
    var c := Corner(k);
    if m == 0 then spr.position.x + c.x * spr.scale.x
    else if m == 1 then spr.position.y + c.y * spr.scale.y
    else if m == 2 then spr.color.x
    else if m == 3 then spr.color.y
    else if m == 4 then spr.color.z
    else if m == 5 then spr.color.w
    else if m == 6 then spr.texCords[k].x
    else if m == 7 then spr.texCords[k].y
    else texId as real
  }

  /** Vertex k spelled out for a corner offset (dx, dy), as the encoder's
      running xAdd / yAdd hold it. */
  lemma VertexFields(spr: SpriteRenderer, k: nat, texId: nat, dx: real, dy: real)
    requires spr.WellFormed() && k < VERTICES_PER_QUAD && Vec2(dx, dy) == Corner(k)
    ensures Vertex(spr, k, texId) ==
      [spr.position.x + dx * spr.scale.x, spr.position.y + dy * spr.scale.y,
       spr.color.x, spr.color.y, spr.color.z, spr.color.w,
       spr.texCords[k].x, spr.texCords[k].y, texId as real]
  {
    var v := Vertex(spr, k, texId);
    var w := [spr.position.x + dx * spr.scale.x, spr.position.y + dy * spr.scale.y,
              spr.color.x, spr.color.y, spr.color.z, spr.color.w,
              spr.texCords[k].x, spr.texCords[k].y, texId as real];
    forall m | 0 <= m < VERTEX_SIZE ensures v[m] == w[m] {
      assert v[m] == VertexField(spr, k, texId, m);
    }
  }

  /** The four vertices of a sprite's quad, in corner order. */
  function EncodeQuad(spr: SpriteRenderer, texId: nat): (q: seq<real>)
    requires spr.WellFormed()
    ensures |q| == QUAD_SIZE
  {
    Vertex(spr, 0, texId) + Vertex(spr, 1, texId) + Vertex(spr, 2, texId) + Vertex(spr, 3, texId)
  }

  /** The quad of a sprite whose texture is resolved against a texture list. */
  function Quad(spr: SpriteRenderer, textures: seq<TexId>): (q: seq<real>)
    requires spr.WellFormed()
    ensures |q| == QUAD_SIZE
  {
    EncodeQuad(spr, SlotOf(textures, spr.texture))
  }

  /** The 36 scalars of sprite slot i in a vertex buffer. */
  function Block(buf: seq<real>, i: nat): seq<real>
    requires QUAD_SIZE * i + QUAD_SIZE <= |buf|
  {
    buf[QUAD_SIZE * i .. QUAD_SIZE * i + QUAD_SIZE]
  }

  /** The buffer with sprite slot i overwritten by the quad q. */
  function Splice(buf: seq<real>, i: nat, q: seq<real>): (r: seq<real>)
    requires |q| == QUAD_SIZE && QUAD_SIZE * i + QUAD_SIZE <= |buf|
    ensures |r| == |buf|
  {
    buf[..QUAD_SIZE * i] + q + buf[QUAD_SIZE * i + QUAD_SIZE..]
  }

  /** Splicing writes exactly the entries [36i, 36i+36) and leaves every other
      entry of the buffer unchanged. */
  lemma SpliceAt(buf: seq<real>, i: nat, q: seq<real>, j: nat)
    requires |q| == QUAD_SIZE && QUAD_SIZE * i + QUAD_SIZE <= |buf| && j < |buf|
    ensures Splice(buf, i, q)[j] ==
      if QUAD_SIZE * i <= j < QUAD_SIZE * i + QUAD_SIZE then q[j - QUAD_SIZE * i] else buf[j]
  {
  }

  /** Blockwise: slot i holds q afterwards, every other slot is as before. */
  lemma SpliceBlock(buf: seq<real>, i: nat, q: seq<real>, j: nat)
    requires |q| == QUAD_SIZE && QUAD_SIZE * i + QUAD_SIZE <= |buf| && QUAD_SIZE * j + QUAD_SIZE <= |buf|
    ensures Block(Splice(buf, i, q), j) == if j == i then q else Block(buf, j)
  {
    var r := Splice(buf, i, q);
    forall m | 0 <= m < QUAD_SIZE
      ensures Block(r, j)[m] == (if j == i then q else Block(buf, j))[m]
    {
      SpliceAt(buf, i, q, QUAD_SIZE * j + m);
    }
  }

  /** The buffer once the first n vertices of quad q are written into slot i. */
  function PartlyWritten(buf: seq<real>, i: nat, q: seq<real>, n: nat): (r: seq<real>)
    requires |q| == QUAD_SIZE && n <= VERTICES_PER_QUAD && QUAD_SIZE * i + QUAD_SIZE <= |buf|
    ensures |r| == |buf|
    ensures n == 0 ==> r == buf
    ensures n == VERTICES_PER_QUAD ==> r == Splice(buf, i, q)
  {
    assert q[..QUAD_SIZE] == q;
    buf[..QUAD_SIZE * i] + q[..VERTEX_SIZE * n] + buf[QUAD_SIZE * i + VERTEX_SIZE * n..]
  }

  /** Writing vertex n of a sprite's quad over the partly written buffer
      advances it by one vertex. */
  lemma PartlyWrittenStep(buf: seq<real>, i: nat, spr: SpriteRenderer, texId: nat, n: nat,
                          pre: seq<real>, post: seq<real>, o: nat, v: seq<real>)
    requires spr.WellFormed() && n < VERTICES_PER_QUAD && QUAD_SIZE * i + QUAD_SIZE <= |buf|
    requires pre == PartlyWritten(buf, i, EncodeQuad(spr, texId), n) && |post| == |pre|
    requires o == QUAD_SIZE * i + VERTEX_SIZE * n && v == Vertex(spr, n, texId)
    requires forall j :: 0 <= j < |pre| ==> post[j] == if o <= j < o + VERTEX_SIZE then v[j - o] else pre[j]
    ensures post == PartlyWritten(buf, i, EncodeQuad(spr, texId), n + 1)
  {
    var q := EncodeQuad(spr, texId);
    var r := PartlyWritten(buf, i, q, n + 1);
    var base := QUAD_SIZE * i;
    forall j | 0 <= j < |post| ensures post[j] == r[j] {
      if base + VERTEX_SIZE * n <= j < base + VERTEX_SIZE * n + VERTEX_SIZE {
        EncodeQuadAt(spr, texId, n, j - base - VERTEX_SIZE * n);
      }
    }
  }

  /** Scalar m of vertex k sits at offset 9k + m of the quad. */
  lemma EncodeQuadAt(spr: SpriteRenderer, texId: nat, k: nat, m: nat)
    requires spr.WellFormed() && k < VERTICES_PER_QUAD && m < VERTEX_SIZE
    ensures EncodeQuad(spr, texId)[VERTEX_SIZE * k + m] == Vertex(spr, k, texId)[m]
  {
    var v0, v1, v2, v3 := Vertex(spr, 0, texId), Vertex(spr, 1, texId), Vertex(spr, 2, texId), Vertex(spr, 3, texId);
    var q := EncodeQuad(spr, texId);
    assert q == ((v0 + v1) + v2) + v3;
    if k == 0 {
      assert q[m] == v0[m];
    } else if k == 1 {
      assert q[VERTEX_SIZE + m] == v1[m];
    } else if k == 2 {
      assert q[2 * VERTEX_SIZE + m] == v2[m];
    } else {
      assert q[3 * VERTEX_SIZE + m] == v3[m];
    }
  }

  /** The position the encoder writes for corner k, read at the position
      attribute's byte offset: the sprite's position plus the corner offset
      scaled by the sprite's scale. */
  lemma EncodePosition(spr: SpriteRenderer, texId: nat, k: nat)
    requires spr.WellFormed() && k < VERTICES_PER_QUAD
    ensures var q, base := EncodeQuad(spr, texId), VERTEX_SIZE * k + POS_OFFSET / FLOAT_BYTES;
      q[base] == spr.position.x + Corner(k).x * spr.scale.x &&
      q[base + 1] == spr.position.y + Corner(k).y * spr.scale.y
  {
    LayoutOffsets();
    EncodeQuadAt(spr, texId, k, 0);
    EncodeQuadAt(spr, texId, k, 1);
  }

  /** The colour the encoder writes, read at the colour attribute's byte
      offset: the same RGBA on every corner. */
  lemma EncodeColor(spr: SpriteRenderer, texId: nat, k: nat)
    requires spr.WellFormed() && k < VERTICES_PER_QUAD
    ensures var q, base := EncodeQuad(spr, texId), VERTEX_SIZE * k + COLOR_OFFSET / FLOAT_BYTES;
      q[base] == spr.color.x && q[base + 1] == spr.color.y &&
      q[base + 2] == spr.color.z && q[base + 3] == spr.color.w
  {
    LayoutOffsets();
    EncodeQuadAt(spr, texId, k, 2);
    EncodeQuadAt(spr, texId, k, 3);
    EncodeQuadAt(spr, texId, k, 4);
    EncodeQuadAt(spr, texId, k, 5);
  }

  /** The texture data the encoder writes for corner k, read at the byte
      offsets of the tex-coord and tex-id attributes: the k-th texture
      coordinate and the texture slot. */
  lemma EncodeTexture(spr: SpriteRenderer, texId: nat, k: nat)
    requires spr.WellFormed() && k < VERTICES_PER_QUAD
    ensures var q, base := EncodeQuad(spr, texId), VERTEX_SIZE * k;
      q[base + TEX_CORDS_OFFSET / FLOAT_BYTES] == spr.texCords[k].x &&
      q[base + TEX_CORDS_OFFSET / FLOAT_BYTES + 1] == spr.texCords[k].y &&
      q[base + TEX_ID_OFFSET / FLOAT_BYTES] == texId as real
  {
    LayoutOffsets();
    EncodeQuadAt(spr, texId, k, 6);
    EncodeQuadAt(spr, texId, k, 7);
    EncodeQuadAt(spr, texId, k, 8);
  }

  /** Vertex k occupies scalars [9k, 9k+9) of the quad. */
  lemma QuadVertexSlice(spr: SpriteRenderer, texId: nat, k: nat)
    requires spr.WellFormed() && k < VERTICES_PER_QUAD
    ensures EncodeQuad(spr, texId)[VERTEX_SIZE * k .. VERTEX_SIZE * k + VERTEX_SIZE] == Vertex(spr, k, texId)
  {
    var q, b, v := EncodeQuad(spr, texId), VERTEX_SIZE * k, Vertex(spr, k, texId);
    forall m | 0 <= m < VERTEX_SIZE ensures q[b + m] == v[m] {
      EncodeQuadAt(spr, texId, k, m);
    }
  }

  /** The sprite's default texture coordinates are the corner offsets in the
      encoder's corner order, so with them every corner k gets the tex-coord
      (dx_k, dy_k). */
  lemma DefaultTexCordsFollowCorners(spr: SpriteRenderer, texId: nat)
    requires spr.texCords == DefaultTexCords()
    ensures forall k :: 0 <= k < VERTICES_PER_QUAD ==> DefaultTexCords()[k] == Corner(k)
    ensures forall k :: 0 <= k < VERTICES_PER_QUAD ==>
      EncodeQuad(spr, texId)[VERTEX_SIZE * k + 6] == Corner(k).x &&
      EncodeQuad(spr, texId)[VERTEX_SIZE * k + 7] == Corner(k).y
  {
    forall k | 0 <= k < VERTICES_PER_QUAD
      ensures EncodeQuad(spr, texId)[VERTEX_SIZE * k + 6] == Corner(k).x
      ensures EncodeQuad(spr, texId)[VERTEX_SIZE * k + 7] == Corner(k).y
    {
      EncodeQuadAt(spr, texId, k, 6);
      EncodeQuadAt(spr, texId, k, 7);
    }
  }
}
