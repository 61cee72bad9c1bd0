/** The static index buffer of renderer/RenderBatch.java (`generateIndices`,
    `loadElementIndices`): two triangles per quad over its four vertices. */
module ElementIndices {
  import opened Sprites
  import opened SpriteRenderers
  import opened VertexLayout
  import opened QuadEncoder

  /** Indices per quad (two triangles of three). */
  const INDICES_PER_QUAD: nat := 6

  /** The winding of one quad, relative to its first vertex. */
  const PATTERN: seq<nat> := [3, 2, 0, 0, 2, 1]

  /** The six indices of quad i. */
  function QuadIndices(i: nat): (r: seq<int>)
    ensures |r| == INDICES_PER_QUAD
  {
    [4 * i + 3, 4 * i + 2, 4 * i, 4 * i, 4 * i + 2, 4 * i + 1]
  }

  /** The index buffer of a batch of capacity n: the quads in slot order. */
  function Indices(n: nat): (r: seq<int>)
    ensures |r| == INDICES_PER_QUAD * n
  {
    if n == 0 then [] else Indices(n - 1) + QuadIndices(n - 1)
  }

  /** Quad i occupies entries [6i, 6i+6), holding 4i + [3,2,0,0,2,1]. */
  lemma {:induction false} IndicesAt(n: nat, i: nat, t: nat)
    requires i < n && t < INDICES_PER_QUAD
    ensures Indices(n)[INDICES_PER_QUAD * i + t] == VERTICES_PER_QUAD * i + PATTERN[t]
  {
    if i < n - 1 {
      IndicesAt(n - 1, i, t);
    }
  }

  /** Every index names a vertex of the batch: 0 <= index < 4n. */
  lemma IndicesBounded(n: nat)
    ensures forall k :: 0 <= k < |Indices(n)| ==> 0 <= Indices(n)[k] < VERTICES_PER_QUAD * n
  {
    forall k | 0 <= k < |Indices(n)| ensures 0 <= Indices(n)[k] < VERTICES_PER_QUAD * n {
      var i, t := k / INDICES_PER_QUAD, k % INDICES_PER_QUAD;
      assert k == INDICES_PER_QUAD * i + t;
      IndicesAt(n, i, t);
    }
  }

  /** The buffer of a two-sprite batch. */
  lemma IndicesCapacityTwo()
    ensures Indices(2) == [3, 2, 0, 0, 2, 1, 7, 6, 4, 4, 6, 5]
  {
  }

  /** Twice the signed area of triangle (a, b, c); positive when counter-clockwise. */
  function Area2(a: Vec2, b: Vec2, c: Vec2): real
  {
    (b.x - a.x) * (c.y - a.y) - (c.x - a.x) * (b.y - a.y)
  }

  /** The position the encoder writes for corner c of a quad. */
  function CornerPosition(q: seq<real>, c: nat): Vec2
    requires |q| == QUAD_SIZE && c < VERTICES_PER_QUAD
  {
    Vec2(q[VERTEX_SIZE * c], q[VERTEX_SIZE * c + 1])
  }

  /** The two triangles of the winding share exactly corners 0 and 2; corner 3
      belongs to the first triangle alone and corner 1 to the second alone. */
  ghost predicate WindingSharesDiagonal()
  {
    (forall c :: (c in PATTERN[..3] && c in PATTERN[3..]) <==> (c == 0 || c == 2)) &&
    (forall c :: (c in PATTERN[..3] && c !in PATTERN[3..]) <==> c == 3) &&
    (forall c :: (c !in PATTERN[..3] && c in PATTERN[3..]) <==> c == 1)
  }

  lemma WindingDiagonal()
    ensures WindingSharesDiagonal()
  {
    assert PATTERN[..3] == [3, 2, 0] && PATTERN[3..] == [0, 2, 1];
  }

  /** The four corner positions the encoder writes: the sprite's rectangle,
      from the corner at position + scale round to the one at position.y + scale.y. */
  lemma CornerPositions(spr: SpriteRenderer, texId: nat)
    requires spr.WellFormed()
    ensures var q, P, S := EncodeQuad(spr, texId), spr.position, spr.scale;
      CornerPosition(q, 0) == Vec2(P.x + S.x, P.y + S.y) &&
      CornerPosition(q, 1) == Vec2(P.x + S.x, P.y) &&
      CornerPosition(q, 2) == Vec2(P.x, P.y) &&
      CornerPosition(q, 3) == Vec2(P.x, P.y + S.y)
  {
    LayoutOffsets();
    EncodePosition(spr, texId, 0);
    EncodePosition(spr, texId, 1);
    EncodePosition(spr, texId, 2);
    EncodePosition(spr, texId, 3);
  }

  /** Twice the signed area of the triangle with legs (a, b) and (c, d) from its first corner. */
  lemma Area2Legs(o: Vec2, a: real, b: real, c: real, d: real)
    ensures Area2(o, Vec2(o.x + a, o.y + b), Vec2(o.x + c, o.y + d)) == a * d - c * b
  {
  }

  /** The index winding and the encoder's corner order fit together. Both
      triangles of a quad have signed area scale.x * scale.y / 2, so for a sprite
      of positive scale both are counter-clockwise. They share exactly the
      diagonal from corner 0 to corner 2, and their remaining corners 3 and 1 lie
      on opposite sides of it, so together they cover the sprite's rectangle. */
  lemma QuadTrianglesCoverSprite(spr: SpriteRenderer, texId: nat)
    requires spr.WellFormed()
    ensures var q := EncodeQuad(spr, texId);
      forall tri :: 0 <= tri < 2 ==>
        Area2(CornerPosition(q, PATTERN[3 * tri]), CornerPosition(q, PATTERN[3 * tri + 1]),
              CornerPosition(q, PATTERN[3 * tri + 2]))
        == spr.scale.x * spr.scale.y
    ensures WindingSharesDiagonal()
    ensures var q := EncodeQuad(spr, texId);
      Area2(CornerPosition(q, 2), CornerPosition(q, 0), CornerPosition(q, 3)) == spr.scale.x * spr.scale.y &&
      Area2(CornerPosition(q, 2), CornerPosition(q, 0), CornerPosition(q, 1)) == -(spr.scale.x * spr.scale.y)
  {
    var q := EncodeQuad(spr, texId);
    var P, S := spr.position, spr.scale;
    var c0, c1, c2, c3 := Vec2(P.x + S.x, P.y + S.y), Vec2(P.x + S.x, P.y), Vec2(P.x, P.y), Vec2(P.x, P.y + S.y);
    CornerPositions(spr, texId);
    WindingDiagonal();
    // triangle 0 is (3, 2, 0), triangle 1 is (0, 2, 1)
    Area2Legs(c3, 0.0, -S.y, S.x, 0.0);
    assert Area2(c3, c2, c0) == S.x * S.y;
    Area2Legs(c0, -S.x, -S.y, 0.0, -S.y);
    assert Area2(c0, c2, c1) == S.x * S.y;
    Area2Legs(c2, S.x, S.y, 0.0, S.y);
    Area2Legs(c2, S.x, S.y, S.x, 0.0);
  }
}
