/** renderer/RenderBatch.java: a fixed-capacity batch of sprite slots sharing one
    texture list, one vertex buffer and one static index buffer. */
module RenderBatches {
  import opened Sprites
  import opened SpriteRenderers
  import opened VertexLayout
  import opened TextureSlots
  import opened QuadEncoder
  import opened ElementIndices
  import opened DirtyResync

  /** The sprites held in a run of non-null slots. */
  function Values(s: seq<Option<SpriteRenderer>>): (r: seq<SpriteRenderer>)
    requires forall i :: 0 <= i < |s| ==> s[i].Some?
    ensures |r| == |s| && forall i :: 0 <= i < |s| ==> s[i] == Some(r[i])
  {
    seq(|s|, i requires 0 <= i < |s| && s[i].Some? => s[i].value)
  }

  /** A sprite's texture, if any, is in the batch's list. */
  predicate Registered(spr: SpriteRenderer, textures: seq<TexId>)
  {
    spr.texture.Some? ==> spr.texture.value in textures
  }

  /** The batch invariant, on values: the held sprites fit the buffer, the
      texture list is duplicate-free and holds every held sprite's texture, and
      the slot of every clean sprite holds that sprite's current encoding. */
  ghost predicate Consistent(held: seq<SpriteRenderer>, textures: seq<TexId>, buf: seq<real>)
  {
    QUAD_SIZE * |held| <= |buf| &&
    NoDup(textures) &&
    AllWellFormed(held) &&
    (forall i :: 0 <= i < |held| ==> Registered(held[i], textures)) &&
    (forall i :: 0 <= i < |held| && !held[i].dirty ==> Block(buf, i) == Quad(held[i], textures))
  }

  /** Every held sprite's slot holds its encoding, dirty or not. */
  ghost predicate Encoded(held: seq<SpriteRenderer>, textures: seq<TexId>, buf: seq<real>)
    requires QUAD_SIZE * |held| <= |buf| && AllWellFormed(held)
  {
    forall i :: 0 <= i < |held| ==> Block(buf, i) == Quad(held[i], textures)
  }

  /** Adding a sprite (register its texture, then encode it into the next slot)
      keeps the batch invariant, leaves the new slot holding the sprite's
      encoding, and keeps a fully encoded buffer fully encoded: registering a
      texture never changes the slot an earlier sprite was encoded with. */
  lemma AddKeepsConsistent(held: seq<SpriteRenderer>, textures: seq<TexId>, buf: seq<real>, spr: SpriteRenderer)
    requires Consistent(held, textures, buf) && spr.WellFormed()
    requires QUAD_SIZE * (|held| + 1) <= |buf|
    ensures var t := Register(textures, spr.texture);
      var b := Splice(buf, |held|, Quad(spr, t));
      Consistent(held + [spr], t, b) &&
      Block(b, |held|) == Quad(spr, t) &&
      (Encoded(held, textures, buf) ==> Encoded(held + [spr], t, b))
  {
    var t := Register(textures, spr.texture);
    var q := Quad(spr, t);
    var b := Splice(buf, |held|, q);
    var held' := held + [spr];
    RegisterProperties(textures, spr.texture);
    SpliceBlock(buf, |held|, q, |held|);
    forall i | 0 <= i < |held|
      ensures Block(b, i) == Block(buf, i)
      ensures Quad(held[i], t) == Quad(held[i], textures)
      ensures Registered(held[i], t)
    {
      AddKeepsEarlier(held, textures, buf, spr, i);
    }
    assert forall i :: 0 <= i < |held| ==> held'[i] == held[i];
    assert held'[|held|] == spr;
  }

  /** An earlier sprite keeps its slot's contents, its encoding and its
      registration when another sprite is added. */
  lemma AddKeepsEarlier(held: seq<SpriteRenderer>, textures: seq<TexId>, buf: seq<real>, spr: SpriteRenderer, i: nat)
    requires Consistent(held, textures, buf) && spr.WellFormed()
    requires QUAD_SIZE * (|held| + 1) <= |buf| && i < |held|
    ensures var t := Register(textures, spr.texture);
      Block(Splice(buf, |held|, Quad(spr, t)), i) == Block(buf, i) &&
      Quad(held[i], t) == Quad(held[i], textures) &&
      Registered(held[i], t)
  {
    var t := Register(textures, spr.texture);
    RegisterProperties(textures, spr.texture);
    SpliceBlock(buf, |held|, Quad(spr, t), i);
    SlotOfRegisterStable(textures, spr.texture, held[i].texture);
  }

  /** A re-sync keeps the batch invariant, marks every sprite clean, and leaves
      every held sprite's slot holding its encoding. */
  lemma ResyncKeepsConsistent(held: seq<SpriteRenderer>, textures: seq<TexId>, buf: seq<real>)
    requires Consistent(held, textures, buf)
    ensures var b := Resync(buf, held, textures);
      |b| == |buf| &&
      Consistent(CleanAll(held), textures, b) &&
      Encoded(CleanAll(held), textures, b)
  {
    var b := Resync(buf, held, textures);
    ResyncSlices(buf, held, textures);
    CleanAllKeepsSprites(held);
  }

  /** The texture-room test bounds the slot of the next registration by eight. */
  lemma TextureRoomBoundsSlot(textures: seq<TexId>)
    ensures TextureRoom(textures) ==>
      forall t :: SlotOf(Register(textures, Some(t)), Some(t)) <= MAX_TEXTURES
  {
    forall t ensures SlotOf(Register(textures, Some(t)), Some(t)) <= |Register(textures, Some(t))| {
      SlotOfRange(Register(textures, Some(t)), Some(t));
    }
  }

  /** With texture i bound to unit i + 1, a listed texture's slot is the unit
      it is bound to. */
  lemma BoundSlot(textures: seq<TexId>, bindings: seq<(int, TexId)>, tex: TexId)
    requires |bindings| == |textures|
    requires forall i :: 0 <= i < |textures| ==> bindings[i] == (i + 1, textures[i])
    requires tex in textures
    ensures var s := SlotOf(textures, Some(tex));
      1 <= s <= |bindings| && bindings[s - 1] == (s, tex)
  {
    SlotOfRange(textures, Some(tex));
  }

  class RenderBatch {
    const maxBatchSize: nat
    const zIndex: int
    /** Sprite slots in insertion order; `None` is an empty (null) slot. */
    const sprites: array<Option<SpriteRenderer>>
    /** The vertex scratch buffer: 36 scalars per sprite slot. */
    const vertices: array<real>
    var numSprites: nat
    var hasRoom: bool
    var textures: seq<TexId>

    /** Array sizes, and the first `numSprites` slots are exactly the filled ones. */
    ghost predicate Shaped()
      reads this`numSprites, sprites
    {
      sprites.Length == maxBatchSize &&
      vertices.Length == QUAD_SIZE * maxBatchSize &&
      numSprites <= maxBatchSize &&
      forall i :: 0 <= i < sprites.Length ==> (sprites[i].Some? <==> i < numSprites)
    }

    /** The held sprites, in slot order. */
    ghost function Held(): (h: seq<SpriteRenderer>)
      reads this`numSprites, sprites
      requires Shaped()
      ensures |h| == numSprites
    {
      Values(sprites[..numSprites])
    }

    /** `hasRoom` is latched false by the insertion that fills the batch; a
        batch of capacity 0 never has an insertion, so its flag stays true. */
    ghost predicate Valid()
      reads this, sprites, vertices
    {
      Shaped() &&
      (hasRoom <==> numSprites < maxBatchSize || maxBatchSize == 0) &&
      Consistent(Held(), textures, vertices[..])
    }

    ghost predicate AllEncoded()
      reads this, sprites, vertices
      requires Valid()
    {
      Encoded(Held(), textures, vertices[..])
    }

    /** `new RenderBatch(maxBatchSize, zIndex)`: no sprites, room, no textures,
        and a zeroed buffer of maxBatchSize * 4 * 9 scalars. */
    constructor (maxBatchSize: nat, zIndex: int)
      ensures Valid() && AllEncoded()
      ensures this.maxBatchSize == maxBatchSize && this.zIndex == zIndex
      ensures numSprites == 0 && hasRoom && textures == [] && Held() == []
      ensures vertices.Length == maxBatchSize * VERTICES_PER_QUAD * VERTEX_SIZE
      ensures forall j :: 0 <= j < vertices.Length ==> vertices[j] == 0.0
      ensures fresh(sprites) && fresh(vertices)
    {
      this.zIndex := zIndex;
      this.sprites := new Option<SpriteRenderer>[maxBatchSize](_ => None);
      this.maxBatchSize := maxBatchSize;
      this.vertices := new real[maxBatchSize * VERTICES_PER_QUAD * VERTEX_SIZE](_ => 0.0);
      this.numSprites := 0;
      this.hasRoom := true;
      this.textures := [];
    }

    /** `start()`, observable part: the size of the vertex store it allocates
        (in bytes), the static index buffer it uploads and the vertex attribute
        bindings it makes. */
    method Start() returns (vertexBytes: nat, indices: array<int>, attributes: seq<VertexAttribute>)
      requires Valid()
      ensures vertexBytes == maxBatchSize * VERTICES_PER_QUAD * VERTEX_SIZE_BYTES
      ensures fresh(indices) && indices.Length == INDICES_PER_QUAD * maxBatchSize
      ensures indices[..] == Indices(maxBatchSize)
      ensures attributes == ATTRIBUTES
    {
      vertexBytes := vertices.Length * FLOAT_BYTES;
      indices := GenerateIndices();
      attributes := ATTRIBUTES;
    }

    /** `addSprite(spr)`. When the batch is full the slot store fails before
        anything changes (`ok` is false). Otherwise the sprite takes the next
        slot, its texture is registered, its quad is encoded into its slot and
        only there, and `hasRoom` tells whether another slot is left. */
    method AddSprite(spr: SpriteRenderer) returns (ok: bool)
      requires Valid() && spr.WellFormed()
      modifies this, sprites, vertices
      ensures Valid()
      ensures ok <==> old(numSprites) < maxBatchSize
      ensures ok ==>
        numSprites == old(numSprites) + 1 &&
        Held() == old(Held()) + [spr] &&
        textures == Register(old(textures), spr.texture) &&
        vertices[..] == Splice(old(vertices[..]), old(numSprites), Quad(spr, textures)) &&
        (hasRoom <==> numSprites < maxBatchSize)
      ensures !ok ==>
        numSprites == old(numSprites) && hasRoom == old(hasRoom) && textures == old(textures) &&
        sprites[..] == old(sprites[..]) && vertices[..] == old(vertices[..])
      ensures old(AllEncoded()) ==> AllEncoded()
    {
      if numSprites >= sprites.Length {
        return false;
      }
      Append(spr);
      ok := true;
    }

    /** `addSprite(spr)` on a batch with a free slot. */
    method Append(spr: SpriteRenderer)
      requires Valid() && spr.WellFormed() && numSprites < maxBatchSize
      modifies this, sprites, vertices
      ensures Valid()
      ensures numSprites == old(numSprites) + 1
      ensures Held() == old(Held()) + [spr]
      ensures textures == Register(old(textures), spr.texture)
      ensures vertices[..] == Splice(old(vertices[..]), old(numSprites), Quad(spr, textures))
      ensures hasRoom <==> numSprites < maxBatchSize
      ensures old(AllEncoded()) ==> AllEncoded()
    {
      var index := numSprites;
      ghost var held0, textures0, buf0 := Held(), textures, vertices[..];
      StoreSprite(spr);
      RegisterTexture(spr.texture);
      LoadVertexProperties(index);

      if numSprites >= maxBatchSize {
        hasRoom := false;
      }
      AddedConsistent(held0, textures0, buf0, spr);
    }

    /** The slot store of `addSprite`: the sprite goes into the first free slot. */
    method StoreSprite(spr: SpriteRenderer)
      requires Shaped() && numSprites < maxBatchSize
      modifies this`numSprites, sprites
      ensures Shaped() && numSprites == old(numSprites) + 1
      ensures Held() == old(Held()) + [spr]
    {
      ghost var held0 := Held();
      sprites[numSprites] := Some(spr);
      numSprites := numSprites + 1;
      assert Held() == held0 + [spr] by {
        assert forall i :: 0 <= i < numSprites - 1 ==> sprites[i] == old(sprites[i]);
      }
    }

    /** The texture registration of `addSprite`: append the sprite's texture
        unless it has none or it is listed already. */
    method RegisterTexture(tex: Option<TexId>)
      modifies this`textures
      ensures textures == Register(old(textures), tex)
    {
      if tex.Some? {
        if tex.value !in textures {
          textures := textures + [tex.value];
        }
      }
    }

    /** The state `addSprite` leaves, from the value-level facts about it. */
    lemma AddedConsistent(held0: seq<SpriteRenderer>, textures0: seq<TexId>, buf0: seq<real>, spr: SpriteRenderer)
      requires Shaped() && Consistent(held0, textures0, buf0) && spr.WellFormed()
      requires QUAD_SIZE * (|held0| + 1) <= |buf0|
      requires Held() == held0 + [spr] && textures == Register(textures0, spr.texture)
      requires vertices[..] == Splice(buf0, |held0|, Quad(spr, textures))
      ensures Consistent(Held(), textures, vertices[..])
      ensures Encoded(held0, textures0, buf0) ==> Encoded(Held(), textures, vertices[..])
    {
      AddKeepsConsistent(held0, textures0, buf0, spr);
    }

    /** The slot a texture resolves to against the batch's list. */
    method TexSlotOf(tex: Option<TexId>) returns (texId: nat)
      ensures texId == SlotOf(textures, tex)
    {
      texId := 0;
      if tex.Some? {
        var i := 0;
        while i < |textures|
          invariant 0 <= i <= |textures|
          invariant tex.value !in textures[..i]
        {
          if textures[i] == tex.value {
            FirstSlotIs(textures, tex.value, i);
            texId := i + 1;
            return;
          }
          assert textures[..i + 1] == textures[..i] + [textures[i]];
          i := i + 1;
        }
        assert textures[..i] == textures;
        FirstSlotZeroIff(textures, tex.value);
      }
    }

    /** `loadVertexProperties(index)`: writes the quad of the sprite in slot
        `index` into entries [36 index, 36 index + 36) and nothing else. */
    method LoadVertexProperties(index: nat)
      requires Shaped() && index < numSprites && sprites[index].value.WellFormed()
      modifies vertices
      ensures vertices[..] == Splice(old(vertices[..]), index, Quad(sprites[index].value, textures))
    {
      var sprite := sprites[index].value;
      var offset := index * VERTICES_PER_QUAD * VERTEX_SIZE;
      var color := sprite.color;
      var texCords := sprite.texCords;
      var texId := TexSlotOf(sprite.texture);
      ghost var q := EncodeQuad(sprite, texId);
      ghost var base := offset;

      var xAdd, yAdd := 1.0, 1.0;
      var i := 0;
      while i < VERTICES_PER_QUAD
        invariant 0 <= i <= VERTICES_PER_QUAD
        invariant offset == base + VERTEX_SIZE * i
        invariant i == 0 ==> xAdd == 1.0 && yAdd == 1.0
        invariant i > 0 ==> Vec2(xAdd, yAdd) == Corner(i - 1)
        invariant vertices[..] == PartlyWritten(old(vertices[..]), index, q, i)
      {
        if i == 1 {
          yAdd := 0.0;
        } else if i == 2 {
          xAdd := 0.0;
        } else if i == 3 {
          yAdd := 1.0;
        }
        ghost var pre := vertices[..];
        var vertex := [sprite.position.x + xAdd * sprite.scale.x, sprite.position.y + yAdd * sprite.scale.y,
                       color.x, color.y, color.z, color.w, texCords[i].x, texCords[i].y, texId as real];
        VertexFields(sprite, i, texId, xAdd, yAdd);
        assert vertex == Vertex(sprite, i, texId);
        assert offset == QUAD_SIZE * index + VERTEX_SIZE * i;
        forall m | 0 <= m < VERTEX_SIZE {
          vertices[offset + m] := vertex[m];
        }
        PartlyWrittenStep(old(vertices[..]), index, sprite, texId, i, pre, vertices[..], offset, vertex);
        offset := offset + VERTEX_SIZE;
        i := i + 1;
      }
    }

    /** `render()`: the dirty sprites are re-encoded and marked clean, a
        re-upload is requested iff some sprite was dirty, the draw covers
        numSprites * 6 indices, and texture i is bound to unit i + 1. The batch
        stays valid and every held sprite's slot holds its encoding afterwards. */
    method Render() returns (rebuffer: bool, drawCount: int, bindings: seq<(int, TexId)>)
      requires Valid()
      modifies sprites, vertices
      ensures Valid() && AllEncoded()
      ensures Held() == CleanAll(old(Held()))
      ensures vertices[..] == Resync(old(vertices[..]), old(Held()), textures)
      ensures rebuffer <==> AnyDirty(old(Held()))
      ensures drawCount == numSprites * INDICES_PER_QUAD
      ensures |bindings| == |textures|
      ensures forall i :: 0 <= i < |textures| ==> bindings[i] == (i + 1, textures[i])
    {
      ghost var held0, buf0 := Held(), vertices[..];
      rebuffer := SyncDirty();
      ResyncKeepsConsistent(held0, textures, buf0);
      drawCount := numSprites * INDICES_PER_QUAD;
      bindings := BindTextures();
    }

    /** The dirty loop of `render()`: slots are visited in order, and each
        dirty sprite is re-encoded into its slot and marked clean. */
    method SyncDirty() returns (rebuffer: bool)
      requires Shaped() && AllWellFormed(Held())
      modifies sprites, vertices
      ensures Shaped()
      ensures Held() == CleanAll(old(Held()))
      ensures vertices[..] == Resync(old(vertices[..]), old(Held()), textures)
      ensures rebuffer <==> AnyDirty(old(Held()))
    {
      ghost var held0, buf0 := Held(), vertices[..];
      rebuffer := false;
      var i := 0;
      while i < numSprites
        invariant 0 <= i <= numSprites
        invariant Shaped()
        invariant forall j :: 0 <= j < numSprites ==>
          sprites[j] == Some(if j < i then held0[j].Cleaned() else held0[j])
        invariant vertices[..] == ResyncUpTo(buf0, held0, textures, i)
        invariant rebuffer <==> DirtyBefore(held0, i)
      {
        DirtyBeforeStep(held0, i);
        var dirty := SyncSlot(i);
        rebuffer := rebuffer || dirty;
        i := i + 1;
      }
      assert Held() == CleanAll(held0);
    }

    /** One visit of the dirty loop of `render()`: a dirty sprite is
        re-encoded into its slot and marked clean; a clean one is left alone. */
    method SyncSlot(i: nat) returns (dirty: bool)
      requires Shaped() && i < numSprites && sprites[i].value.WellFormed()
      modifies sprites, vertices
      ensures dirty == old(sprites[i].value.dirty)
      ensures sprites[..] == old(sprites[..])[i := Some(old(sprites[i].value).Cleaned())]
      ensures vertices[..] ==
        if dirty then Splice(old(vertices[..]), i, Quad(old(sprites[i].value), textures))
        else old(vertices[..])
    {
      var spr := sprites[i].value;
      dirty := spr.dirty;
      if dirty {
        LoadVertexProperties(i);
        sprites[i] := Some(spr.Cleaned());
      } else {
        assert spr.Cleaned() == spr;
        assert sprites[..] == old(sprites[..])[i := Some(spr.Cleaned())];
      }
    }

    /** The texture-binding loop of `render()`: texture i goes to unit i + 1. */
    method BindTextures() returns (bindings: seq<(int, TexId)>)
      ensures |bindings| == |textures|
      ensures forall i :: 0 <= i < |textures| ==> bindings[i] == (i + 1, textures[i])
    {
      bindings := [];
      var k := 0;
      while k < |textures|
        invariant 0 <= k <= |textures|
        invariant |bindings| == k
        invariant forall j :: 0 <= j < k ==> bindings[j] == (j + 1, textures[j])
      {
        bindings := bindings + [(k + 1, textures[k])];
        k := k + 1;
      }
    }

    /** `generateIndices()`: the index buffer for all maxBatchSize quads. */
    method GenerateIndices() returns (elements: array<int>)
      ensures fresh(elements) && elements[..] == Indices(maxBatchSize)
    {
      elements := new int[INDICES_PER_QUAD * maxBatchSize];
      var i := 0;
      while i < maxBatchSize
        invariant 0 <= i <= maxBatchSize
        invariant elements[..INDICES_PER_QUAD * i] == Indices(i)
      {
        LoadElementIndices(elements, i);
        assert elements[..INDICES_PER_QUAD * (i + 1)]
          == elements[..INDICES_PER_QUAD * i] + elements[INDICES_PER_QUAD * i..INDICES_PER_QUAD * i + INDICES_PER_QUAD];
        i := i + 1;
      }
      assert elements[..] == elements[..INDICES_PER_QUAD * maxBatchSize];
    }

    /** `loadElementIndices(elements, index)`: writes quad `index`'s six indices
        into entries [6 index, 6 index + 6) and nothing else. */
    method LoadElementIndices(elements: array<int>, index: nat)
      requires INDICES_PER_QUAD * index + INDICES_PER_QUAD <= elements.Length
      modifies elements
      ensures elements[..] == old(elements[..])[..INDICES_PER_QUAD * index] + QuadIndices(index)
                              + old(elements[..])[INDICES_PER_QUAD * index + INDICES_PER_QUAD..]
    {
      var offsetArrayIndex := INDICES_PER_QUAD * index;
      var offset := VERTICES_PER_QUAD * index;

      elements[offsetArrayIndex] := offset + 3;
      elements[offsetArrayIndex + 1] := offset + 2;
      elements[offsetArrayIndex + 2] := offset + 0;

      elements[offsetArrayIndex + 3] := offset + 0;
      elements[offsetArrayIndex + 4] := offset + 2;
      elements[offsetArrayIndex + 5] := offset + 1;
    }

    /** `hasRoom()`: the latched flag, true iff a slot is left (or the capacity
        is 0, where the flag is never cleared). */
    function HasRoom(): (r: bool)
      reads this, sprites, vertices
      requires Valid()
      ensures r <==> numSprites < maxBatchSize || maxBatchSize == 0
    {
      hasRoom
    }

    /** `hasTextureRoom()`: when true, registering any texture leaves it a slot
        of at most 8; when false, eight or more textures are listed. */
    function HasTextureRoom(): (r: bool)
      reads this
      ensures r ==> forall t :: SlotOf(Register(textures, Some(t)), Some(t)) <= MAX_TEXTURES
      ensures !r ==> |textures| >= MAX_TEXTURES
    {
      TextureRoomBoundsSlot(textures);
      TextureRoom(textures)
    }

    /** `hasTexture(tex)`: listed exactly when the texture resolves to a slot;
        a null texture is never listed. */
    function HasTexture(tex: Option<TexId>): (r: bool)
      reads this
      ensures r <==> SlotOf(textures, tex) != 0
      ensures tex.None? ==> !r
    {
      SlotOfRange(textures, tex);
      tex.Some? && tex.value in textures
    }

    /** `zIndex()` */
    function ZIndex(): int
    {
      zIndex
    }

    /** `compareTo(o)`: Integer.compare on the z-indices. */
    function CompareTo(o: RenderBatch): (r: int)
      ensures -1 <= r <= 1
      ensures r < 0 <==> ZIndex() < o.ZIndex()
      ensures r == 0 <==> ZIndex() == o.ZIndex()
    {
      if zIndex < o.ZIndex() then -1 else if zIndex == o.ZIndex() then 0 else 1
    }
  }

  /** `compareTo` orders batches as their z-indices: it is antisymmetric and
      transitive, and batches compare equal exactly when their z-indices do. */
  lemma CompareToIsZOrder(a: RenderBatch, b: RenderBatch, c: RenderBatch)
    ensures a.CompareTo(b) == -b.CompareTo(a)
    ensures a.CompareTo(b) <= 0 && b.CompareTo(c) <= 0 ==> a.CompareTo(c) <= 0
    ensures a.CompareTo(a) == 0
  {
  }
}
