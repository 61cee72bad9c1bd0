# RenderBatch: a verified model of the sprite batch

This project models the sprite batch of a small Java 2D engine
(`renderer/RenderBatch.java`) and its companion value type
(`components/Sprite.java`). It proves the properties the batch relies on.

A batch is a fixed-capacity, append-only container of sprite components. It
keeps three things:

- an ordered, duplicate-free list of the textures its sprites use;
- a flat scratch buffer of vertex scalars, 4 vertices of 9 scalars per sprite slot;
- a static index buffer of two triangles per slot.

Each frame, `render()` does three things:

- it re-encodes the dirty sprites into their slots and marks them clean;
- it asks for a re-upload when any sprite was dirty;
- it binds texture `i` to texture unit `i + 1` and draws `6 * numSprites` indices.

## Module layout

- **Sprites** (`sprite.dfy`): `Sprite` is an immutable datatype. The file holds
  both constructors, the two getters and the default texture-coordinate quad.
- **SpriteRenderers** (`sprite_renderer.dfy`): what the batch reads from a sprite
  component, as plain data. That is position, scale, colour, optional texture,
  texture coordinates and the dirty bit.
- **VertexLayout** (`vertex_layout.dfy`): the layout constants and the four vertex
  attribute bindings.
- **TextureSlots** (`texture_slots.dfy`): texture registration and slot
  resolution, as functions on `seq<TexId>`.
- **QuadEncoder** (`quad_encoder.dfy`): the 36 scalars of a sprite's quad, and
  splicing a quad into the buffer.
- **ElementIndices** (`element_indices.dfy`): the static index buffer.
- **DirtyResync** (`dirty_resync.dfy`): the buffer and the sprites after the
  dirty loop of `render()`, as functions.
- **RenderBatches** (`render_batch.dfy`): the batch itself.
  - `class RenderBatch` keeps the Java fields that change in place.
    - `sprites: array<Option<SpriteRenderer>>`, where `None` is a null slot.
    - `vertices: array<real>`.
    - `numSprites`, `hasRoom`, and `textures: seq<TexId>`.
  - Its methods follow the Java methods loop for loop.
  - Each method is proved against the functions of the modules above.

The batch invariant `Valid()` says four things:

- the array sizes agree with the capacity;
- the first `numSprites` slots are exactly the filled ones;
- `hasRoom` is true iff a slot is left (or the capacity is 0);
- the texture list is duplicate-free and holds every held sprite's texture.

It also says every clean sprite's slot holds that sprite's current encoding.
`AllEncoded()` says this holds for every held sprite. `render()` establishes it,
and `addSprite` preserves it.

Two small helper methods stand for parts of `addSprite`.

- `StoreSprite` stores the sprite into its slot (lines 97-100).
- `RegisterTexture` registers the sprite's texture (lines 103-110).

`Append` is `addSprite` on a batch with a free slot. Three helpers stand for the
loops of `render()`: `SyncDirty` (lines 123-130), `SyncSlot` (one pass of it) and
`BindTextures` (lines 140-143). These helpers split the code into separate proof
units. They sequence the same statements in the same order.

## Model

| member | source | states |
|---|---|---|
| VertexLayout.LayoutOffsets | src/main/java/renderer/RenderBatch.java:23-35 | A vertex is 9 scalars or 36 bytes; colour sits at byte 8, tex-coords at 24 and tex-id at 32. The literal 9 equals the sum of the attribute sizes, and a quad is 36 scalars. |
| VertexLayout.AttributesTileVertex | src/main/java/renderer/RenderBatch.java:80-91 | The four attribute bindings sit at locations 0..3 and share the 36-byte stride. Each starts where the previous one ends, and the last ends at the stride. |
| Sprites.WithTexture | src/main/java/components/Sprite.java:12-21 | `new Sprite(texture)`: the given texture (`None` for null) with the default quad. |
| Sprites.WithTexCords | src/main/java/components/Sprite.java:23-26 | `new Sprite(texture, texCords)`: the given texture and coordinates, stored as given. |
| Sprites.GetTexture | src/main/java/components/Sprite.java:27-29 | `getTexture()`: the stored texture. |
| Sprites.GetTexCords | src/main/java/components/Sprite.java:30-32 | `getTexCords()`: the stored coordinates. |
| Sprites.DefaultTexCords | src/main/java/components/Sprite.java:14-19 | The default quad has exactly four corners. |
| Sprites.DefaultConstructorTexCords | src/main/java/components/Sprite.java:12-21 | The one-argument constructor installs (1,1), (1,0), (0,0), (0,1), in that order. |
| Sprites.GetTextureReturnsConstructorArgument | src/main/java/components/Sprite.java:12-13 | Whichever constructor built the sprite, `getTexture()` returns the texture it was given, `None` (null) included. Lines 23-24 and 27-29 are part of this too. |
| Sprites.GetTexCordsReturnsConstructorArgument | src/main/java/components/Sprite.java:23-32 | The two-argument constructor keeps the given coordinates, and `getTexCords()` returns exactly them. Given the default quad, it builds the same sprite as the one-argument constructor. |
| SpriteRenderers.SpriteRenderer.Cleaned | src/main/java/renderer/RenderBatch.java:127 | `setClean()`: the result is not dirty, and nothing but the dirty bit changes. |
| TextureSlots.Register | src/main/java/renderer/RenderBatch.java:103-110 | The list after registration: a non-null, unlisted texture is appended; otherwise the list is unchanged. The old list is a prefix of the result, which is at most one longer. |
| TextureSlots.SlotOf | src/main/java/renderer/RenderBatch.java:174-184 | The texID the encoder writes: 0 for a null texture, else the first-match slot. It is at most the list size. |
| TextureSlots.TextureRoom | src/main/java/renderer/RenderBatch.java:251-253 | The guard as written: fewer than 8 textures are listed. |
| TextureSlots.FirstSlot | src/main/java/renderer/RenderBatch.java:174-184 | The 1-based first-match slot is at most the list length. |
| TextureSlots.FirstSlotZeroIff | src/main/java/renderer/RenderBatch.java:174-184 | Slot 0 is returned exactly when the texture is not listed. |
| TextureSlots.FirstSlotFinds | src/main/java/renderer/RenderBatch.java:176-182 | A listed texture resolves to a slot in [1, size]. That position holds it, and no earlier position does. |
| TextureSlots.FirstSlotIs | src/main/java/renderer/RenderBatch.java:176-182 | If position k holds the texture and no earlier position does, the slot is k + 1. |
| TextureSlots.SlotOfPosition | src/main/java/renderer/RenderBatch.java:174-184 | In a duplicate-free list, entry k resolves to slot k + 1. |
| TextureSlots.FirstSlotAppend | src/main/java/renderer/RenderBatch.java:105-107 | Appending a texture does not move the slot of one already listed. |
| TextureSlots.RegisterProperties | src/main/java/renderer/RenderBatch.java:103-110 | Registration keeps the list duplicate-free and keeps existing entries in place, as a prefix. It lists the new texture and grows the list by at most one. A null texture leaves the list unchanged. The list changes iff the texture is non-null and unlisted. |
| TextureSlots.RegisterIdempotent | src/main/java/renderer/RenderBatch.java:103-110 | Registering the same texture twice equals registering it once. |
| TextureSlots.SlotOfRegisterStable | src/main/java/renderer/RenderBatch.java:103-110 | Registration never changes the slot of a texture that already had one. |
| TextureSlots.SlotOfAfterRegister | src/main/java/renderer/RenderBatch.java:174-184 | After registration, a null texture resolves to 0. A non-null one resolves to a slot in [1, size] that holds it, so equal textures get equal slots. |
| TextureSlots.SlotOfRange | src/main/java/renderer/RenderBatch.java:174-184 | The slot is at most the list size. It is 0 iff the texture is null or unlisted, and a nonzero slot names the position holding the texture. |
| TextureSlots.EighthTextureGetsSlotEight | src/main/java/renderer/RenderBatch.java:251-253 | The guard as written admits an eighth texture, and that texture resolves to slot 8. The sampler table `texSlots` (line 41) does not contain 8. |
| TextureSlots.SamplerRoomKeepsSlotsReachable | src/main/java/renderer/RenderBatch.java:41 | Under the corrected guard (at most 7 textures), every listed texture's slot is in the sampler table, before and after a registration. Lines 140-145 and 251-253 are part of this too. |
| QuadEncoder.Corner | src/main/java/renderer/RenderBatch.java:190-201 | The running (xAdd, yAdd) of pass k: (1,1), (1,0), (0,0), (0,1) for k = 0..3. |
| QuadEncoder.VertexField | src/main/java/renderer/RenderBatch.java:203-218 | Scalar m of vertex k: x and y of the corner position, the four colour components, texCords[k].x and .y, and the texture slot. |
| QuadEncoder.Quad | src/main/java/renderer/RenderBatch.java:174-221 | The quad of a sprite whose texture is resolved against the batch's list. It is 36 scalars. |
| QuadEncoder.Vertex | src/main/java/renderer/RenderBatch.java:203-218 | One vertex is 9 scalars. |
| QuadEncoder.VertexFields | src/main/java/renderer/RenderBatch.java:190-218 | Given the running corner offsets (xAdd, yAdd) for corner k, the nine stores of one pass write exactly vertex k of the quad. |
| QuadEncoder.EncodeQuad | src/main/java/renderer/RenderBatch.java:192-221 | A quad is 36 scalars. |
| QuadEncoder.Splice | src/main/java/renderer/RenderBatch.java:165-169 | Splicing keeps the buffer length. |
| QuadEncoder.SpliceAt | src/main/java/renderer/RenderBatch.java:169-221 | Encoding slot i writes entries [36i, 36i+36) from the quad and leaves every other entry unchanged. |
| QuadEncoder.SpliceBlock | src/main/java/renderer/RenderBatch.java:169-221 | Afterwards slot i holds the quad, and every other slot holds what it held. |
| QuadEncoder.PartlyWritten | src/main/java/renderer/RenderBatch.java:192-221 | The buffer after n passes of the vertex loop has the buffer's length. With no pass it is the old buffer, and after 4 passes it is the full splice. |
| QuadEncoder.PartlyWrittenStep | src/main/java/renderer/RenderBatch.java:203-220 | Writing vertex n at the running offset over the buffer after n passes gives the buffer after n + 1 passes. |
| QuadEncoder.EncodeQuadAt | src/main/java/renderer/RenderBatch.java:169 | Scalar m of vertex k is at offset 9k + m of the quad. Line 220 is part of this too. |
| QuadEncoder.QuadVertexSlice | src/main/java/renderer/RenderBatch.java:192-221 | Scalars [9k, 9k+9) of the quad are vertex k. |
| QuadEncoder.EncodePosition | src/main/java/renderer/RenderBatch.java:190-205 | The position attribute of corner k is the position plus the corner offset times the scale. The offsets are (1,1), (1,0), (0,0), (0,1) for k = 0..3. |
| QuadEncoder.EncodeColor | src/main/java/renderer/RenderBatch.java:207-211 | The colour attribute of every corner is the sprite's RGBA. |
| QuadEncoder.EncodeTexture | src/main/java/renderer/RenderBatch.java:213-218 | Corner k gets texCords[k] at the tex-coord offset and the resolved slot at the tex-id offset. |
| QuadEncoder.DefaultTexCordsFollowCorners | src/main/java/components/Sprite.java:14-19 | With the default coordinates, each corner's tex-coord equals its unit-square corner offset. This ties to RenderBatch.java lines 190-215. |
| ElementIndices.QuadIndices | src/main/java/renderer/RenderBatch.java:233-247 | A quad has six indices. |
| ElementIndices.Indices | src/main/java/renderer/RenderBatch.java:224-231 | The index buffer of capacity n has length 6n. |
| ElementIndices.IndicesAt | src/main/java/renderer/RenderBatch.java:233-247 | Entry 6i + t is 4i + [3,2,0,0,2,1][t]. |
| ElementIndices.IndicesBounded | src/main/java/renderer/RenderBatch.java:224-247 | Every index is in [0, 4n). |
| ElementIndices.IndicesCapacityTwo | src/main/java/renderer/RenderBatch.java:237 | For capacity 2 the buffer is [3,2,0,0,2,1,7,6,4,4,6,5]. |
| ElementIndices.CornerPositions | src/main/java/renderer/RenderBatch.java:192-205 | The four corners the encoder writes are the sprite's rectangle: corner 0 at position + scale, 1 at (x + sx, y), 2 at position, 3 at (x, y + sy). |
| ElementIndices.WindingDiagonal | src/main/java/renderer/RenderBatch.java:237-246 | The two triangles of the index winding share exactly corners 0 and 2. Corner 3 is in the first triangle only, corner 1 in the second only. |
| ElementIndices.QuadTrianglesCoverSprite | src/main/java/renderer/RenderBatch.java:237-246 | Both triangles of the winding, over the encoder's corner positions (lines 192-205), have twice-signed-area scale.x * scale.y, so for positive scale both are counter-clockwise. They share exactly the diagonal 0-2. Their remaining corners 3 and 1 lie on opposite sides of it (areas +sx*sy and -sx*sy against the diagonal), so the two triangles together cover the sprite's rectangle. |
| DirtyResync.Step | src/main/java/renderer/RenderBatch.java:124-129 | One pass of the dirty loop keeps the buffer length. |
| DirtyResync.ResyncUpTo | src/main/java/renderer/RenderBatch.java:123-130 | The buffer after k passes keeps its length. |
| DirtyResync.Resync | src/main/java/renderer/RenderBatch.java:123-130 | The buffer after the whole dirty loop over the held sprites. It keeps the buffer length; ResyncSlices and ResyncIdempotent give its contents. |
| DirtyResync.CleanAll | src/main/java/renderer/RenderBatch.java:123-130 | The held sprites after the dirty loop, each one passed through `setClean()` (line 127). There are as many as before. |
| DirtyResync.AnyDirty | src/main/java/renderer/RenderBatch.java:122-128 | The final value of `rebufferData`: some held sprite is dirty. |
| DirtyResync.DirtyBeforeStep | src/main/java/renderer/RenderBatch.java:122-128 | `rebufferData` starts false. After one more pass it is set iff it was set or that sprite is dirty. |
| DirtyResync.StepBlock | src/main/java/renderer/RenderBatch.java:124-129 | Visiting slot k rewrites slot k with its quad if that sprite is dirty, and no other slot. |
| DirtyResync.ResyncUpToBlock | src/main/java/renderer/RenderBatch.java:123-130 | After k passes, slot i holds a fresh encoding if it was visited and dirty, and its old contents otherwise. |
| DirtyResync.ResyncUpToTail | src/main/java/renderer/RenderBatch.java:123-130 | Entries past the held sprites' slots are never written. |
| DirtyResync.ResyncSlices | src/main/java/renderer/RenderBatch.java:123-130 | The loop re-encodes exactly the dirty sprites. A clean sprite's slice and everything past the held slots stay unchanged. |
| DirtyResync.ResyncUpToClean | src/main/java/renderer/RenderBatch.java:123-130 | If no visited sprite is dirty, the buffer is unchanged. |
| DirtyResync.CleanAllKeepsSprites | src/main/java/renderer/RenderBatch.java:127 | After `setClean()` no sprite is dirty. Each sprite stays well-formed and encodes to the same quad. |
| DirtyResync.ResyncIdempotent | src/main/java/renderer/RenderBatch.java:121-134 | A second pass with no change in between finds nothing dirty and leaves the buffer as the first pass left it. So it asks for no re-upload. |
| DirtyResync.ResyncUpToSingle | src/main/java/renderer/RenderBatch.java:123-130 | With only sprite d dirty, the buffer is unchanged until slot d is visited, and spliced at slot d from then on. |
| DirtyResync.ResyncSingleDirty | src/main/java/renderer/RenderBatch.java:123-130 | Dirtying exactly one sprite re-encodes exactly its slot. |
| RenderBatches.Values | src/main/java/renderer/RenderBatch.java:37-38 | The held sprites are the contents of the filled slots, in slot order. |
| RenderBatches.AddKeepsConsistent | src/main/java/renderer/RenderBatch.java:95-119 | Registering the texture and then encoding the new sprite keeps the batch invariant, and the new slot holds the sprite's encoding. A fully encoded buffer stays fully encoded, because no earlier sprite's slot number moves. |
| RenderBatches.AddKeepsEarlier | src/main/java/renderer/RenderBatch.java:103-113 | Any earlier sprite keeps its slot's contents, its encoding and its registration. |
| RenderBatches.ResyncKeepsConsistent | src/main/java/renderer/RenderBatch.java:123-130 | A re-sync keeps the batch invariant, marks all sprites clean, and leaves every held slot holding its sprite's encoding. |
| RenderBatches.TextureRoomBoundsSlot | src/main/java/renderer/RenderBatch.java:251-253 | When `hasTextureRoom()` holds, any texture registered next resolves to a slot of at most 8. |
| RenderBatches.BoundSlot | src/main/java/renderer/RenderBatch.java:140-143 | With texture i bound to unit i + 1, the slot a listed texture resolves to is the unit it is bound to. Lines 174-184 are part of this too. |
| RenderBatches.CompareToIsZOrder | src/main/java/renderer/RenderBatch.java:261-264 | `compareTo` is antisymmetric, transitive and reflexive-zero, so it orders batches by z-index. |
| RenderBatches.RenderBatch.Valid | src/main/java/renderer/RenderBatch.java:37-45 | The batch invariant. The arrays have the capacity's sizes, and the first `numSprites` slots are exactly the non-null ones. `hasRoom` is true iff a slot is left or the capacity is 0. The texture list is duplicate-free and holds every held sprite's texture. Every clean sprite's slot holds its encoding. Lines 115-117 are part of this too. |
| RenderBatches.RenderBatch.Held | src/main/java/renderer/RenderBatch.java:37-38 | There are `numSprites` held sprites. |
| RenderBatches.RenderBatch.constructor | src/main/java/renderer/RenderBatch.java:49-62 | A new batch is valid and fully encoded. It has zIndex and capacity as given, no sprites, room, no textures, and a zeroed vertex buffer of `maxBatchSize*4*9` scalars. |
| RenderBatches.RenderBatch.Start | src/main/java/renderer/RenderBatch.java:64-93 | `start()` allocates `vertices.length * 4` bytes and uploads exactly the generated index buffer. It makes the four attribute bindings of the layout. |
| RenderBatches.RenderBatch.AddSprite | src/main/java/renderer/RenderBatch.java:95-119 | On a full batch nothing changes and the result is false. Otherwise the count grows by exactly one and the held sprites gain the new one at the end, earlier slots unchanged. The texture list is the registration of the sprite's texture. The buffer changes in exactly the new slot, which gets the sprite's quad. `hasRoom` is true iff a slot is left. The invariant and full encoding are kept. |
| RenderBatches.RenderBatch.Append | src/main/java/renderer/RenderBatch.java:95-119 | The same as AddSprite, for a batch with a free slot. |
| RenderBatches.RenderBatch.StoreSprite | src/main/java/renderer/RenderBatch.java:97-100 | The sprite goes into slot `numSprites`, the count grows by one, and the earlier slots are unchanged. |
| RenderBatches.RenderBatch.RegisterTexture | src/main/java/renderer/RenderBatch.java:103-110 | The list becomes the registration of the texture. |
| RenderBatches.RenderBatch.AddedConsistent | src/main/java/renderer/RenderBatch.java:95-119 | Given the value-level effect of the steps of `addSprite`, the new state satisfies the batch invariant, and full encoding is kept. |
| RenderBatches.RenderBatch.TexSlotOf | src/main/java/renderer/RenderBatch.java:174-184 | The search loop returns the first-match slot, or 0 for no texture or an unlisted one. |
| RenderBatches.RenderBatch.LoadVertexProperties | src/main/java/renderer/RenderBatch.java:165-222 | The buffer becomes the old buffer with slot `index` replaced by the sprite's quad: exactly those 36 entries are written. |
| RenderBatches.RenderBatch.Render | src/main/java/renderer/RenderBatch.java:121-163 | The held sprites are all marked clean, and the buffer is the re-sync of the old one. `rebuffer` is true iff some held sprite was dirty, and the draw count is `numSprites * 6`. Texture i is bound to unit i + 1. Afterwards the batch is valid and every held slot holds its encoding. |
| RenderBatches.RenderBatch.SyncDirty | src/main/java/renderer/RenderBatch.java:122-130 | The loop leaves the sprites all marked clean and the buffer equal to the re-sync function. It sets the flag iff some sprite was dirty. |
| RenderBatches.RenderBatch.SyncSlot | src/main/java/renderer/RenderBatch.java:124-129 | A dirty sprite is re-encoded into its slot and marked clean. A clean sprite leaves both arrays unchanged. |
| RenderBatches.RenderBatch.BindTextures | src/main/java/renderer/RenderBatch.java:140-143 | Texture i is bound to unit i + 1, for every listed texture and no other. |
| RenderBatches.RenderBatch.GenerateIndices | src/main/java/renderer/RenderBatch.java:224-231 | A fresh array equal to the index buffer of `maxBatchSize` quads. |
| RenderBatches.RenderBatch.LoadElementIndices | src/main/java/renderer/RenderBatch.java:233-247 | Entries [6i, 6i+6) become quad i's indices, and every other entry is unchanged. |
| RenderBatches.RenderBatch.HasRoom | src/main/java/renderer/RenderBatch.java:248-250 | True iff a slot is left, or the capacity is 0. |
| RenderBatches.RenderBatch.HasTextureRoom | src/main/java/renderer/RenderBatch.java:251-253 | When true, any texture registered next gets a slot of at most 8. When false, at least 8 textures are listed. |
| RenderBatches.RenderBatch.HasTexture | src/main/java/renderer/RenderBatch.java:254-256 | True iff the texture resolves to a nonzero slot. A null texture is never listed, so `hasTexture(null)` is false. |
| RenderBatches.RenderBatch.ZIndex | src/main/java/renderer/RenderBatch.java:257-259 | The z-index given to the constructor; the field is constant, so it never changes afterwards. |
| RenderBatches.RenderBatch.CompareTo | src/main/java/renderer/RenderBatch.java:261-264 | The result is -1, 0 or 1. It is negative iff this z-index is smaller, and zero iff the z-indices are equal. |

## Left out

- OpenGL and shaders: every GL call, the shader, texture `bind`/`unbind` and the
  uniform uploads in `start()` and `render()` are foreign calls. Their observable
  effect appears as outputs: the buffer size in bytes, the index buffer, the
  attribute bindings, `rebuffer`, the draw count and the texture-unit bindings.
  The shader's projection and view matrices come from the window and are not
  modelled.
- `Window.java`, `Scene.java` and `KeyListener.java` are input, window and
  lifecycle plumbing. None of them is modelled. The batch routing in
  `renderer/Renderer.java` is not part of this model.
- Floating point: vertex scalars are `real`, so `float` rounding is not modelled.
  `int` overflow is not modelled either. That covers these products:
  - `maxBatchSize * 4 * VERTEX_SIZE` (line 57);
  - `vertices.length * Float.BYTES` (line 72);
  - `index * 4 * VERTEX_SIZE` (line 169);
  - `6 * maxBatchSize` (line 226);
  - `6 * index` and `4 * index` (lines 234-235);
  - `numSprites * 6` (line 151).

  The capacity is a `nat`, since Java throws on a negative array size.
- Textures are integer handles, compared by `==`.
  - This matches the reference comparison at line 178.
  - The `contains` calls at lines 105 and 255 use `equals()`, not `==`. Treating
    them the same assumes `Texture` does not override `equals`; `Texture` is not
    among these files.
  - If it did override `equals`, `contains` could find a texture that the `==`
    loop at line 178 misses. That sprite would then be encoded with texID 0, and
    the model does not cover that case.
- The sprite component (`SpriteRenderer`, its `GameObject` and `Transform`) is
  not among these files. It is modelled as a plain record kept in the batch by
  value. So a change made to a held sprite from outside the batch (its dirty bit,
  position or colour) is not modelled; a caller passes the sprite set up as it
  wants it. For the same reason the re-sync is stated over arbitrary dirty
  patterns of the held sprites, and the invariant claims only that clean
  sprites' slots are current.
- Aliasing inside one batch is not modelled either. In Java, the same component
  added twice fills two slots that share one dirty flag. During `render()`,
  `setClean()` on the first of those slots then makes the loop skip the second,
  so the second slot keeps its stale contents. In the model, the two slots hold
  independent copies, and each is re-encoded.
- RenderBatches.RenderBatch.AddSprite: on a full batch the Java code throws an
  `ArrayIndexOutOfBoundsException` at the slot store, before any field changes.
  The model returns `false` with the state unchanged instead of raising.
- RenderBatches.RenderBatch.AddSprite: `addSprite(null)` is not modelled, since
  the model's sprite parameter is a value and cannot be null. In Java, the null
  is stored in the next slot and `numSprites` is incremented (lines 99-100). Then
  `spr.getTexture()` throws a `NullPointerException` at line 103. The batch is
  left holding a null slot, which breaks the held-sprite invariant, and a later
  `render()` throws again at line 125.
- RenderBatches.RenderBatch.LoadVertexProperties: requires the sprite to have at
  least four texture coordinates. With fewer, the Java code throws part-way
  through the buffer writes, and that partial state is not modelled.
- RenderBatches.RenderBatch.LoadVertexProperties: each pass of the vertex loop
  writes its nine scalars in one aggregate statement. The nine single stores are
  not modelled one by one, but the values and their offsets are the same.
- `addSprite` never checks the eight-texture limit; only the caller can consult
  `hasTextureRoom()`. The model follows the code, so a batch may list more than
  eight textures.
- RenderBatches.RenderBatch.ZIndex is the plain getter and carries no contract
  of its own. The constructor's contract fixes the constant it returns, and
  `CompareTo` and `CompareToIsZOrder` state what it is used for.
- The texture `unbind` loop and `shader.detach()` at the end of `render()` have no
  observable effect on the batch's state and are not modelled.

## Findings

| source | as written | input that shows it | evidently intended | confidence | as-written member | corrected member |
|---|---|---|---|---|---|---|
| src/main/java/renderer/RenderBatch.java:251-253 | `hasTextureRoom()` allows a texture while fewer than 8 are listed. Slot 0 is reserved, though, so the eighth texture gets slot 8 and is bound to unit `GL_TEXTURE0 + 8` (line 141). The sampler table `texSlots = {0..7}` (lines 41, 145) does not reach that unit. | seven textures listed, then an eighth distinct one: `hasTextureRoom()` is true, and the new texture resolves to slot 8, which is not in `texSlots` | either of two repairs: (1) room only while fewer than 7 textures are listed (`size() < texSlots.length - 1`), so every slot is a sampler the table reaches; or (2) keep the capacity of 8 textures with slots in [1, 8] and widen `texSlots` to 0..8. The corrected member proves repair (1) | medium, not executed | TextureSlots.EighthTextureGetsSlotEight | TextureSlots.SamplerRoomKeepsSlotsReachable |
