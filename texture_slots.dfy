/** The texture slot tracker of renderer/RenderBatch.java: the ordered list of
    distinct textures a batch uses, and the 1-based slot a texture resolves to
    (slot 0 meaning "no texture"). */
module TextureSlots {
  import opened Sprites

  /** `hasTextureRoom()` compares the list size against this literal. */
  const MAX_TEXTURES: nat := 8

  /** `texSlots`: the sampler-to-texture-unit table uploaded as `uTextures`. */
  const TEX_SLOTS: seq<int> := [0, 1, 2, 3, 4, 5, 6, 7]

  ghost predicate NoDup(s: seq<TexId>)
  {
    forall i, j :: 0 <= i < j < |s| ==> s[i] != s[j]
  }

  /** The registration step of `addSprite`: a texture is appended unless it is
      absent (null) or already listed. */
  function Register(textures: seq<TexId>, tex: Option<TexId>): (r: seq<TexId>)
    ensures textures <= r && |r| <= |textures| + 1
  {
    if tex.Some? && tex.value !in textures then textures + [tex.value] else textures
  }

  /** 1 + the first position holding `t`, or 0 when `t` is not listed. */
  function FirstSlot(s: seq<TexId>, t: TexId): (r: nat)
    ensures r <= |s|
  {
    if |s| == 0 then 0
    else if s[0] == t then 1
    else
      var r := FirstSlot(s[1..], t);
      if r == 0 then 0 else r + 1
  }

  /** The texture id the encoder writes: 0 for no texture, else its slot. */
  function SlotOf(textures: seq<TexId>, tex: Option<TexId>): (r: nat)
    ensures r <= |textures|
  {
    match tex
    case None => 0
    case Some(t) => FirstSlot(textures, t)
  }

  /** The as-written room test of `hasTextureRoom()`. */
  function TextureRoom(textures: seq<TexId>): bool
  {
    |textures| < MAX_TEXTURES
  }

  /** The room test the sampler table supports: sampler 0 is left for "no
      texture", so only |TEX_SLOTS| - 1 textures can be reached. */
  function SamplerRoom(textures: seq<TexId>): bool
  {
    |textures| < |TEX_SLOTS| - 1
  }

  /** Slot 0 exactly when the texture is not listed. */
  lemma {:induction false} FirstSlotZeroIff(s: seq<TexId>, t: TexId)
    ensures FirstSlot(s, t) == 0 <==> t !in s
  {
    if |s| > 0 && s[0] != t {
      FirstSlotZeroIff(s[1..], t);
      assert s == [s[0]] + s[1..];
    }
  }

  /** A listed texture resolves to 1 + its FIRST position. */
  lemma {:induction false} FirstSlotFinds(s: seq<TexId>, t: TexId)
    requires t in s
    ensures 1 <= FirstSlot(s, t) <= |s|
    ensures s[FirstSlot(s, t) - 1] == t
    ensures t !in s[..FirstSlot(s, t) - 1]
  {
    if s[0] != t {
      assert s == [s[0]] + s[1..];
      FirstSlotFinds(s[1..], t);
      var r := FirstSlot(s[1..], t);
      assert s[..r] == [s[0]] + s[1..][..r - 1];
    }
  }

  /** Conversely, the first position holding `t` determines its slot. */
  lemma {:induction false} FirstSlotIs(s: seq<TexId>, t: TexId, k: nat)
    requires k < |s| && s[k] == t && t !in s[..k]
    ensures FirstSlot(s, t) == k + 1
  {
    if k > 0 {
      assert s[0] in s[..k];
      assert s[1..][..k - 1] == s[1..k];
      assert forall x :: x in s[1..k] ==> x in s[..k];
      FirstSlotIs(s[1..], t, k - 1);
    }
  }

  /** In a duplicate-free list every entry's slot is its position + 1. */
  lemma SlotOfPosition(s: seq<TexId>, k: nat)
    requires NoDup(s) && k < |s|
    ensures SlotOf(s, Some(s[k])) == k + 1
  {
    forall x | x in s[..k] ensures x != s[k] {
      var j :| 0 <= j < k && s[..k][j] == x;
    }
    FirstSlotIs(s, s[k], k);
  }

  /** Appending a texture does not move the slot of one already listed. */
  lemma {:induction false} FirstSlotAppend(s: seq<TexId>, t: TexId, u: TexId)
    requires t in s
    ensures FirstSlot(s + [u], t) == FirstSlot(s, t)
  {
    if s[0] != t {
      assert (s + [u])[1..] == s[1..] + [u];
      assert t in s[1..] by { assert s == [s[0]] + s[1..]; }
      FirstSlotAppend(s[1..], t, u);
      FirstSlotZeroIff(s[1..], t);
      FirstSlotZeroIff(s[1..] + [u], t);
    }
  }

  /** Registration keeps the list duplicate-free, keeps every existing entry at
      its position, lists the new texture, and grows the list by at most one. */
  lemma RegisterProperties(textures: seq<TexId>, tex: Option<TexId>)
    requires NoDup(textures)
    ensures NoDup(Register(textures, tex))
    ensures textures <= Register(textures, tex)
    ensures |Register(textures, tex)| <= |textures| + 1
    ensures tex.Some? ==> tex.value in Register(textures, tex)
    ensures tex.None? ==> Register(textures, tex) == textures
    ensures Register(textures, tex) != textures <==> tex.Some? && tex.value !in textures
  {
  }

  /** Registering the same texture twice is the same as registering it once. */
  lemma RegisterIdempotent(textures: seq<TexId>, tex: Option<TexId>)
    ensures Register(Register(textures, tex), tex) == Register(textures, tex)
  {
  }

  /** Registration never moves the slot of a texture that already had one. */
  lemma SlotOfRegisterStable(textures: seq<TexId>, tex: Option<TexId>, other: Option<TexId>)
    requires other.Some? ==> other.value in textures
    ensures SlotOf(Register(textures, tex), other) == SlotOf(textures, other)
  {
    if other.Some? && tex.Some? && tex.value !in textures {
      FirstSlotAppend(textures, other.value, tex.value);
    }
  }

  /** After registration a sprite's texture resolves to a slot in [1, size] that
      holds it; no texture resolves to 0. Two sprites with the same texture thus
      get the same slot, and that slot is the texture's place in the list. */
  lemma SlotOfAfterRegister(textures: seq<TexId>, tex: Option<TexId>)
    ensures tex.None? ==> SlotOf(Register(textures, tex), tex) == 0
    ensures tex.Some? ==>
      var r := Register(textures, tex);
      1 <= SlotOf(r, tex) <= |r| && r[SlotOf(r, tex) - 1] == tex.value
  {
    if tex.Some? {
      FirstSlotFinds(Register(textures, tex), tex.value);
    }
  }

  /** A listed texture resolves to a slot in [1, size] holding it; an unlisted
      or absent one to 0. */
  lemma SlotOfRange(textures: seq<TexId>, tex: Option<TexId>)
    ensures SlotOf(textures, tex) <= |textures|
    ensures SlotOf(textures, tex) == 0 <==> tex.None? || tex.value !in textures
    ensures SlotOf(textures, tex) > 0 ==> textures[SlotOf(textures, tex) - 1] == tex.value
  {
    if tex.Some? {
      FirstSlotZeroIff(textures, tex.value);
      if tex.value in textures {
        FirstSlotFinds(textures, tex.value);
      }
    }
  }

  /** Under the as-written guard the list can reach eight textures, and the
      eighth one resolves to slot 8. */
  lemma EighthTextureGetsSlotEight()
    ensures var seven := [1, 2, 3, 4, 5, 6, 7];
      TextureRoom(seven) &&
      SlotOf(Register(seven, Some(8)), Some(8)) == 8 &&
      8 !in TEX_SLOTS
  {
    var seven := [1, 2, 3, 4, 5, 6, 7];
    var r := Register(seven, Some(8));
    assert r == seven + [8];
    FirstSlotIs(r, 8, 7);
  }

  /** With the corrected guard, every registered texture keeps a slot whose
      texture unit the sampler table reaches: if the list is within reach before
      a registration checked by SamplerRoom (or of a texture already listed),
      it is within reach after. */
  lemma SamplerRoomKeepsSlotsReachable(textures: seq<TexId>, tex: Option<TexId>)
    requires |textures| <= |TEX_SLOTS| - 1
    requires tex.Some? && tex.value !in textures ==> SamplerRoom(textures)
    ensures |Register(textures, tex)| <= |TEX_SLOTS| - 1
    ensures forall t :: t in Register(textures, tex) ==> SlotOf(Register(textures, tex), Some(t)) in TEX_SLOTS
  {
    var r := Register(textures, tex);
    forall t | t in r ensures SlotOf(r, Some(t)) in TEX_SLOTS {
      FirstSlotFinds(r, t);
    }
  }
}
