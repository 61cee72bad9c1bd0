/** The per-frame dirty re-sync of `RenderBatch.render()`: the sprites held by a
    batch are visited in slot order, and each dirty one is re-encoded into its
    slot of the vertex buffer and marked clean. */
module DirtyResync {
  import opened Sprites
  import opened SpriteRenderers
  import opened VertexLayout
  import opened TextureSlots
  import opened QuadEncoder

  predicate AllWellFormed(sprs: seq<SpriteRenderer>)
  {
    forall i :: 0 <= i < |sprs| ==> sprs[i].WellFormed()
  }

  /** The visit of slot i. */
  function Step(buf: seq<real>, sprs: seq<SpriteRenderer>, textures: seq<TexId>, i: nat): (r: seq<real>)
    requires AllWellFormed(sprs) && i < |sprs| && QUAD_SIZE * |sprs| <= |buf|
    ensures |r| == |buf|
  {
    if sprs[i].dirty then Splice(buf, i, Quad(sprs[i], textures)) else buf
  }

  /** The buffer after visiting slots 0 .. k-1. */
  function ResyncUpTo(buf: seq<real>, sprs: seq<SpriteRenderer>, textures: seq<TexId>, k: nat): (r: seq<real>)
    requires AllWellFormed(sprs) && k <= |sprs| && QUAD_SIZE * |sprs| <= |buf|
    ensures |r| == |buf|
  {
    if k == 0 then buf else Step(ResyncUpTo(buf, sprs, textures, k - 1), sprs, textures, k - 1)
  }

  /** The buffer after the whole loop. */
  function Resync(buf: seq<real>, sprs: seq<SpriteRenderer>, textures: seq<TexId>): (r: seq<real>)
    requires AllWellFormed(sprs) && QUAD_SIZE * |sprs| <= |buf|
    ensures |r| == |buf|
  {
    ResyncUpTo(buf, sprs, textures, |sprs|)
  }

  /** The sprites after the loop: each dirty one has been marked clean. */
  function CleanAll(sprs: seq<SpriteRenderer>): (r: seq<SpriteRenderer>)
    ensures |r| == |sprs|
  {
    seq(|sprs|, i requires 0 <= i < |sprs| => sprs[i].Cleaned())
  }

  /** Some sprite among slots 0 .. k-1 is dirty. */
  predicate DirtyBefore(sprs: seq<SpriteRenderer>, k: nat)
    requires k <= |sprs|
  {
    exists i :: 0 <= i < k && sprs[i].dirty
  }

  /** The loop sets `rebufferData` exactly when this holds. */
  predicate AnyDirty(sprs: seq<SpriteRenderer>)
  {
    DirtyBefore(sprs, |sprs|)
  }

  /** Visiting one more slot makes the run dirty iff that sprite is dirty. */
  lemma DirtyBeforeStep(sprs: seq<SpriteRenderer>, k: nat)
    requires k < |sprs|
    ensures !DirtyBefore(sprs, 0)
    ensures DirtyBefore(sprs, k + 1) <==> DirtyBefore(sprs, k) || sprs[k].dirty
  {
    if DirtyBefore(sprs, k + 1) && !sprs[k].dirty {
      var i :| 0 <= i < k + 1 && sprs[i].dirty;
      assert i < k;
    }
  }

  /** After slots 0 .. k-1 are visited, slot i holds a fresh encoding if it was
      visited and dirty, and its old content otherwise. */
  lemma {:induction false} ResyncUpToBlock(buf: seq<real>, sprs: seq<SpriteRenderer>, textures: seq<TexId>, k: nat, i: nat)
    requires AllWellFormed(sprs) && k <= |sprs| && QUAD_SIZE * |sprs| <= |buf| && i < |sprs|
    ensures Block(ResyncUpTo(buf, sprs, textures, k), i) ==
      if i < k && sprs[i].dirty then Quad(sprs[i], textures) else Block(buf, i)
  {
    if k > 0 {
      ResyncUpToBlock(buf, sprs, textures, k - 1, i);
      StepBlock(ResyncUpTo(buf, sprs, textures, k - 1), sprs, textures, k - 1, i);
    }
  }

  /** The visit of slot k rewrites slot k if it is dirty and no other slot. */
  lemma StepBlock(buf: seq<real>, sprs: seq<SpriteRenderer>, textures: seq<TexId>, k: nat, i: nat)
    requires AllWellFormed(sprs) && k < |sprs| && QUAD_SIZE * |sprs| <= |buf| && i < |sprs|
    ensures Block(Step(buf, sprs, textures, k), i) ==
      if i == k && sprs[k].dirty then Quad(sprs[k], textures) else Block(buf, i)
  {
    if sprs[k].dirty {
      SpliceBlock(buf, k, Quad(sprs[k], textures), i);
    }
  }

  /** Entries past the held sprites' slots are never written. */
  lemma {:induction false} ResyncUpToTail(buf: seq<real>, sprs: seq<SpriteRenderer>, textures: seq<TexId>, k: nat, j: nat)
    requires AllWellFormed(sprs) && k <= |sprs| && QUAD_SIZE * |sprs| <= j < |buf|
    ensures ResyncUpTo(buf, sprs, textures, k)[j] == buf[j]
  {
    if k > 0 {
      var prev := ResyncUpTo(buf, sprs, textures, k - 1);
      ResyncUpToTail(buf, sprs, textures, k - 1, j);
      if sprs[k - 1].dirty {
        SpliceAt(prev, k - 1, Quad(sprs[k - 1], textures), j);
      }
    }
  }

  /** The loop re-encodes exactly the dirty sprites: a dirty sprite's slot holds
      its encoding, a clean sprite's slot and everything past the held sprites
      are untouched. */
  lemma ResyncSlices(buf: seq<real>, sprs: seq<SpriteRenderer>, textures: seq<TexId>)
    requires AllWellFormed(sprs) && QUAD_SIZE * |sprs| <= |buf|
    ensures |Resync(buf, sprs, textures)| == |buf|
    ensures forall i :: 0 <= i < |sprs| ==>
      Block(Resync(buf, sprs, textures), i) == if sprs[i].dirty then Quad(sprs[i], textures) else Block(buf, i)
    ensures forall j :: QUAD_SIZE * |sprs| <= j < |buf| ==> Resync(buf, sprs, textures)[j] == buf[j]
  {
    forall i | 0 <= i < |sprs|
      ensures Block(Resync(buf, sprs, textures), i) == if sprs[i].dirty then Quad(sprs[i], textures) else Block(buf, i)
    {
      ResyncUpToBlock(buf, sprs, textures, |sprs|, i);
    }
    forall j | QUAD_SIZE * |sprs| <= j < |buf| ensures Resync(buf, sprs, textures)[j] == buf[j] {
      ResyncUpToTail(buf, sprs, textures, |sprs|, j);
    }
  }

  /** With no dirty sprite among those visited, the buffer is unchanged. */
  lemma {:induction false} ResyncUpToClean(buf: seq<real>, sprs: seq<SpriteRenderer>, textures: seq<TexId>, k: nat)
    requires AllWellFormed(sprs) && k <= |sprs| && QUAD_SIZE * |sprs| <= |buf|
    requires forall i :: 0 <= i < k ==> !sprs[i].dirty
    ensures ResyncUpTo(buf, sprs, textures, k) == buf
  {
    if k > 0 {
      ResyncUpToClean(buf, sprs, textures, k - 1);
    }
  }

  /** Marking sprites clean does not change what they encode to. */
  lemma CleanAllKeepsSprites(sprs: seq<SpriteRenderer>)
    ensures |CleanAll(sprs)| == |sprs| && !AnyDirty(CleanAll(sprs))
    ensures AllWellFormed(sprs) ==> AllWellFormed(CleanAll(sprs))
    ensures forall i, textures :: 0 <= i < |sprs| && sprs[i].WellFormed() ==>
      Quad(CleanAll(sprs)[i], textures) == Quad(sprs[i], textures)
  {
  }

  /** Idempotence: a second pass with no change in between finds nothing dirty,
      so it neither re-encodes nor asks for a re-upload. */
  lemma ResyncIdempotent(buf: seq<real>, sprs: seq<SpriteRenderer>, textures: seq<TexId>)
    requires AllWellFormed(sprs) && QUAD_SIZE * |sprs| <= |buf|
    ensures !AnyDirty(CleanAll(sprs))
    ensures AllWellFormed(CleanAll(sprs))
    ensures Resync(Resync(buf, sprs, textures), CleanAll(sprs), textures) == Resync(buf, sprs, textures)
    ensures CleanAll(CleanAll(sprs)) == CleanAll(sprs)
  {
    CleanAllKeepsSprites(sprs);
    ResyncUpToClean(Resync(buf, sprs, textures), CleanAll(sprs), textures, |sprs|);
  }

  /** With only sprite d dirty, the visit leaves the buffer as it was until it
      reaches slot d and spliced at slot d from then on. */
  lemma {:induction false} ResyncUpToSingle(buf: seq<real>, sprs: seq<SpriteRenderer>, textures: seq<TexId>, d: nat, k: nat)
    requires AllWellFormed(sprs) && QUAD_SIZE * |sprs| <= |buf| && d < |sprs| && k <= |sprs|
    requires forall i :: 0 <= i < |sprs| ==> (sprs[i].dirty <==> i == d)
    ensures ResyncUpTo(buf, sprs, textures, k) == if k <= d then buf else Splice(buf, d, Quad(sprs[d], textures))
  {
    if k > 0 {
      ResyncUpToSingle(buf, sprs, textures, d, k - 1);
    }
  }

  /** Dirtying exactly one sprite d re-encodes only slot d. */
  lemma ResyncSingleDirty(buf: seq<real>, sprs: seq<SpriteRenderer>, textures: seq<TexId>, d: nat)
    requires AllWellFormed(sprs) && QUAD_SIZE * |sprs| <= |buf| && d < |sprs|
    requires forall i :: 0 <= i < |sprs| ==> (sprs[i].dirty <==> i == d)
    ensures Resync(buf, sprs, textures) == Splice(buf, d, Quad(sprs[d], textures))
  {
    ResyncUpToSingle(buf, sprs, textures, d, |sprs|);
  }
}
