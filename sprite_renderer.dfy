/** What a batch reads from a sprite component: its transform's position and
    scale, its colour, its texture and texture coordinates, and whether it has
    changed since it was last encoded. The component itself belongs to the rest
    of the engine; here it is plain data. */
module SpriteRenderers {
  import opened Sprites

  /** A 4-component vector of scalars (joml's Vector4f), used for RGBA colour. */
  datatype Vec4 = Vec4(x: real, y: real, z: real, w: real)

  datatype SpriteRenderer = SpriteRenderer(
    position: Vec2,
    scale: Vec2,
    color: Vec4,
    texture: Option<TexId>,
    texCords: seq<Vec2>,
    dirty: bool)
  {
    /** The encoder reads one texture coordinate per corner. */
    predicate WellFormed()
    {
      |texCords| >= 4
    }

    /** `setClean()` */
    function Cleaned(): (r: SpriteRenderer)
      ensures !r.dirty && r.(dirty := dirty) == this
    {
      this.(dirty := false)
    }
  }
}
