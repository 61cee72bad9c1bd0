/** The sprite value of components/Sprite.java: a texture (possibly none) and the
    texture coordinates of its four corners. Both fields are set once by a
    constructor and only read afterwards, so a sprite is an immutable value. */
module Sprites {

  /** An optional value; `None` stands for a null reference. */
  datatype Option<+T> = None | Some(value: T)

  /** Textures are identified by an integer handle; two references denote the same
      texture exactly when their handles are equal. */
  type TexId = int

  /** A 2-component vector of scalars (joml's Vector2f). */
  datatype Vec2 = Vec2(x: real, y: real)

  datatype Sprite = Sprite(texture: Option<TexId>, texCords: seq<Vec2>)

  /** The texture-coordinate quad the one-argument constructor installs. */
  function DefaultTexCords(): (c: seq<Vec2>)
    ensures |c| == 4
  {
    [Vec2(1.0, 1.0), Vec2(1.0, 0.0), Vec2(0.0, 0.0), Vec2(0.0, 1.0)]
  }

  /** `new Sprite(texture)` */
  function WithTexture(texture: Option<TexId>): Sprite
  {
    Sprite(texture, DefaultTexCords())
  }

  /** `new Sprite(texture, texCords)` */
  function WithTexCords(texture: Option<TexId>, texCords: seq<Vec2>): Sprite
  {
    Sprite(texture, texCords)
  }

  /** `getTexture()` */
  function GetTexture(s: Sprite): Option<TexId>
  {
    s.texture
  }

  /** `getTexCords()` */
  function GetTexCords(s: Sprite): seq<Vec2>
  {
    s.texCords
  }

  /** The one-argument constructor installs exactly four corners, in this order. */
  lemma DefaultConstructorTexCords(texture: Option<TexId>)
    ensures |GetTexCords(WithTexture(texture))| == 4
    ensures GetTexCords(WithTexture(texture))[0] == Vec2(1.0, 1.0)
    ensures GetTexCords(WithTexture(texture))[1] == Vec2(1.0, 0.0)
    ensures GetTexCords(WithTexture(texture))[2] == Vec2(0.0, 0.0)
    ensures GetTexCords(WithTexture(texture))[3] == Vec2(0.0, 1.0)
  {
  }

  /** Whichever constructor built the sprite, `getTexture()` gives back the
      texture it was passed, `None` included. */
  lemma GetTextureReturnsConstructorArgument(texture: Option<TexId>, texCords: seq<Vec2>)
    ensures GetTexture(WithTexture(texture)) == texture
    ensures GetTexture(WithTexCords(texture, texCords)) == texture
  {
  }

  /** The two-argument constructor keeps the given coordinates unchanged, and
      `getTexCords()` returns exactly them. */
  lemma GetTexCordsReturnsConstructorArgument(texture: Option<TexId>, texCords: seq<Vec2>)
    ensures GetTexCords(WithTexCords(texture, texCords)) == texCords
    ensures WithTexCords(texture, DefaultTexCords()) == WithTexture(texture)
  {
  }
}
