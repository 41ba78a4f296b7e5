/** Value types shared by the drawing, sprite and animation models: the
    engine's small vector, size, rectangle and colour structs. Floats are
    modelled as `real`; a colour channel stored in a byte is a `Byte`. */
module Types {

  datatype Option<T> = None | Some(value: T)

  /** An 8-bit unsigned colour channel (`GLubyte`). */
  type Byte = x: int | 0 <= x < 256

  /** `Vec2`, also used for `Tex2F` texture coordinates. */
  datatype Vec2 = Vec2(x: real, y: real)

  const Zero2 := Vec2(0.0, 0.0)

  /** `Vec3`: the position of a sprite quad corner. */
  datatype Vec3 = Vec3(x: real, y: real, z: real)

  datatype Size = Size(width: real, height: real)

  datatype Rect = Rect(origin: Vec2, size: Size)

  /** `Color4F`: a colour with float channels. */
  datatype Color4F = Color4F(r: real, g: real, b: real, a: real)

  /** `Color3B` and `Color4B`: colours with byte channels. */
  datatype Color3B = Color3B(r: Byte, g: Byte, b: Byte)
  datatype Color4B = Color4B(r: Byte, g: Byte, b: Byte, a: Byte)

  const White4B := Color4B(255, 255, 255, 255)
  const Clear4B := Color4B(0, 0, 0, 0)

  /** The two blend modes the engine picks between: `ALPHA_PREMULTIPLIED`
      and `ALPHA_NON_PREMULTIPLIED`. */
  datatype BlendFunc = AlphaPremultiplied | AlphaNonPremultiplied

  function Max(a: int, b: int): int { if a < b then b else a }
}
