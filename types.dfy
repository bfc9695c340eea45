/** Plain values shared by the dynamic-light model: optional values, bytes,
    2D points and colours.  Engine floats are modelled as exact reals. */
module LightTypes {

  datatype Option<+T> = None | Some(value: T)

  newtype byte = x: int | 0 <= x < 256

  /** A 2D point or vector of the scene graph (cocos2d `Point`/`Vec2`). */
  datatype Point = Point(x: real, y: real)

  /** An RGBA colour with 8-bit channels (cocos2d `Color4B`). */
  datatype Color4B = Color4B(r: byte, g: byte, b: byte, a: byte)

  /** An RGB colour with 8-bit channels (cocos2d `Color3B`). */
  datatype Color3B = Color3B(r: byte, g: byte, b: byte)

  /** A clear colour with float channels, as passed to `beginWithClear`. */
  datatype Color4F = Color4F(r: real, g: real, b: real, a: real)

  const White: Color3B := Color3B(255, 255, 255)
  const Transparent: Color4F := Color4F(0.0, 0.0, 0.0, 0.0)
}
