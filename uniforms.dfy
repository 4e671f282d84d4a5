/** The values a widget writes into its render context's uniform map. */
module Uniforms {
  import opened Colors

  datatype Uniform =
    | IntUniform(i: int)              // a texture unit index
    | FloatUniform(f: real)           // `float`
    | Vec2Uniform(x: real, y: real)   // `vec2`
    | Vec4Uniform(c: Color)           // `vec4`

  /** The uniform map of a render context, keyed by uniform name. */
  type UniformMap = map<string, Uniform>
}
