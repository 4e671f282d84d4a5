/** RGBA colours as the widgets and shaders use them: four real channels. */
module Colors {

  /** A colour as stored by a colour property and passed to a `vec4` uniform. */
  datatype Color = Color(r: real, g: real, b: real, a: real)

  /** The default colour of a colour stop and of the canvas `Color` instruction. */
  const White: Color := Color(1.0, 1.0, 1.0, 1.0)

  /** Opaque black, the colour table's `black`. */
  const Black: Color := Color(0.0, 0.0, 0.0, 1.0)

  /** The channels in the order `r, g, b, a`, as a tuple of the colour lists them. */
  function Channels(c: Color): (s: seq<real>)
    ensures |s| == 4
  {
    [c.r, c.g, c.b, c.a]
  }

  /** Channel `k` (0 = red ... 3 = alpha). */
  function Channel(c: Color, k: nat): real
    requires k < 4
  {
    Channels(c)[k]
  }

  /** The colour whose channels are `s`; inverse of `Channels`. */
  function FromChannels(s: seq<real>): (c: Color)
    requires |s| == 4
    ensures Channels(c) == s
  {
    Color(s[0], s[1], s[2], s[3])
  }

  /** GLSL component-wise product of two `vec4`s (`frag_color * colour`). */
  function Modulate(f: Color, c: Color): (m: Color)
    ensures forall k :: 0 <= k < 4 ==> Channel(m, k) == Channel(f, k) * Channel(c, k)
  {
    Color(f.r * c.r, f.g * c.g, f.b * c.b, f.a * c.a)
  }

  lemma ModulateByWhite(c: Color)
    ensures Modulate(White, c) == c
  {
  }
}
