/** Colour, font and text-alignment values used by the layers. */
module Paint {

  /** An RGBA colour; `UIColor` and its `cgColor` are the same value here. */
  datatype Color = Color(red: real, green: real, blue: real, alpha: real) {

    /** `withAlphaComponent`: the same hue with its alpha replaced. */
    function WithAlpha(a: real): Color {
      this.(alpha := a)
    }
  }

  const Clear: Color := Color(0.0, 0.0, 0.0, 0.0)
  const Black: Color := Color(0.0, 0.0, 0.0, 1.0)
  const White: Color := Color(1.0, 1.0, 1.0, 1.0)

  /** A font is a family name and a point size. */
  datatype Font = Font(name: string, pointSize: real)

  /** `UIFont.systemFont(ofSize: 10)`. */
  const SystemFont10: Font := Font("system", 10.0)

  /** `CATextLayerAlignmentMode`. */
  datatype Alignment = Natural | Left | Right | Center | Justified
}
