/** Layer names, host matrices and the opaque strategy values the builders pass along. */
module Names {

  /**
   * A layer name (`String?` in the source). The body of `concatenateNames` is not part of
   * this model, so a derived name is kept as the pair it was built from.
   */
  datatype LayerName =
    | Unnamed
    | Named(text: string)
    | Concatenated(prefix: LayerName, suffix: string)

  /** `concatenateNames(name, suffix)`. */
  function ConcatenateNames(name: LayerName, suffix: string): (r: LayerName)
    ensures r.Concatenated? && r.prefix == name && r.suffix == suffix
  {
    Concatenated(name, suffix)
  }
}
