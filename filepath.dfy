/**
 * Paths as sequences of components. `filepath.Join` is concatenation of
 * component sequences; its lexical clean-up (`..`, repeated separators) is
 * not modelled.
 */
module FilePath {

  /**
   * A Go path string is represented by its non-empty components, so the
   * empty string "" is `[]`; a sequence holding an empty component has no
   * Go counterpart, and decoders are taken to produce none.
   */
  type Path = seq<string>

  /** The directory holding `p` (`filepath.Dir` on an un-cleaned path). */
  function Parent(p: Path): (d: Path)
    requires p != []
    ensures |d| == |p| - 1
    ensures p == d + [Base(p)]
  {
    p[..|p| - 1]
  }

  /** The final component of `p` (`filepath.Base`). */
  function Base(p: Path): string
    requires p != []
  {
    p[|p| - 1]
  }
}
