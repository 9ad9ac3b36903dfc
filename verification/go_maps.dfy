/** The captured Go value `map[string]int`, with the nil map kept apart from
    an empty one. Only the Nil/NotNil checks and the renderer tell the two
    apart; every other check sees a nil map as having no entries. */
module GoMaps {
  import opened Wrappers

  /** `None` is the nil map. */
  type GoMap = Option<map<string, int>>

  /** The entries a Go program observes: ranging over or indexing a nil map
      behaves as for an empty one. */
  function Entries(g: GoMap): map<string, int>
  {
    match g
    case None => map[]
    case Some(m) => m
  }

  /** Go's `len`, which is 0 for a nil map. */
  function Len(g: GoMap): nat
  {
    |Entries(g)|
  }
}
