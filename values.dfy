/**
 * The data model of the booking-form filler: the booking data tree, the tree of
 * drawing positions, the placements produced from them, and the Python exceptions
 * the mapping can raise.
 */
module Values {

  /** A calendar date, as three integers; calendar validity is not checked by the mapping. */
  datatype Date = Date(year: int, month: int, day: int)

  /** A scalar Python value that the booking data can hold. */
  datatype Scalar = StrValue(s: string) | IntValue(i: int) | DateValue(date: Date)

  /**
   * A nested Python structure: dicts keyed by field name, lists, and leaves.
   * The booking data is a Tree<Scalar>; the position registry is a Tree<DrawingPosition>.
   */
  datatype Tree<+L> = Leaf(value: L) | Dict(entries: map<string, Tree<L>>) | List(items: seq<Tree<L>>)

  /** A coordinate on the form page, with the font size and character spacing to draw with. */
  datatype DrawingPosition = DrawingPosition(x: int, y: int, fontSize: int := 10, charSpace: int := 0)

  type DataTree = Tree<Scalar>
  type PosTree = Tree<DrawingPosition>

  /** One step of a path: a dict key or a list index (Python `ret[key]`). */
  datatype Key = Name(name: string) | Index(index: int)

  type Path = seq<Key>

  /**
   * A text to draw and the node of the position registry it was paired with.
   * Python stores whatever node it finds; only the renderer needs it to be a DrawingPosition.
   */
  datatype TextOnPage = TextOnPage(text: string, position: PosTree)

  /** The placement can be handed to the renderer: its position is a DrawingPosition. */
  predicate Drawable(t: TextOnPage) {
    t.position.Leaf?
  }

  /** The Python exceptions the mapping raises, with what the message carries. */
  datatype Error =
    | KeyError(key: Key)                               // dict lookup of a missing key
    | IndexError(index: int)                            // list index out of range
    | TypeError(key: Key)                               // subscript of a non-container, or a list by name
    | AttributeError(attribute: string)                 // a formatter given a value of the wrong type
    | RuntimeError(selectable: seq<string>, got: DataTree) // a selection value that is not selectable
    | AssertionError(parts: nat)                        // a phone number that does not split into 3 parts
    | NoStringForm                                      // str() of a dict or list (its repr is not modelled)
}
