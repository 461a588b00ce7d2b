/** Small shared vocabulary: an optional value, identifiers, instants and months. */
module Common {

  /** A value that may be missing, as an omitted JSON field or query parameter is. */
  datatype Option<+T> = None | Some(value: T) {

    /** The carried value, or `default` when there is none. */
    function GetOr(default: T): T {
      match this
      case Some(v) => v
      case None => default
    }
  }

  /** Identifier the store assigns to a document on creation (an ObjectId in the service). */
  type Id = nat

  /** An instant; the model only compares instants and asks for their calendar month. */
  type Date = int

  /** A calendar month, January = 1 through December = 12. */
  type Month = m: int | 1 <= m <= 12 witness 1
}
