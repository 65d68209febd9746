/** Small value types shared by every component of the model. */
module Wrappers {

  /** A value that may be absent (`Option` in Rust, `T | undefined` or `T | null` in TypeScript). */
  datatype Option<+T> = None | Some(value: T) {
    function GetOr(default: T): T {
      match this
      case Some(v) => v
      case None => default
    }
  }

  /** A select control whose first entry is `'all'` and whose other entries name one value. */
  datatype Choice<+T> = All | Only(choice: T)

  /** The HTTP status codes the back-end handlers return. */
  datatype Status = Ok | Created | NoContent | NotFound {
    function Code(): nat {
      match this
      case Ok => 200
      case Created => 201
      case NoContent => 204
      case NotFound => 404
    }
  }
}
