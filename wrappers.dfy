/** The optional value used wherever the source reads a possibly missing entry
    (`find`, `Map.get`, `indexOf`, a record key that may be absent). */
module Wrappers {

  datatype Option<+T> = None | Some(value: T) {

    /** `value ?? fallback` */
    function GetOr(fallback: T): T
    {
      match this
      case Some(v) => v
      case None => fallback
    }
  }
}
