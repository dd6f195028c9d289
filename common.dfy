/** Values shared by every part of the model. */
module Common {

  /** Python's `None` or a present value. */
  datatype Option<+T> = None | Some(value: T) {
    /** `d.get(key, default)` once the lookup has produced this option. */
    function GetOr(default: T): T {
      match this
      case Some(v) => v
      case None => default
    }
  }

  /** A call that returns a value or raises. */
  datatype Result<+T, +E> = Ok(value: T) | Err(error: E)

  /** A Qiita tag, the JSON object {"name": ..., "versions": [...]}. */
  datatype Tag = Tag(name: string, versions: seq<string>)
}
