/** Optional values, shared by the dashboard, the gateway and the firmware modules. */
module Options {

  datatype Option<+T> = None | Some(value: T) {
    /** `x || fallback` / `x ?? fallback` for a value that is either missing or present. */
    function GetOr(fallback: T): T {
      match this
      case Some(v) => v
      case None => fallback
    }
  }
}
