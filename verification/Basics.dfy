/** Small vocabulary shared by every module. */
module Basics {

  datatype Option<+T> = None | Some(value: T)

  /** `value ?? fallback` */
  function GetOr<T>(o: Option<T>, fallback: T): T {
    match o
    case None => fallback
    case Some(v) => v
  }
}
