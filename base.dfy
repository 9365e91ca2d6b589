/** Values shared by every panel of the wizard. */
module Base {

  /** A value that may be missing (a `null`/`undefined` slot, an absent patch key). */
  datatype Option<+T> = None | Some(value: T)

  /** The value of `o` if present, otherwise `fallback` (the `...prev, ...data` choice per key). */
  function Pick<T>(o: Option<T>, fallback: T): T
  {
    match o
    case Some(v) => v
    case None => fallback
  }

  /** A browser `File` handle; its contents and MIME type are not modelled. */
  datatype File = File(name: string, size: nat)
}
