/** The notifications the pages show. */
module Toasts {

  import opened Text

  /** A notification; `destructive` is the error style. */
  datatype Toast = Toast(title: String, description: String, destructive: bool)
}
