/** Small helper datatypes shared by the other modules. */
module Wrappers {

  /** A Kotlin nullable value: `None` is `null`. */
  datatype Option<+T> = None | Some(value: T)

  /** A Mastodon status id, as the API sends it. */
  type Id = string
}
