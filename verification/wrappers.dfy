/** Nullable references of the slider (`Media?`, a view's `tag`) as an option value. */
module Wrappers {

  datatype Option<+T> = None | Some(value: T)
}
