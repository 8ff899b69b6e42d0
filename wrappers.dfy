/** The optional value used for an engine object that may be null and for a droplet step that ends the droplet. */
module Wrappers {

  datatype Option<+T> = None | Some(value: T)
}
