/** The optional value used wherever the editor may find nothing: a parse that
    fails, a nearest vertex of an empty point list, a pan anchor not yet set. */
module Wrappers {

  datatype Option<+T> = None | Some(value: T)
}
