/** Python's None-or-value, as used for the importer's optional offsets and
    for regular-expression match results. */
module Wrappers {

  datatype Option<+T> = None | Some(value: T)
}
