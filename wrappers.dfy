/** The optional value used for Qt's "invalid" results (an empty QVariant, a colour that does not parse). */
module Wrappers {
  datatype Option<+T> = None | Some(value: T)
}
