/** The nullable value of the engine's JavaScript source (a temperature, an
    optional outfit slot) as an explicit Option. */
module Wrappers {

  datatype Option<+T> = None | Some(value: T)
}
