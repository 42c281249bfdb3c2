/** The nullable references of the renderer (a missing bounding box, an
    absent gradient transform, a length that does not parse) as an Option. */
module Wrappers {

  datatype Option<+T> = None | Some(value: T)
}
