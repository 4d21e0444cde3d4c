/** A value that may be absent: an unmounted element, a missing image, an estimate not yet computed. */
module Optional {
  datatype Option<T> = None | Some(value: T)
}
