/** An optional value, used wherever the source may have nothing to give
    (a missing key, no closing tag, an exception). */
module Options {
  datatype Option<+T> = None | Some(value: T)
}
