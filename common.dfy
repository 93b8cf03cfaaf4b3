/** An optional value: stands for a JavaScript field that may be absent (undefined). */
module Common {
  datatype Option<+T> = None | Some(value: T)
}
