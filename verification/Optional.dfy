/** An optional value: a form field or cookie that may be absent (JavaScript `null`/`undefined`). */
module Optional {
  datatype Option<+T> = None | Some(value: T)
}
