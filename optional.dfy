/** A value that may be absent: a JavaScript property that is `undefined`
    or `null`, or a click that issues no page change. */
module Optional {
  datatype Option<+T> = None | Some(value: T)
}
