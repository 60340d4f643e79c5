/** The optional value used for JavaScript's `undefined`/`null` slots of the widget. */
module Optional {

  datatype Option<+T> = None | Some(value: T)

}
