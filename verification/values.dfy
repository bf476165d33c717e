/** Value shapes shared across the browser and the server. */
module Values {

  /** An optional value; `None` stands for JavaScript `null` or Python `None`. */
  datatype Option<+T> = None | Some(value: T)

  /** A JavaScript value that is either a string or `undefined`.  It arises
      when the browser indexes past the end of an empty question list, and
      JSON serialisation drops object keys whose value is `undefined`. */
  datatype JsText = Text(s: string) | Undefined
}
