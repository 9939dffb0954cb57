/** Values shared by the server and the client: JavaScript's nullable strings and their truthiness. */
module JsValues {

  /** A value that may be `null` (or `undefined`) in the JavaScript code. */
  datatype Option<+T> = None | Some(value: T)

  /** JavaScript truthiness of a nullable string: present and not the empty string. */
  predicate Truthy(s: Option<string>)
  {
    s.Some? && s.value != ""
  }

  /** `s.includes('<')`: the markup test both the server and the client apply to a body. */
  predicate LooksLikeMarkup(s: string)
  {
    '<' in s
  }
}
