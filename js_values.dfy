/** The few JavaScript value notions the request handlers rely on. */
module JsValues {

  /** A request field that may be missing (`undefined`) or present. */
  datatype Option<+T> = None | Some(value: T)

  /** The outcome of a call that may throw: the value it returned, or the message of the error it threw. */
  datatype Try<+T> = Returned(value: T) | Threw(message: string)

  /** JavaScript truthiness of an optional string input: present and not the empty string. */
  predicate Truthy(v: Option<string>)
  {
    v.Some? && v.value != ""
  }
}
