/** The pieces of the JavaScript runtime the editors lean on, kept abstract.

    Number parsing and printing are not modelled: a `Runtime` value carries
    them as uninterpreted total functions, so every property proved here holds
    for every choice of them. */
module Js {

  /** `None` stands for JavaScript's NaN where a parse result is meant, and
      for `null` where an optional id is meant. */
  datatype Option<T> = None | Some(value: T)

  /** JavaScript truthiness of a string: only the empty string is falsy, so
      `"0"` and `" "` pass a `!field` guard. */
  predicate Truthy(s: string) {
    s != ""
  }

  /** The number conversions the components call.
      - `parseFloat`: `None` exactly when JavaScript's `parseFloat` yields NaN;
      - `parseInt`: likewise for `parseInt`;
      - `numberToString`: `Number.prototype.toString` on an amount;
      - `intToString`: `Number.prototype.toString` on an id. */
  datatype Runtime = Runtime(
    parseFloat: string -> Option<real>,
    parseInt: string -> Option<int>,
    numberToString: real -> string,
    intToString: int -> string)
}
