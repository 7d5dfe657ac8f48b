/** The numbers of the source language, and reading a text as one. */
module JsNumbers {
  datatype JsNumber = NaN | Infinite(negative: bool) | Finite(value: real)

  /** `Number(text)`. */
  type Parse = string -> JsNumber
}
