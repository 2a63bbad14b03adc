/**
 * The language-model and agent calls the system makes are library code and
 * not part of this model: each call is a parameter of the operation that
 * makes it, and its effect is reduced to what the caller inspects.
 */
module Llm {
  /** What a call did: produced content, or raised with a message. */
  datatype Outcome = Responded(content: string) | Raised(error: string)
}
