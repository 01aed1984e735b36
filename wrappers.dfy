/** Optional values, standing for JavaScript's `undefined`/`null` (and, where the source tests
    truthiness, for falsy values such as `0` and `''`). */
module Wrappers {

  datatype Option<+T> = None | Some(value: T) {
    function GetOr(default: T): T {
      match this
      case Some(v) => v
      case None => default
    }
  }

  /** The outcome of an awaited request whose result the model does not inspect: it resolves, or
      it rejects with a message (None when the rejection value has no `message`). */
  datatype Outcome = Resolved | Rejected(message: Option<string>)

  /** `value?.message || fallback`: the message when there is a non-empty one, else the fallback. */
  function MessageOr(message: Option<string>, fallback: string): (r: string)
    ensures message.Some? && message.value != "" ==> r == message.value
    ensures message.None? || message.value == "" ==> r == fallback
  {
    if message.Some? && message.value != "" then message.value else fallback
  }
}
