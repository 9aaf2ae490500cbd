/**
 * Small shared vocabulary: an optional value, used wherever the source works
 * with a field that may be `null`/`undefined`, and the JavaScript notion of a
 * "truthy" string used by the `x || default` and `if (!x)` idioms.
 */
module Common {

  datatype Option<+T> = None | Some(value: T) {
    function GetOr(default: T): T {
      match this
      case Some(v) => v
      case None => default
    }
  }

  /** The outcome of an operation that may throw: its value, or the thrown error's message. */
  datatype Result<+T> = Success(value: T) | Failure(error: string)

  /** A string-valued field is truthy in JavaScript iff it is present and non-empty. */
  predicate Truthy(s: Option<string>) {
    s.Some? && s.value != ""
  }

  /** `s || fallback` for a possibly-absent string field. */
  function OrElse(s: Option<string>, fallback: string): (r: string)
    ensures Truthy(s) ==> r == s.value
    ensures !Truthy(s) ==> r == fallback
  {
    if Truthy(s) then s.value else fallback
  }

  /** Document `_id`s. The source's ObjectIds are fresh values; the model draws them from counters. */
  type UserId = nat
  type ReportId = nat
  type PlanId = nat
  type UserPlanId = nat

  /** Milliseconds since the epoch, as `Date.now()` returns them. */
  type Millis = nat
}
