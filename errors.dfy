/**
  Go `error` values as the core builds them: a leaf error with its message, or a
  wrapper made by `fmt.Errorf("<context> %w", cause)` that keeps its cause
  reachable through `errors.Unwrap`.
*/
module Errors {

  datatype Error = Failure(msg: string) | Wrapped(context: string, cause: Error) {

    /** `err.Error()`: a wrapper prints its context, a space, then its cause. */
    function Text(): string {
      match this
      case Failure(m) => m
      case Wrapped(c, e) => c + " " + e.Text()
    }

    /** The innermost error, reached by unwrapping until a leaf. */
    function Root(): Error {
      match this
      case Failure(_) => this
      case Wrapped(_, e) => e.Root()
    }

    /** How many `%w` wrappers sit on top of the root. */
    function Depth(): nat {
      match this
      case Failure(_) => 0
      case Wrapped(_, e) => 1 + e.Depth()
    }

    /** `errors.Is(this, target)`: `target` is this error or one it wraps. */
    predicate Is(target: Error) {
      this == target || (Wrapped? && cause.Is(target))
    }
  }

  /** `fmt.Errorf("<context> %v", cause)`: the cause's text is copied and its chain is lost. */
  function Flatten(context: string, cause: Error): (e: Error)
    ensures e.Failure? && e.Depth() == 0
    ensures e.Text() == context + " " + cause.Text()
  {
    Failure(context + " " + cause.Text())
  }
}
