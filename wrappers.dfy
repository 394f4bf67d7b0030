/** Option, Result and the shape of a Go `error` value, shared by every module. */
module Wrappers {

  datatype Option<T> = None | Some(value: T)

  /** A Go `error`. A `Sentinel` stands for a package-level error variable that the
      source compares by identity (`err == migrate.ErrNoChange`); a `Message` is an
      `errors.New` value; `Wrapped` is what `fmt.Errorf("<context>: %w", cause)` builds. */
  datatype Error = Sentinel(name: string) | Message(text: string) | Wrapped(context: string, cause: Error)
  {
    /** The text `err.Error()` yields. */
    function Text(): string
    {
      match this
      case Sentinel(n) => n
      case Message(t) => t
      case Wrapped(c, e) => c + ": " + e.Text()
    }

    /** `errors.Is(this, target)`: this error or one it wraps is `target`. */
    predicate Is(target: Error)
    {
      this == target || (Wrapped? && cause.Is(target))
    }
  }

  /** The `(value, error)` pair of a Go function: exactly one side is meaningful. */
  datatype Result<T> = Ok(value: T) | Err(error: Error)
}
