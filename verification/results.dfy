/**
 * Failure-carrying values shared by the registry, the projection builder and
 * the conversion facade. The source returns `anyhow::Error`; the model keeps
 * the two kinds of error the core raises apart and renders their messages.
 */
module Results {

  /** Why a conversion failed. */
  datatype Error =
    | UnknownTheatre(theatre: string)        // no projection registered for this name
    | ProjectionInitFailed(detail: string)   // the projection engine refused the definition

  /** The human-readable message the error carries. */
  function Message(e: Error): (m: string)
    ensures e.UnknownTheatre? ==> |m| == |UnknownPrefix| + |e.theatre|
    ensures e.UnknownTheatre? ==> m[..|UnknownPrefix|] == UnknownPrefix && m[|UnknownPrefix|..] == e.theatre
    ensures e.ProjectionInitFailed? ==> m == e.detail
  {
    match e
    case UnknownTheatre(t) => UnknownPrefix + t
    case ProjectionInitFailed(d) => d
  }

  const UnknownPrefix: string := "TransverseMercator not known for "

  /** Success with a value, or failure with an `Error`; usable with `:-`. */
  datatype Result<+T> = Ok(value: T) | Err(error: Error) {
    predicate IsFailure() {
      Err?
    }

    function PropagateFailure<U>(): Result<U>
      requires Err?
    {
      Err(error)
    }

    function Extract(): T
      requires Ok?
    {
      value
    }
  }

  datatype Option<+T> = None | Some(value: T)
}
