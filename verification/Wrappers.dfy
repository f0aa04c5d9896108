/** Error returns: the Rust `Result` and the possibly missing value. */
module Wrappers {
  datatype Option<+T> = None | Some(value: T)

  datatype Result<+T, +E> = Ok(value: T) | Err(error: E)

  /** `r` and the new state are what `expected` says; an error leaves the state alone. */
  ghost predicate Answers<S, E>(r: Result<(), E>, expected: Result<S, E>, before: S, after: S) {
    match expected
    case Ok(s) => r == Ok(()) && after == s
    case Err(e) => r == Err(e) && after == before
  }

  // --- checks made one after the other ------------------------------------------------------------

  /** When the check fails, and what is answered then. */
  datatype Check<E> = Check(fails: bool, error: E)

  function FirstFailure<E>(checks: seq<Check<E>>): Option<E> {
    if checks == [] then None
    else if checks[0].fails then Some(checks[0].error) else FirstFailure(checks[1..])
  }

  lemma {:induction false} FirstOfSeven<E>(c: seq<Check<E>>)
    requires |c| <= 7
    ensures FirstFailure(c)
            == if |c| > 0 && c[0].fails then Some(c[0].error)
               else if |c| > 1 && c[1].fails then Some(c[1].error)
               else if |c| > 2 && c[2].fails then Some(c[2].error)
               else if |c| > 3 && c[3].fails then Some(c[3].error)
               else if |c| > 4 && c[4].fails then Some(c[4].error)
               else if |c| > 5 && c[5].fails then Some(c[5].error)
               else if |c| > 6 && c[6].fails then Some(c[6].error)
               else None
  {
    if c != [] {
      FirstOfSeven(c[1..]);
    }
  }
}
