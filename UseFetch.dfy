/**
 * The request-state hook of `hooks/use-fetch.jsx`: `data`, `loading` and
 * `error` around one asynchronous callback. A call marks the state loading
 * and clears the error, then records either the response or the thrown
 * value, and always ends not loading. State updates are taken in the order
 * the code issues them.
 */
module UseFetch {
  import opened Wrappers

  /** How the awaited callback ended. */
  datatype Outcome<T, E> = Resolved(response: T) | Threw(err: E)

  /** The toast text: the error's message, or a fixed fallback when it is empty or missing. */
  function ToastText(message: Option<string>): (r: string)
    ensures message.Some? && message.value != "" ==> r == message.value
    ensures message.None? || message.value == "" ==> r == "Something went wrong"
  {
    if message.Some? && message.value != "" then message.value else "Something went wrong"
  }

  class FetchState<T, E> {
    var data: Option<T>
    var loading: bool
    var error: Option<E>

    /** A call never leaves both a response and an error behind. */
    predicate Consistent()
      reads this
    {
      !(data.Some? && error.Some?)
    }

    constructor ()
      ensures data.None? && !loading && error.None?
      ensures Consistent()
    {
      data := None;
      loading := false;
      error := None;
    }

    /** The state while the callback runs: loading, no error, the previous data kept. */
    method Start()
      modifies this
      ensures loading && error.None? && data == old(data)
    {
      loading := true;
      error := None;
    }

    /** The `try`/`catch`/`finally` after the callback settles, from the state `Start` leaves. */
    method Finish(outcome: Outcome<T, E>) returns (r: Option<T>)
      requires error.None?
      modifies this
      ensures !loading && Consistent()
      ensures outcome.Resolved? ==> data == Some(outcome.response) && error.None? && r == Some(outcome.response)
      ensures outcome.Threw? ==> data.None? && error == Some(outcome.err) && r.None?
    {
      match outcome {
        case Resolved(response) =>
          data := Some(response);
          r := Some(response);
        case Threw(err) =>
          error := Some(err);
          data := None;
          r := None;
      }
      loading := false;
    }

    /**
     * `fn(...args)`: the response on success, `undefined` on failure (the
     * error is kept, not rethrown); never loading afterwards, and never
     * both data and error.
     */
    method Fn(outcome: Outcome<T, E>) returns (r: Option<T>)
      modifies this
      ensures !loading && Consistent()
      ensures outcome.Resolved? ==> data == Some(outcome.response) && error.None? && r == Some(outcome.response)
      ensures outcome.Threw? ==> data.None? && error == Some(outcome.err) && r.None?
    {
      Start();
      r := Finish(outcome);
    }

    /**
     * The exposed `setData`: it writes `data` and nothing else, so after a
     * failed call it can leave data and error both set.
     */
    method SetData(d: Option<T>)
      modifies this
      ensures data == d && error == old(error) && loading == old(loading)
    {
      data := d;
    }
  }
}
