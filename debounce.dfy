/** A trailing-edge debounced function, as lodash's `debounce` builds one.
    Wall-clock time is not modelled: the timer's expiry is an explicit `Fire`
    step that the environment takes whenever it likes. What is modelled is the
    state the wrapper keeps between calls: whether a call is pending and the
    arguments of the latest call. */
module Debounce {
  import opened Feed

  class Debounced<T> {
    /** The arguments of the latest call not yet invoked; `None` when no
        timer is armed. */
    var pending: Option<T>

    constructor ()
      ensures pending == None
    {
      pending := None;
    }

    /** Calling the debounced function (re)arms the timer with the latest
        arguments; earlier arguments are dropped. */
    method Call(x: T)
      modifies this
      ensures pending == Some(x)
    {
      pending := Some(x);
    }

    /** The timer expires: the wrapped function runs once with the latest
        arguments, if any call is pending, and the wrapper goes idle. */
    method Fire() returns (invoked: Option<T>)
      modifies this
      ensures invoked == old(pending)
      ensures pending == None
    {
      invoked := pending;
      pending := None;
    }

    /** `cancel()`: the pending call is dropped without running. */
    method Cancel()
      modifies this
      ensures pending == None
    {
      pending := None;
    }
  }
}
