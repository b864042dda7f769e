/** Cooperative cancellation of a superseded query (cancel.rs). */
module Cancel {

  const CHECK_INTERVAL: nat := 65536
  const WRAP: nat := 0x1_0000_0000

  /** A query's generation. A newer request may move it on at any poll; it never moves back. */
  class Cancellation {
    var superseded: bool

    constructor ()
      ensures !superseded
    {
      superseded := false;
    }

    method IsCancelled() returns (c: bool)
      modifies this
      ensures c == superseded && (old(superseded) ==> superseded)
    {
      if * {
        superseded := true;
      }
      c := superseded;
    }
  }

  function Flag(cancel: Cancellation?): set<object> {
    if cancel == null then {} else {cancel}
  }

  ghost predicate Superseded(cancel: Cancellation?)
    reads Flag(cancel)
  {
    cancel != null && cancel.superseded
  }

  method Poll(cancel: Cancellation?) returns (c: bool)
    modifies Flag(cancel)
    ensures c == Superseded(cancel) && (old(Superseded(cancel)) ==> Superseded(cancel))
  {
    c := false;
    if cancel != null {
      c := cancel.IsCancelled();
    }
  }

  /** is_cancelled_periodically: looks at the flag once every 65536 calls. */
  method PollPeriodically(cancel: Cancellation?, checked: nat) returns (c: bool, next: nat)
    modifies Flag(cancel)
    ensures c ==> Superseded(cancel)
    ensures old(Superseded(cancel)) ==> Superseded(cancel)
    ensures cancel == null ==> next == checked
    ensures cancel != null ==> next == (checked + 1) % WRAP
    ensures cancel != null && next % CHECK_INTERVAL == 0 ==> c == cancel.superseded
    ensures cancel != null && next % CHECK_INTERVAL != 0 ==> !c && cancel.superseded == old(cancel.superseded)
  {
    c, next := false, checked;
    if cancel == null {
      return;
    }
    next := (checked + 1) % WRAP;
    if next % CHECK_INTERVAL == 0 {
      c := cancel.IsCancelled();
    }
  }
}
