/** `FirstRequestService` (src/server.rs:531-565): of all calls on all its clones, the first one sends. */
module FirstRequest {

  /**
   The mutex shared by all clones: `armed` while it holds the sender. `sent` counts the messages
   received on the channel, `calls` the calls dispatched through any clone.
   */
  class Slot {
    var armed: bool
    var sent: nat
    var calls: nat

    constructor ()
      ensures Valid() && armed && sent == 0 && calls == 0
    {
      armed, sent, calls := true, 0, 0;
    }

    /** Nothing has been sent before the first call, and exactly one message since. */
    predicate Valid()
      reads this
    {
      && (armed <==> calls == 0)
      && sent == if calls == 0 then 0 else 1
    }
  }

  class FirstRequestService {
    const notify: Slot?

    constructor (notify: Slot?)
      ensures this.notify == notify
    {
      this.notify := notify;
    }

    /** A clone shares the slot. */
    method Clone() returns (c: FirstRequestService)
      ensures fresh(c) && c.notify == notify
    {
      c := new FirstRequestService(notify);
    }

    method Call()
      requires notify != null ==> notify.Valid()
      modifies notify
      ensures notify != null ==> notify.Valid() && notify.calls == old(notify.calls) + 1
      ensures notify != null ==> notify.sent == old(notify.sent) + (if old(notify.calls) == 0 then 1 else 0)
    {
      if notify != null {
        notify.calls := notify.calls + 1;
        if notify.armed {
          notify.armed := false;
          notify.sent := notify.sent + 1;
        }
      }
    }
  }

  /**
   Any calls, each on a new clone of any of the clones, in any order: one message if there was a call
   at all, sent by the first.
   */
  method Dispatch(slot: Slot, clones: seq<FirstRequestService>)
    requires slot.Valid() && slot.calls == 0
    requires forall c :: c in clones ==> c.notify == slot
    modifies slot
    ensures slot.Valid() && slot.calls == |clones|
    ensures slot.sent == if clones == [] then 0 else 1
  {
    for k := 0 to |clones|
      invariant slot.Valid() && slot.calls == k
    {
      var c := clones[k].Clone();
      c.Call();
    }
  }
}
