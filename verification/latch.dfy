/** The two-bit latch that `NotifyOnce` refines. */
module Latches {

  /**
   The latch as the rest of the server sees it. `stored`: some call has stored the flag.
   `finished`: some call has also broadcast, so some call of `notify_waiters` is past its effect.
   */
  datatype Latch = Latch(stored: bool, finished: bool) {

    /**
     What one poll of `notified()` answers: the first poll loads the flag, every later poll sees
     only the broadcast. NotifyOnceModel justifies both halves:
     FirstPollReadsTheFlag and LaterPollReadsTheBroadcast.
     */
    predicate Seen(first: bool) {
      if first then stored else finished
    }

    function Store(): Latch {
      this.(stored := true)
    }

    function Broadcast(): Latch {
      this.(finished := true)
    }

    /** Latches only move forward. */
    predicate Before(later: Latch) {
      (stored ==> later.stored) && (finished ==> later.finished)
    }

    predicate Valid() {
      finished ==> stored
    }
  }

  const CLOSED := Latch(false, false)
}
