// hvac_wait_fd_ready: a bounded wait on the status of one fd.
module Waiting {
  import opened Files
  import opened FdTables

  datatype Time = Time(sec: int, nsec: int)

  const SECOND := 1_000_000_000

  function Nanos(t: Time): int { t.sec * SECOND + t.nsec }

  predicate Normal(t: Time) { 0 <= t.nsec < SECOND }

  predicate Before(a: Time, b: Time) { a.sec < b.sec || (a.sec == b.sec && a.nsec < b.nsec) }

  // The absolute deadline the code computes: it lies exactly timeoutMs after `now` and is
  // normalised, as pthread_cond_timedwait demands.
  function Deadline(now: Time, timeoutMs: nat): (d: Time)
    requires Normal(now)
    ensures Normal(d)
    ensures Nanos(d) == Nanos(now) + timeoutMs * 1_000_000
  {
    var sec, nsec := now.sec + timeoutMs / 1000, now.nsec + timeoutMs % 1000 * 1_000_000;
    if nsec >= SECOND then Time(sec + 1, nsec - SECOND) else Time(sec, nsec)
  }

  lemma OrderIsNanos(a: Time, b: Time)
    requires Normal(a) && Normal(b)
    ensures Before(a, b) <==> Nanos(a) < Nanos(b)
  {
  }

  // One return of pthread_cond_timedwait: whether it timed out, when, and the status the
  // waiter then finds.  Signals and spurious wakeups are both possible.
  datatype Wakeup = Wakeup(timedOut: bool, at: Time, state: FdState)

  // A timeout is reported only once the deadline, which must be normalised, has passed.
  predicate TimedWait(deadline: Time, w: Wakeup)
  {
    Normal(deadline) && Normal(w.at) && (w.timedOut ==> !Before(w.at, deadline))
  }

  class FdStatus {
    var state: FdState

    constructor ()
      ensures state == OPENING
    {
      state := OPENING;
    }
  }

  // The wakeup at which the wait ends: the first that timed out or found the fd settled.
  ghost predicate EndsAt(wakes: seq<Wakeup>, j: nat)
  {
    && j < |wakes| && (wakes[j].timedOut || wakes[j].state != OPENING)
    && forall i :: 0 <= i < j ==> !wakes[i].timedOut && wakes[i].state == OPENING
  }

  // What the wait says of an fd whose status was `st` on entry.
  function Answer(st: Option<FdState>, wakes: seq<Wakeup>): bool
  {
    match st
    case None => false
    case Some(READY) => true
    case Some(ERROR) => false
    case Some(OPENING) => WakesReady(wakes)
  }

  // Whether the wakeup that ends the wait finds the fd READY.
  function WakesReady(wakes: seq<Wakeup>): bool
    decreases |wakes|
  {
    wakes != [] && !wakes[0].timedOut &&
    (if wakes[0].state == OPENING then WakesReady(wakes[1..]) else wakes[0].state == READY)
  }

  // The status the wait leaves behind: what the other threads had made of it when it ended.
  function EndState(wakes: seq<Wakeup>): FdState
    decreases |wakes|
  {
    if wakes == [] then OPENING
    else if wakes[0].timedOut || wakes[0].state != OPENING then wakes[0].state
    else EndState(wakes[1..])
  }

  lemma {:induction false} WakesReadyIff(wakes: seq<Wakeup>, j: nat)
    requires EndsAt(wakes, j)
    ensures WakesReady(wakes) <==> !wakes[j].timedOut && wakes[j].state == READY
    ensures EndState(wakes) == wakes[j].state
    decreases j
  {
    if j > 0 {
      assert EndsAt(wakes[1..], j - 1);
      WakesReadyIff(wakes[1..], j - 1);
    }
  }

  // True exactly when the fd is READY on entry, or the wait ends by finding it READY
  // without a timeout; a timeout is never early.
  method WaitFdReady(status: FdStatus?, now: Time, timeoutMs: nat, wakes: seq<Wakeup>)
    returns (ready: bool, ghost ended: int)
    requires Normal(now)
    requires forall i :: 0 <= i < |wakes| ==> TimedWait(Deadline(now, timeoutMs), wakes[i])
    // timedwait does not wait for ever
    requires status != null && status.state == OPENING ==>
               exists i :: 0 <= i < |wakes| && (wakes[i].timedOut || wakes[i].state != OPENING)
    modifies status
    ensures status == null ==> !ready
    ensures status != null && old(status.state) != OPENING ==>
              ready == (old(status.state) == READY) && ended == -1 && status.state == old(status.state)
    ensures status != null && old(status.state) == OPENING ==>
              && ended >= 0 && EndsAt(wakes, ended)
              && ready == (!wakes[ended].timedOut && wakes[ended].state == READY)
              && status.state == wakes[ended].state == EndState(wakes)
              && (wakes[ended].timedOut ==> Nanos(wakes[ended].at) >= Nanos(now) + timeoutMs * 1_000_000)
    ensures ready ==> status != null && status.state == READY
    ensures ready == Answer(if status == null then None else Some(old(status.state)), wakes)
  {
    ended := -1;
    if status == null {
      return false, -1;
    }
    if status.state == READY || status.state == ERROR {
      return status.state == READY, -1;
    }
    var deadline := Deadline(now, timeoutMs);
    var i := 0;
    while status.state == OPENING
      invariant 0 <= i <= |wakes| && -1 <= ended
      invariant status.state == OPENING ==> forall m :: 0 <= m < i ==> !wakes[m].timedOut && wakes[m].state == OPENING
      invariant status.state != OPENING ==>
                  && i > 0 && EndsAt(wakes, i - 1) && !wakes[i - 1].timedOut
                  && status.state == wakes[i - 1].state && ended == i - 1
      decreases |wakes| - i, if status.state == OPENING then 1 else 0
    {
      var w := wakes[i];
      status.state := w.state;      // what the other threads did meanwhile
      i := i + 1;
      if w.timedOut {
        OrderIsNanos(w.at, deadline);
        WakesReadyIff(wakes, i - 1);
        return false, i - 1;
      }
      if status.state != OPENING { ended := i - 1; }
    }
    WakesReadyIff(wakes, ended);
    ready := status.state == READY;
  }
}
