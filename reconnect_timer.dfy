/**
 * The panel's reconnect timer: the variable `reconnectAttemptTimeout` (the handle of the last timer
 * set), the timers the browser still holds, and the ids `setTimeout` hands out.
 */
module ReconnectTimer {
  import opened Protocol

  datatype Timer = Timer(handle: Option<nat>, pending: set<nat>, nextId: nat)

  /** No timer has ever been set. */
  const NO_TIMER: Timer := Timer(None, {}, 1)

  function HandleSet(handle: Option<nat>): set<nat>
  {
    if handle.Some? then {handle.value} else {}
  }

  /**
   * Ids are positive and handed out in increasing order, and the only timer that can be pending
   * is the one the handle names.
   */
  predicate Consistent(t: Timer)
  {
    && t.nextId >= 1
    && (t.handle.Some? ==> 1 <= t.handle.value < t.nextId)
    && t.pending <= HandleSet(t.handle)
  }

  /** `scheduleReconnectAttempt`: clear the timer the handle names, then set a fresh one. */
  function Schedule(t: Timer): (r: Timer)
    ensures r.handle == Some(t.nextId) && r.nextId == t.nextId + 1
    ensures Consistent(t) ==> Consistent(r) && r.pending == {t.nextId}
  {
    var cleared := if t.handle.Some? then t.pending - {t.handle.value} else t.pending;
    Timer(Some(t.nextId), cleared + {t.nextId}, t.nextId + 1)
  }

  /** The timer-clearing half of `cancelOngoingDiscovery`. */
  function Clear(t: Timer): (r: Timer)
    ensures r.handle == None && r.nextId == t.nextId
    ensures Consistent(t) ==> Consistent(r) && r.pending == {}
  {
    if t.handle.Some? then Timer(None, t.pending - {t.handle.value}, t.nextId) else t
  }

  /** The browser runs timer `id`; the handle variable keeps naming it. */
  function Fire(t: Timer, id: nat): (r: Timer)
    requires id in t.pending
    ensures r.handle == t.handle && r.nextId == t.nextId && id !in r.pending
    ensures Consistent(t) ==> Consistent(r) && r.pending == {}
  {
    Timer(t.handle, t.pending - {id}, t.nextId)
  }

  /** At most one reconnect attempt is ever pending. */
  lemma AtMostOnePending(t: Timer)
    requires Consistent(t)
    ensures |t.pending| <= 1
  {
    if t.handle.Some? {
      var h := t.handle.value;
      assert t.pending <= {h};
      if t.pending != {} {
        assert t.pending == {h};
      }
    }
  }

  /** Scheduling twice leaves one pending timer, the second one: re-arming never stacks timers. */
  lemma ScheduleTwice(t: Timer)
    requires Consistent(t)
    ensures Schedule(Schedule(t)).pending == {t.nextId + 1}
    ensures t.nextId !in Schedule(Schedule(t)).pending
  {
  }

  /** What the panel and the browser can do to the timer. */
  datatype TimerEvent = Scheduled | Cleared | Fired(id: nat)

  /** One event; the browser only runs a timer that is still pending. */
  function Apply(t: Timer, e: TimerEvent): Timer
  {
    match e
    case Scheduled => Schedule(t)
    case Cleared => Clear(t)
    case Fired(id) => if id in t.pending then Fire(t, id) else t
  }

  /** The timer after `events`, oldest first. */
  function Replay(t: Timer, events: seq<TimerEvent>): Timer
    decreases |events|
  {
    if events == [] then t else Apply(Replay(t, events[..|events| - 1]), events[|events| - 1])
  }

  /** Every event keeps the timer consistent. */
  lemma {:induction false} ReplayConsistent(t: Timer, events: seq<TimerEvent>)
    requires Consistent(t)
    ensures Consistent(Replay(t, events))
    decreases |events|
  {
    if events != [] {
      ReplayConsistent(t, events[..|events| - 1]);
    }
  }

  /** From panel load on, whatever is scheduled, cleared or fired, at most one reconnect attempt is pending. */
  lemma NeverTwoPending(events: seq<TimerEvent>)
    ensures |Replay(NO_TIMER, events).pending| <= 1
  {
    ReplayConsistent(NO_TIMER, events);
    AtMostOnePending(Replay(NO_TIMER, events));
  }
}
