/** bridge/eufy_run.py, `main`: one producer's sessions, one after the other. */
module Retry {
  import opened Wrappers
  import opened Watchdog

  /** What one pass of the loop meets. */
  datatype Turn = Turn(
    stopInDelay: bool,              // the stop event comes during the back-off sleep
    acquired: bool,
    rc: int,
    reason: Reason
  )

  /** Back-off before the given attempt (counted from 1), in seconds. */
  function Delay(attempt: nat): nat {
    if attempt <= 1 then 0 else if attempt == 2 then 1 else if attempt == 3 then 2 else 4
  }

  function Power2(n: nat): nat {
    if n == 0 then 1 else 2 * Power2(n - 1)
  }

  /** `min(2 ** (attempt - 2), 4)`. */
  lemma {:induction false} DelayIsCappedPower(attempt: nat)
    requires attempt >= 2
    ensures Delay(attempt) == if Power2(attempt - 2) < 4 then Power2(attempt - 2) else 4
  {
    if attempt > 4 {
      DelayIsCappedPower(attempt - 1);
    } else {
      assert Power2(0) == 1 && Power2(1) == 2 && Power2(2) == 4;
    }
  }

  /** A session took place: the gate was granted and the engine ran. */
  predicate Ran(t: Turn, attempt: nat) {
    !(attempt > 1 && t.stopInDelay) && t.acquired
  }

  /** The session failed in a way that another one may cure. */
  predicate Curable(t: Turn, discovery: bool) {
    match t.reason
    case Exit => t.rc != 0
    case Busy => discovery
    case SignalingTimeout => true
    case ConnectionTimeout => true
    case FirstFrameTimeout => true
    case StreamStall => true
    case Shutdown => false
    case Authorization => false
  }

  /** The loop goes past the turn at index `i`. */
  predicate Continues(turns: seq<Turn>, i: nat, discovery: bool)
    requires i < |turns|
  {
    Ran(turns[i], i + 1) && Curable(turns[i], discovery)
  }

  /** What a turn that ends the loop makes the process exit with. */
  function Code(t: Turn, attempt: nat): nat {
    if Ran(t, attempt) && t.reason == Authorization then 78
    else if Ran(t, attempt) && t.reason == Busy then 75
    else 0
  }

  /** The turn at index `k` is the first that ends the loop, with that exit code, session count and back-off. */
  ghost predicate EndsWith(turns: seq<Turn>, k: nat, discovery: bool, code: nat, sessions: nat, delays: nat)
    requires k < |turns|
  {
    && !Continues(turns, k, discovery)
    && (forall i | 0 <= i < k :: Continues(turns, i, discovery))
    && code == Code(turns[k], k + 1)
    && sessions == k + (if Ran(turns[k], k + 1) then 1 else 0)
    && delays == DelaysBefore(k + 1)
  }

  function DelaysBefore(n: nat): nat {
    if n == 0 then 0 else DelaysBefore(n - 1) + Delay(n)
  }

  /**
   * `|turns|` is MAX_ATTEMPTS. The exit code belongs to the first turn that does not call for
   * another; it is 1 exactly when every session took place and failed curably.
   */
  method RunSessions(turns: seq<Turn>, discovery: bool) returns (code: nat, sessions: nat, delays: nat)
    requires |turns| > 0
    ensures code == 1 <==> forall i | 0 <= i < |turns| :: Continues(turns, i, discovery)
    ensures code == 1 ==> sessions == |turns| && delays == DelaysBefore(|turns|)
    ensures code != 1 ==> exists k | 0 <= k < |turns| :: EndsWith(turns, k, discovery, code, sessions, delays)
  {
    sessions, delays := 0, 0;
    for i := 0 to |turns|
      invariant forall j | 0 <= j < i :: Continues(turns, j, discovery)
      invariant sessions == i && delays == DelaysBefore(i)
    {
      var t := turns[i];
      if i > 0 {
        delays := delays + Delay(i + 1);
        if t.stopInDelay {
          assert EndsWith(turns, i, discovery, 0, sessions, delays);
          return 0, sessions, delays;
        }
      }
      if !t.acquired {
        assert EndsWith(turns, i, discovery, 0, sessions, delays);
        return 0, sessions, delays;
      }
      sessions := sessions + 1;
      assert !Curable(t, discovery) ==> EndsWith(turns, i, discovery, Code(t, i + 1), sessions, delays);
      if t.reason == Shutdown { return 0, sessions, delays; }
      if t.reason == Authorization { return 78, sessions, delays; }
      if t.reason == Busy && !discovery { return 75, sessions, delays; }
      if t.rc == 0 && t.reason == Exit { return 0, sessions, delays; }
    }
    code := 1;
  }

  /**
   * The exit codes by what happened: 78 and 75 stand for a rejection and, outside discovery, a
   * busy NVR; a stop, a refused gate and a clean exit give 0; every supervised timeout, an
   * engine error and a busy NVR in discovery call for another session, whatever the engine's code.
   */
  lemma TurnTable(turns: seq<Turn>, k: nat, discovery: bool)
    requires k < |turns|
    ensures var t := turns[k];
      var ran := t.acquired && (k == 0 || !t.stopInDelay);
      var failed := t.reason in {SignalingTimeout, ConnectionTimeout, FirstFrameTimeout, StreamStall} ||
        (t.reason == Exit && t.rc != 0) || (t.reason == Busy && discovery);
      && (Continues(turns, k, discovery) <==> ran && failed)
      && (!Continues(turns, k, discovery) ==>
            (Code(t, k + 1) == 78 <==> ran && t.reason == Authorization) &&
            (Code(t, k + 1) == 75 <==> ran && t.reason == Busy && !discovery) &&
            (Code(t, k + 1) == 0 <==> !ran || t.reason == Shutdown || (t.reason == Exit && t.rc == 0)))
  {
  }

  /**
   * Whole attempts: a busy line read while the loop runs, with no rejection before, ends the
   * supervisor with 75 outside discovery and is retried in discovery, when a tick without a stop
   * comes next.
   */
  lemma BusyDecides(turns: seq<Turn>, n: nat, started: real, events: seq<Event>, k: nat, discovery: bool, lim: Limits)
    requires n < |turns| && Ran(turns[n], n + 1)
    requires Outcome(Fresh(started), events, discovery, lim) == Some(turns[n].reason)
    requires k < |events| && events[k].Tick? && !events[k].stop && QuietUntil(started, events, k, discovery, lim)
    requires Any(Lines(events[..k]), BusyLine) && !Any(Lines(events[..k]), RejectionSeen)
    ensures if discovery then Continues(turns, n, discovery) else !Continues(turns, n, discovery) && Code(turns[n], n + 1) == 75
  {
    LogMeaning(Lines(events[..k]), started);
    EndDecides(started, events, k, discovery, lim, Busy);
  }

  /**
   * What becomes of a rejection read while the loop runs: the supervisor exits with 78 exactly
   * when a tick without a stop comes next, and retries exactly when the engine exits first and
   * with an error.
   */
  lemma RejectionRetriedIff(turns: seq<Turn>, n: nat, started: real, events: seq<Event>, i: nat, j: nat,
                            discovery: bool, lim: Limits)
    requires n < |turns| && Ran(turns[n], n + 1)
    requires Outcome(Fresh(started), events, discovery, lim) == Some(turns[n].reason)
    requires RejectedAt(started, events, i, j, discovery, lim)
    ensures Code(turns[n], n + 1) == 78 <==> events[j].Tick? && !events[j].stop
    ensures Continues(turns, n, discovery) <==> events[j].Exited? && turns[n].rc != 0
  {
    RejectionDecides(started, events, i, j, discovery, lim);
  }
}
