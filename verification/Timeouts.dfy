/** bridge/eufy_run.py, `run_attempt`: when each of the supervisor's clocks fires, in facts of the log. */
module Timeouts {
  import opened Wrappers
  import opened Watchdog
  import opened StallTimer

  /** Nothing that outranks the clocks: no stop, no rejection, no busy line. */
  ghost predicate Calm(log: seq<Entry>, stop: bool) {
    !stop && !Any(log, RejectionSeen) && !Any(log, BusyLine)
  }

  /** Each clock by itself: what the log must and must not show, and since when it runs. */
  ghost predicate Due(log: seq<Entry>, started: real, now: real, discovery: bool, lim: Limits, r: Reason) {
    match r
    case SignalingTimeout => !Any(log, OfferSeen) && now - started >= lim.signal
    case ConnectionTimeout => Any(log, OfferSeen) && !Any(log, Opened) && IdleFor(log, started, now, lim.connection)
    case FirstFrameTimeout =>
      !discovery && Any(log, Opened) && !Any(log, VideoSeen) && IdleFor(log, started, now, lim.firstFrame)
    case StreamStall => !discovery && Any(log, VideoSeen) && !VideoWithin(log, now, lim.stall)
    case _ => false
  }

  /** No line that counts as progress, and not the start either, is more recent than `span`. */
  ghost predicate IdleFor(log: seq<Entry>, started: real, now: real, span: real) {
    exists at :: Progressed(log, started, at) && now - at >= span
  }

  /** The last video line is more recent than `span`. */
  ghost predicate VideoWithin(log: seq<Entry>, now: real, span: real) {
    exists at :: Last(log, VideoSeen, Some(at)) && now - at < span
  }

  lemma ProgressUnique(log: seq<Entry>, started: real, a: real, b: real)
    requires Progressed(log, started, a) && Progressed(log, started, b)
    ensures a == b
  {
    if Any(log, ProgressLine) { LastUnique(log, ProgressLine, Some(a), Some(b)); }
  }

  lemma IdleIs(log: seq<Entry>, started: real, now: real, span: real)
    ensures IdleFor(log, started, now, span) <==> now - AfterLog(Fresh(started), log).lastProgress >= span
  {
    LogMeaning(log, started);
    var p := AfterLog(Fresh(started), log).lastProgress;
    if IdleFor(log, started, now, span) {
      var at :| Progressed(log, started, at) && now - at >= span;
      ProgressUnique(log, started, at, p);
    }
  }

  lemma VideoIs(log: seq<Entry>, started: real, now: real, span: real)
    requires Any(log, VideoSeen)
    ensures var v := AfterLog(Fresh(started), log).lastVideoAt;
      v.Some? && (VideoWithin(log, now, span) <==> now - v.value < span)
  {
    LogMeaning(log, started);
    var v := AfterLog(Fresh(started), log).lastVideoAt;
    if VideoWithin(log, now, span) {
      var at :| Last(log, VideoSeen, Some(at)) && now - at < span;
      LastUnique(log, VideoSeen, Some(at), v);
    }
  }

  /** The clocks in the order in which they are looked at. */
  ghost function Clock(log: seq<Entry>, started: real, now: real, discovery: bool, lim: Limits): Option<Reason> {
    if Due(log, started, now, discovery, lim, SignalingTimeout) then Some(SignalingTimeout)
    else if Due(log, started, now, discovery, lim, ConnectionTimeout) then Some(ConnectionTimeout)
    else if Due(log, started, now, discovery, lim, FirstFrameTimeout) then Some(FirstFrameTimeout)
    else if Due(log, started, now, discovery, lim, StreamStall) then Some(StreamStall)
    else None
  }

  lemma LogFacts(log: seq<Entry>, started: real)
    ensures var p := AfterLog(Fresh(started), log);
      && p.startedAt == started
      && (p.sdpSeen <==> Any(log, OfferSeen)) && (p.datachannelSeen <==> Any(log, Opened))
      && (p.authorization <==> Any(log, RejectionSeen)) && (p.busy <==> Any(log, BusyLine))
      && (p.firstVideoAt.Some? <==> Any(log, VideoSeen)) && (p.lastVideoAt.Some? <==> Any(log, VideoSeen))
  {
    LogMeaning(log, started);
  }

  lemma SignalingIs(log: seq<Entry>, started: real, now: real, discovery: bool, lim: Limits)
    ensures Due(log, started, now, discovery, lim, SignalingTimeout) <==>
      var p := AfterLog(Fresh(started), log); !p.sdpSeen && now - p.startedAt >= lim.signal
  {
    LogFacts(log, started);
  }

  lemma ConnectionIs(log: seq<Entry>, started: real, now: real, discovery: bool, lim: Limits)
    ensures Due(log, started, now, discovery, lim, ConnectionTimeout) <==>
      var p := AfterLog(Fresh(started), log); p.sdpSeen && !p.datachannelSeen && now - p.lastProgress >= lim.connection
  {
    LogFacts(log, started);
    IdleIs(log, started, now, lim.connection);
  }

  lemma FirstFrameIs(log: seq<Entry>, started: real, now: real, discovery: bool, lim: Limits)
    ensures Due(log, started, now, discovery, lim, FirstFrameTimeout) <==>
      var p := AfterLog(Fresh(started), log);
      !discovery && p.datachannelSeen && p.firstVideoAt == None && now - p.lastProgress >= lim.firstFrame
  {
    LogFacts(log, started);
    IdleIs(log, started, now, lim.firstFrame);
  }

  lemma StallIs(log: seq<Entry>, started: real, now: real, discovery: bool, lim: Limits)
    ensures Due(log, started, now, discovery, lim, StreamStall) <==>
      var p := AfterLog(Fresh(started), log); !discovery && p.lastVideoAt.Some? && now - p.lastVideoAt.value >= lim.stall
  {
    LogFacts(log, started);
    if Any(log, VideoSeen) { VideoIs(log, started, now, lim.stall); }
  }

  /** What a tick finds, wholly in facts of the log. */
  lemma TickFinds(log: seq<Entry>, started: real, now: real, stop: bool, discovery: bool, lim: Limits)
    ensures Verdict(AfterLog(Fresh(started), log), now, stop, discovery, lim) ==
      if stop then Some(Shutdown)
      else if Any(log, RejectionSeen) then Some(Authorization)
      else if Any(log, BusyLine) then Some(Busy)
      else Clock(log, started, now, discovery, lim)
  {
    LogFacts(log, started);
    SignalingIs(log, started, now, discovery, lim);
    ConnectionIs(log, started, now, discovery, lim);
    FirstFrameIs(log, started, now, discovery, lim);
    StallIs(log, started, now, discovery, lim);
  }

  // ---------------------------------------------------------------- whole attempts

  /** The loop has come to the tick at `k`, and nothing outranks the clocks there. */
  ghost predicate Reached(started: real, events: seq<Event>, k: nat, discovery: bool, lim: Limits) {
    && k < |events| && events[k].Tick? && QuietUntil(started, events, k, discovery, lim)
    && Calm(Lines(events[..k]), events[k].stop)
  }

  /** The tick ends the attempt with the first clock that is due, and goes on when none is. */
  lemma TickDecides(started: real, events: seq<Event>, k: nat, discovery: bool, lim: Limits)
    requires Reached(started, events, k, discovery, lim)
    ensures var c := Clock(Lines(events[..k]), started, events[k].now, discovery, lim);
      if c.Some? then Outcome(Fresh(started), events, discovery, lim) == c
      else QuietUntil(started, events, k + 1, discovery, lim)
  {
    TickFinds(Lines(events[..k]), started, events[k].now, events[k].stop, discovery, lim);
    var c := Clock(Lines(events[..k]), started, events[k].now, discovery, lim);
    if c.Some? { EndDecides(started, events, k, discovery, lim, c.value); }
  }

  /**
   * Signaling: without an offer, a tick `SIGNAL_TIMEOUT` after the start or later ends the
   * attempt with that reason, and an earlier one does not end it (no channel being open).
   */
  lemma SignalingTimesOut(started: real, events: seq<Event>, k: nat, discovery: bool, lim: Limits)
    requires Reached(started, events, k, discovery, lim)
    requires !Any(Lines(events[..k]), OfferSeen)
    ensures events[k].now - started >= lim.signal ==>
      Outcome(Fresh(started), events, discovery, lim) == Some(SignalingTimeout)
    ensures events[k].now - started < lim.signal && !Any(Lines(events[..k]), Opened) && !Any(Lines(events[..k]), VideoSeen) ==>
      QuietUntil(started, events, k + 1, discovery, lim)
  {
    TickDecides(started, events, k, discovery, lim);
    ClockBeforeOffer(Lines(events[..k]), started, events[k].now, discovery, lim);
  }

  lemma ClockBeforeOffer(log: seq<Entry>, started: real, now: real, discovery: bool, lim: Limits)
    requires !Any(log, OfferSeen)
    ensures var c := Clock(log, started, now, discovery, lim);
      if now - started >= lim.signal then c == Some(SignalingTimeout)
      else !Any(log, Opened) && !Any(log, VideoSeen) ==> c == None
  {
  }

  /** Connection: with an offer but no open channel, it is `CONNECTION_TIMEOUT` after the last progress. */
  lemma ConnectionTimesOut(started: real, events: seq<Event>, k: nat, at: real, discovery: bool, lim: Limits)
    requires Reached(started, events, k, discovery, lim)
    requires Any(Lines(events[..k]), OfferSeen) && !Any(Lines(events[..k]), Opened)
    requires Progressed(Lines(events[..k]), started, at)
    ensures events[k].now - at >= lim.connection ==>
      Outcome(Fresh(started), events, discovery, lim) == Some(ConnectionTimeout)
    ensures events[k].now - at < lim.connection && !Any(Lines(events[..k]), VideoSeen) ==>
      QuietUntil(started, events, k + 1, discovery, lim)
  {
    var log, now := Lines(events[..k]), events[k].now;
    TickDecides(started, events, k, discovery, lim);
    IdleUnless(log, started, now, at, lim.connection);
    ClockWhileConnecting(log, started, now, discovery, lim);
  }

  lemma ClockWhileConnecting(log: seq<Entry>, started: real, now: real, discovery: bool, lim: Limits)
    requires Any(log, OfferSeen) && !Any(log, Opened)
    ensures var c := Clock(log, started, now, discovery, lim);
      if IdleFor(log, started, now, lim.connection) then c == Some(ConnectionTimeout)
      else !Any(log, VideoSeen) ==> c == None
  {
  }

  /** First frame: with an open channel but no video, `FIRST_FRAME_TIMEOUT` after the last progress, not in discovery. */
  lemma FirstFrameTimesOut(started: real, events: seq<Event>, k: nat, at: real, discovery: bool, lim: Limits)
    requires Reached(started, events, k, discovery, lim)
    requires var log := Lines(events[..k]); Any(log, OfferSeen) && Any(log, Opened) && !Any(log, VideoSeen)
    requires Progressed(Lines(events[..k]), started, at)
    ensures if !discovery && events[k].now - at >= lim.firstFrame
      then Outcome(Fresh(started), events, discovery, lim) == Some(FirstFrameTimeout)
      else QuietUntil(started, events, k + 1, discovery, lim)
  {
    var log, now := Lines(events[..k]), events[k].now;
    TickDecides(started, events, k, discovery, lim);
    IdleUnless(log, started, now, at, lim.firstFrame);
    ClockBeforeVideo(log, started, now, discovery, lim);
  }

  lemma ClockBeforeVideo(log: seq<Entry>, started: real, now: real, discovery: bool, lim: Limits)
    requires Any(log, OfferSeen) && Any(log, Opened) && !Any(log, VideoSeen)
    ensures Clock(log, started, now, discovery, lim) ==
      if !discovery && IdleFor(log, started, now, lim.firstFrame) then Some(FirstFrameTimeout) else None
  {
  }

  lemma IdleUnless(log: seq<Entry>, started: real, now: real, at: real, span: real)
    requires Progressed(log, started, at)
    ensures IdleFor(log, started, now, span) <==> now - at >= span
  {
    LogMeaning(log, started);
    IdleIs(log, started, now, span);
    ProgressUnique(log, started, at, AfterLog(Fresh(started), log).lastProgress);
  }

  /**
   * A silent engine does not go on for ever: with no lines, stop or exit, the attempt ends with
   * the signaling timeout if and only if some tick comes that late.
   */
  lemma SilentAttempt(started: real, events: seq<Event>, discovery: bool, lim: Limits)
    requires forall e | e in events :: e.Tick? && !e.stop
    ensures Outcome(Fresh(started), events, discovery, lim) ==
      if exists k :: 0 <= k < |events| && events[k].now - started >= lim.signal then Some(SignalingTimeout) else None
    decreases |events|
  {
    if events != [] {
      assert events[0] in events;
      assert forall e | e in events[1..] :: e in events;
      SilentAttempt(started, events[1..], discovery, lim);
      if events[0].now - started < lim.signal {
        if exists k :: 0 <= k < |events| && events[k].now - started >= lim.signal {
          var k :| 0 <= k < |events| && events[k].now - started >= lim.signal;
          assert events[1..][k - 1] == events[k];
        }
        if j: nat :| 0 <= j < |events[1..]| && events[1..][j].now - started >= lim.signal {
          assert events[j + 1] == events[1..][j];
        }
      }
    }
  }
}
