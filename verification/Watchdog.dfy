/** bridge/eufy_run.py: what the supervisor reads from the engine's log, and when it gives up. */
module Watchdog {
  import opened Wrappers

  /** Python's `marker in line`. */
  predicate Contains(line: string, marker: string) {
    (|marker| <= |line| && line[..|marker|] == marker) || (line != "" && Contains(line[1..], marker))
  }

  lemma {:induction false} ContainsInside(a: string, marker: string, b: string)
    ensures Contains(a + marker + b, marker)
    decreases |a|
  {
    if a == "" {
      assert (a + marker + b)[..|marker|] == marker;
    } else {
      assert (a + marker + b)[1..] == a[1..] + marker + b;
      ContainsInside(a[1..], marker, b);
    }
  }

  /** The substrings that are looked for. */
  datatype Marker = TurnPending | TurnDone | TurnBusy | Offer | ChannelOpen | FirstVideo | VideoProgress | Rejected

  function Text(m: Marker): string {
    match m
    case TurnPending => "scall/turn status 100"
    case TurnDone => "scall/turn status 200"
    case TurnBusy => "scall/turn status 486"
    case Offer => "NVR SDP offer received"
    case ChannelOpen => "DC open: WebrtcDataChannel"
    case FirstVideo => "VIDEO #"
    case VideoProgress => "VIDEO_PROGRESS"
    case Rejected => "EUFY_AUTHORIZATION_ERROR_-104"
  }

  predicate Has(line: string, m: Marker) {
    Contains(line, Text(m))
  }

  predicate Pending(line: string) { Has(line, TurnPending) }
  predicate OfferSeen(line: string) { Has(line, Offer) }
  predicate Opened(line: string) { Has(line, ChannelOpen) }
  predicate VideoSeen(line: string) { Has(line, FirstVideo) || Has(line, VideoProgress) }
  predicate RejectionSeen(line: string) { Has(line, Rejected) }
  predicate TurnLine(line: string) { Has(line, TurnPending) || Has(line, TurnDone) || Has(line, TurnBusy) }
  predicate BusyLine(line: string) { Has(line, TurnBusy) && !Has(line, TurnPending) && !Has(line, TurnDone) }

  /** The fields of `SessionState`. */
  datatype Progress = Progress(
    startedAt: real,
    lastProgress: real,
    sdpSeen: bool,
    datachannelSeen: bool,
    firstVideoAt: Option<real>,
    lastVideoAt: Option<real>,
    turnPending: bool,
    authorization: bool,
    busy: bool
  )

  function Fresh(at: real): Progress {
    Progress(at, at, false, false, None, None, false, false, false)
  }

  /** Each field after one more line, by itself; the TURN markers shadow one another. */
  function Inspected(p: Progress, line: string, now: real): Progress {
    p.(lastProgress := if TurnLine(line) || OfferSeen(line) || Opened(line) || VideoSeen(line) then now else p.lastProgress,
       sdpSeen := p.sdpSeen || OfferSeen(line),
       datachannelSeen := p.datachannelSeen || Opened(line),
       firstVideoAt := if VideoSeen(line) && p.firstVideoAt == None then Some(now) else p.firstVideoAt,
       lastVideoAt := if VideoSeen(line) then Some(now) else p.lastVideoAt,
       turnPending := if TurnLine(line) then Pending(line) else p.turnPending,
       authorization := p.authorization || RejectionSeen(line),
       busy := p.busy || BusyLine(line))
  }

  datatype Limits = Limits(signal: real, connection: real, firstFrame: real, stall: real)

  datatype Reason =
    | Exit | Shutdown | Authorization | Busy
    | SignalingTimeout | ConnectionTimeout | FirstFrameTimeout | StreamStall

  /** What one tick of the supervision loop finds, in the order it looks. */
  function Verdict(p: Progress, now: real, stop: bool, discovery: bool, lim: Limits): Option<Reason> {
    if stop then Some(Shutdown)
    else if p.authorization then Some(Authorization)
    else if p.busy then Some(Busy)
    else if !p.sdpSeen && now - p.startedAt >= lim.signal then Some(SignalingTimeout)
    else if p.sdpSeen && !p.datachannelSeen && now - p.lastProgress >= lim.connection then Some(ConnectionTimeout)
    else if !discovery && p.datachannelSeen && p.firstVideoAt == None && now - p.lastProgress >= lim.firstFrame then
      Some(FirstFrameTimeout)
    else if !discovery && p.lastVideoAt.Some? && now - p.lastVideoAt.value >= lim.stall then Some(StreamStall)
    else None
  }

  /** What the supervision loop sees, in order. */
  datatype Event = Line(text: string, at: real) | Tick(now: real, stop: bool) | Exited

  /** The reason the loop ends with; `None` while it goes on. */
  function Outcome(p: Progress, events: seq<Event>, discovery: bool, lim: Limits): Option<Reason>
    decreases |events|
  {
    if events == [] then None
    else match events[0]
      case Line(text, at) => Outcome(Inspected(p, text, at), events[1..], discovery, lim)
      case Exited => Some(Exit)
      case Tick(now, stop) =>
        var v := Verdict(p, now, stop, discovery, lim);
        if v.Some? then v else Outcome(p, events[1..], discovery, lim)
  }

  class SessionState {
    const startedAt: real
    var lastProgress: real
    var sdpSeen: bool
    var datachannelSeen: bool
    var firstVideoAt: Option<real>
    var lastVideoAt: Option<real>
    var turnPending: bool
    var authorizationRejection: bool
    var busyRejection: bool

    function View(): Progress
      reads this
    {
      Progress(startedAt, lastProgress, sdpSeen, datachannelSeen, firstVideoAt, lastVideoAt,
               turnPending, authorizationRejection, busyRejection)
    }

    constructor (now: real)
      ensures View() == Fresh(now)
    {
      startedAt, lastProgress := now, now;
      sdpSeen, datachannelSeen, turnPending := false, false, false;
      firstVideoAt, lastVideoAt := None, None;
      authorizationRejection, busyRejection := false, false;
    }

    /** `inspect_log_line`. */
    method InspectLogLine(line: string, now: real)
      modifies this
      ensures View() == Inspected(old(View()), line, now)
    {
      InspectTurn(line, now);
      InspectConnection(line, now);
      InspectVideo(line, now);
      if Has(line, Rejected) {
        authorizationRejection := true;
      }
    }

    /** Its part about the offer and the data channel. */
    method InspectConnection(line: string, now: real)
      modifies this`lastProgress, this`sdpSeen, this`datachannelSeen
      ensures lastProgress == if OfferSeen(line) || Opened(line) then now else old(lastProgress)
      ensures sdpSeen == (old(sdpSeen) || OfferSeen(line))
      ensures datachannelSeen == (old(datachannelSeen) || Opened(line))
    {
      if Has(line, Offer) {
        sdpSeen := true;
        lastProgress := now;
      }
      if Has(line, ChannelOpen) {
        datachannelSeen := true;
        lastProgress := now;
      }
    }

    /** Its part about video. */
    method InspectVideo(line: string, now: real)
      modifies this`lastProgress, this`firstVideoAt, this`lastVideoAt
      ensures lastProgress == if VideoSeen(line) then now else old(lastProgress)
      ensures firstVideoAt == if VideoSeen(line) && old(firstVideoAt) == None then Some(now) else old(firstVideoAt)
      ensures lastVideoAt == if VideoSeen(line) then Some(now) else old(lastVideoAt)
    {
      if Has(line, FirstVideo) || Has(line, VideoProgress) {
        if firstVideoAt == None {
          firstVideoAt := Some(now);
        }
        lastVideoAt := Some(now);
        lastProgress := now;
      }
    }

    /** Its first part, the chain over the TURN statuses. */
    method InspectTurn(line: string, now: real)
      modifies this`lastProgress, this`turnPending, this`busyRejection
      ensures lastProgress == if TurnLine(line) then now else old(lastProgress)
      ensures turnPending == if TurnLine(line) then Pending(line) else old(turnPending)
      ensures busyRejection == (old(busyRejection) || BusyLine(line))
    {
      if Has(line, TurnPending) {
        turnPending := true;
        lastProgress := now;
      } else if Has(line, TurnDone) {
        turnPending := false;
        lastProgress := now;
      } else if Has(line, TurnBusy) {
        turnPending := false;
        busyRejection := true;
        lastProgress := now;
      }
    }
  }

  /** The loop of `run_attempt`, with the log relay's lines in between its ticks. */
  method Supervise(started: real, events: seq<Event>, discovery: bool, lim: Limits)
    returns (reason: Option<Reason>, state: SessionState)
    ensures reason == Outcome(Fresh(started), events, discovery, lim)
  {
    state := new SessionState(started);
    for i := 0 to |events|
      invariant Outcome(Fresh(started), events, discovery, lim) == Outcome(state.View(), events[i..], discovery, lim)
      invariant fresh(state)
    {
      assert events[i..][1..] == events[i + 1..];
      match events[i] {
        case Exited => return Some(Exit), state;
        case Line(text, at) => state.InspectLogLine(text, at);
        case Tick(now, stop) =>
          if stop { return Some(Shutdown), state; }
          if state.authorizationRejection { return Some(Authorization), state; }
          if state.busyRejection { return Some(Busy), state; }
          if !state.sdpSeen && now - state.startedAt >= lim.signal { return Some(SignalingTimeout), state; }
          if state.sdpSeen && !state.datachannelSeen {
            if now - state.lastProgress >= lim.connection { return Some(ConnectionTimeout), state; }
          }
          if !discovery && state.datachannelSeen && state.firstVideoAt == None {
            if now - state.lastProgress >= lim.firstFrame { return Some(FirstFrameTimeout), state; }
          }
          if !discovery && state.lastVideoAt.Some? {
            if now - state.lastVideoAt.value >= lim.stall { return Some(StreamStall), state; }
          }
      }
    }
    reason := None;
  }

  // ---------------------------------------------------------------- the log as a whole

  datatype Entry = Entry(text: string, at: real)

  function AfterLog(p: Progress, log: seq<Entry>): Progress
    decreases |log|
  {
    if log == [] then p
    else Inspected(AfterLog(p, log[..|log| - 1]), log[|log| - 1].text, log[|log| - 1].at)
  }

  ghost predicate Any(log: seq<Entry>, marker: string -> bool) {
    exists i :: 0 <= i < |log| && marker(log[i].text)
  }

  /** `at` is when the first line with the marker was read. */
  ghost predicate First(log: seq<Entry>, marker: string -> bool, at: Option<real>) {
    match at
    case None => !Any(log, marker)
    case Some(t) => exists i :: 0 <= i < |log| && marker(log[i].text) && log[i].at == t && !Any(log[..i], marker)
  }

  ghost predicate Last(log: seq<Entry>, marker: string -> bool, at: Option<real>) {
    match at
    case None => !Any(log, marker)
    case Some(t) => exists i :: 0 <= i < |log| && marker(log[i].text) && log[i].at == t && !Any(log[i + 1..], marker)
  }

  /** The last line about the TURN exchange, if any, was a status 100. */
  ghost predicate EndsPending(log: seq<Entry>) {
    exists i :: 0 <= i < |log| && Pending(log[i].text) && !Any(log[i + 1..], TurnLine)
  }

  lemma AnySnoc(log: seq<Entry>, e: Entry, marker: string -> bool)
    ensures Any(log + [e], marker) <==> Any(log, marker) || marker(e.text)
  {
    if Any(log, marker) {
      var i :| 0 <= i < |log| && marker(log[i].text);
      assert (log + [e])[i] == log[i];
    }
    assert (log + [e])[|log|] == e;
  }

  lemma FirstSnoc(log: seq<Entry>, e: Entry, marker: string -> bool, at: Option<real>)
    requires First(log, marker, at)
    ensures First(log + [e], marker, if marker(e.text) && at == None then Some(e.at) else at)
  {
    AnySnoc(log, e, marker);
    if at.Some? {
      var i :| 0 <= i < |log| && marker(log[i].text) && log[i].at == at.value && !Any(log[..i], marker);
      assert (log + [e])[..i] == log[..i] && (log + [e])[i] == log[i];
    } else {
      assert (log + [e])[..|log|] == log && (log + [e])[|log|] == e;
    }
  }

  lemma LastSnoc(log: seq<Entry>, e: Entry, marker: string -> bool, at: Option<real>)
    requires Last(log, marker, at)
    ensures Last(log + [e], marker, if marker(e.text) then Some(e.at) else at)
  {
    AnySnoc(log, e, marker);
    if marker(e.text) {
      assert (log + [e])[|log|] == e;
    } else if at.Some? {
      var i :| 0 <= i < |log| && marker(log[i].text) && log[i].at == at.value && !Any(log[i + 1..], marker);
      assert (log + [e])[i + 1..] == log[i + 1..] + [e] && (log + [e])[i] == log[i];
      AnySnoc(log[i + 1..], e, marker);
    }
  }

  lemma PendingSnoc(log: seq<Entry>, e: Entry)
    ensures EndsPending(log + [e]) <==> if TurnLine(e.text) then Pending(e.text) else EndsPending(log)
  {
    var all := log + [e];
    assert all[|log|] == e && all[|log| + 1..] == [];
    forall i | 0 <= i < |log|
      ensures all[i] == log[i] && (Any(all[i + 1..], TurnLine) <==> Any(log[i + 1..], TurnLine) || TurnLine(e.text))
    {
      assert all[i + 1..] == log[i + 1..] + [e];
      AnySnoc(log[i + 1..], e, TurnLine);
    }
  }

  /** A line about the TURN exchange, the offer, the data channel or video. */
  predicate ProgressLine(line: string) {
    TurnLine(line) || OfferSeen(line) || Opened(line) || VideoSeen(line)
  }

  /** `at` is when the last such line was read, or the start. */
  ghost predicate Progressed(log: seq<Entry>, started: real, at: real) {
    if Any(log, ProgressLine) then Last(log, ProgressLine, Some(at)) else at == started
  }

  lemma ProgressSnoc(log: seq<Entry>, e: Entry, started: real, at: real)
    requires Progressed(log, started, at)
    ensures Progressed(log + [e], started, if ProgressLine(e.text) then e.at else at)
  {
    AnySnoc(log, e, ProgressLine);
    LastSnoc(log, e, ProgressLine, if Any(log, ProgressLine) then Some(at) else None);
  }

  /** Every field of the session state is a fact about the whole log. */
  lemma {:induction false} LogMeaning(log: seq<Entry>, started: real)
    ensures var p := AfterLog(Fresh(started), log);
      && p.startedAt == started
      && (p.sdpSeen <==> Any(log, OfferSeen))
      && (p.datachannelSeen <==> Any(log, Opened))
      && (p.authorization <==> Any(log, RejectionSeen))
      && (p.busy <==> Any(log, BusyLine))
      && (p.turnPending <==> EndsPending(log))
      && First(log, VideoSeen, p.firstVideoAt)
      && Last(log, VideoSeen, p.lastVideoAt)
      && Progressed(log, started, p.lastProgress)
    decreases |log|
  {
    if log != [] {
      var rest, e := log[..|log| - 1], log[|log| - 1];
      assert log == rest + [e];
      LogMeaning(rest, started);
      var p := AfterLog(Fresh(started), rest);
      AnySnoc(rest, e, OfferSeen);
      AnySnoc(rest, e, Opened);
      AnySnoc(rest, e, RejectionSeen);
      AnySnoc(rest, e, BusyLine);
      PendingSnoc(rest, e);
      FirstSnoc(rest, e, VideoSeen, p.firstVideoAt);
      LastSnoc(rest, e, VideoSeen, p.lastVideoAt);
      ProgressSnoc(rest, e, started, p.lastProgress);
    }
  }

  // ---------------------------------------------------------------- whole attempts

  /** The lines among the first events. */
  function Lines(events: seq<Event>): seq<Entry>
    decreases |events|
  {
    if events == [] then []
    else
      var e := events[|events| - 1];
      Lines(events[..|events| - 1]) + if e.Line? then [Entry(e.text, e.at)] else []
  }

  /** The verdict of the tick at position `k`, on the log read by then. */
  function VerdictAt(started: real, events: seq<Event>, k: nat, discovery: bool, lim: Limits): Option<Reason>
    requires k < |events| && events[k].Tick?
  {
    Verdict(AfterLog(Fresh(started), Lines(events[..k])), events[k].now, events[k].stop, discovery, lim)
  }

  ghost predicate QuietUntil(started: real, events: seq<Event>, k: nat, discovery: bool, lim: Limits)
    requires k <= |events|
  {
    forall j | 0 <= j < k ::
      !events[j].Exited? && (events[j].Tick? ==> VerdictAt(started, events, j, discovery, lim) == None)
  }

  ghost predicate EndsAt(started: real, events: seq<Event>, k: nat, discovery: bool, lim: Limits, r: Reason)
    requires k < |events|
  {
    match events[k]
    case Line(_, _) => false
    case Exited => r == Exit
    case Tick(_, _) => VerdictAt(started, events, k, discovery, lim) == Some(r)
  }

  ghost predicate EndsFirst(started: real, events: seq<Event>, discovery: bool, lim: Limits, r: Reason) {
    exists k :: 0 <= k < |events| && EndsAt(started, events, k, discovery, lim, r) && QuietUntil(started, events, k, discovery, lim)
  }

  /** The outcome is decided by the first event that ends the attempt, on the log up to it. */
  lemma OutcomeIsFirstEnd(started: real, events: seq<Event>, discovery: bool, lim: Limits)
    ensures match Outcome(Fresh(started), events, discovery, lim)
      case None => QuietUntil(started, events, |events|, discovery, lim)
      case Some(r) => EndsFirst(started, events, discovery, lim, r)
  {
    assert events[0..] == events;
    OutcomeFrom(started, events, 0, discovery, lim);
  }

  lemma {:induction false} OutcomeFrom(started: real, events: seq<Event>, i: nat, discovery: bool, lim: Limits)
    requires i <= |events| && QuietUntil(started, events, i, discovery, lim)
    ensures match Outcome(AfterLog(Fresh(started), Lines(events[..i])), events[i..], discovery, lim)
      case None => QuietUntil(started, events, |events|, discovery, lim)
      case Some(r) => EndsFirst(started, events, discovery, lim, r)
    decreases |events| - i
  {
    if i < |events| {
      LinesSnoc(events, i);
      assert events[i..][1..] == events[i + 1..];
      if events[i].Line? || (events[i].Tick? && VerdictAt(started, events, i, discovery, lim) == None) {
        OutcomeFrom(started, events, i + 1, discovery, lim);
      } else {
        EndsHere(started, events, i, discovery, lim);
      }
    }
  }

  lemma EndsHere(started: real, events: seq<Event>, i: nat, discovery: bool, lim: Limits)
    requires i < |events| && QuietUntil(started, events, i, discovery, lim) && !events[i].Line?
    requires events[i].Tick? ==> VerdictAt(started, events, i, discovery, lim).Some?
    ensures var r := if events[i].Exited? then Exit else VerdictAt(started, events, i, discovery, lim).value;
      EndsFirst(started, events, discovery, lim, r)
  {
    var r := if events[i].Exited? then Exit else VerdictAt(started, events, i, discovery, lim).value;
    assert EndsAt(started, events, i, discovery, lim, r);
  }

  lemma LinesSnoc(events: seq<Event>, i: nat)
    requires i < |events|
    ensures var log, e := Lines(events[..i]), events[i];
      && Lines(events[..i + 1]) == (if e.Line? then log + [Entry(e.text, e.at)] else log)
      && (e.Line? ==> (log + [Entry(e.text, e.at)])[..|log|] == log)
  {
    assert events[..i + 1][..i] == events[..i];
  }

  /** An event that ends the attempt, with nothing that ends it before, gives the outcome. */
  lemma EndDecides(started: real, events: seq<Event>, k: nat, discovery: bool, lim: Limits, r: Reason)
    requires k < |events| && QuietUntil(started, events, k, discovery, lim) && EndsAt(started, events, k, discovery, lim, r)
    ensures Outcome(Fresh(started), events, discovery, lim) == Some(r)
  {
    OutcomeIsFirstEnd(started, events, discovery, lim);
    var o := Outcome(Fresh(started), events, discovery, lim);
    if o.Some? {
      var j :| 0 <= j < |events| && EndsAt(started, events, j, discovery, lim, o.value) && QuietUntil(started, events, j, discovery, lim);
      assert !(j < k) && !(k < j);
    }
  }

  // ---------------------------------------------------------------- a rejection line

  lemma {:induction false} LineIsRead(events: seq<Event>, i: nat, j: nat, marker: string -> bool)
    requires i < j <= |events| && events[i].Line? && marker(events[i].text)
    ensures Any(Lines(events[..j]), marker)
    decreases j
  {
    LinesSnoc(events, j - 1);
    var log := Lines(events[..j - 1]);
    if events[j - 1].Line? {
      AnySnoc(log, Entry(events[j - 1].text, events[j - 1].at), marker);
    }
    if i < j - 1 { LineIsRead(events, i, j - 1, marker); }
  }

  /** The loop is still running when the rejection at `i` is read; `j` is the next event but a line. */
  ghost predicate RejectedAt(started: real, events: seq<Event>, i: nat, j: nat, discovery: bool, lim: Limits) {
    && i < j < |events| && events[i].Line? && RejectionSeen(events[i].text)
    && QuietUntil(started, events, i, discovery, lim)
    && (forall l | i < l < j :: events[l].Line?) && !events[j].Line?
  }

  lemma AuthorizationRead(log: seq<Entry>, started: real)
    ensures AfterLog(Fresh(started), log).authorization <==> Any(log, RejectionSeen)
  {
    LogMeaning(log, started);
  }

  /**
   * Whether a rejection becomes the reason is decided by the next event that is not a line:
   * exactly a tick without a stop makes it so.
   */
  lemma RejectionDecides(started: real, events: seq<Event>, i: nat, j: nat, discovery: bool, lim: Limits)
    requires RejectedAt(started, events, i, j, discovery, lim)
    ensures var o := Outcome(Fresh(started), events, discovery, lim);
      && (o == Some(Authorization) <==> events[j].Tick? && !events[j].stop)
      && (o == Some(Shutdown) <==> events[j].Tick? && events[j].stop)
      && (o == Some(Exit) <==> events[j].Exited?)
  {
    RejectionEnds(started, events, i, j, discovery, lim);
    EndDecides(started, events, j, discovery, lim, ReasonAfter(events[j]));
  }

  /** The reason an event other than a line gives once a rejection has been read. */
  function ReasonAfter(e: Event): Reason
    requires !e.Line?
  {
    if e.Exited? then Exit else if e.stop then Shutdown else Authorization
  }

  lemma RejectionEnds(started: real, events: seq<Event>, i: nat, j: nat, discovery: bool, lim: Limits)
    requires RejectedAt(started, events, i, j, discovery, lim)
    ensures QuietUntil(started, events, j, discovery, lim)
    ensures EndsAt(started, events, j, discovery, lim, ReasonAfter(events[j]))
  {
    LineIsRead(events, i, j, RejectionSeen);
    AuthorizationRead(Lines(events[..j]), started);
    LinesAreQuiet(started, events, i, j, discovery, lim);
  }

  lemma LinesAreQuiet(started: real, events: seq<Event>, i: nat, j: nat, discovery: bool, lim: Limits)
    requires i <= j <= |events| && QuietUntil(started, events, i, discovery, lim)
    requires forall l | i <= l < j :: events[l].Line?
    ensures QuietUntil(started, events, j, discovery, lim)
  {
  }

  /** A rejection read just before the engine exits is lost: the outcome is a plain exit. */
  lemma RejectionLostAtExit(started: real, at: real, line: string, discovery: bool, lim: Limits)
    requires RejectionSeen(line)
    ensures Outcome(Fresh(started), [Line(line, at), Exited], discovery, lim) == Some(Exit)
  {
    RejectionDecides(started, [Line(line, at), Exited], 0, 1, discovery, lim);
  }
}
