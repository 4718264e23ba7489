/**
 * The engine's throttled progress markers (bridge/eufy_stream.py, `on_frame`) against the
 * supervisor's stall timer (bridge/eufy_run.py, `run_attempt`).
 */
module StallTimer {
  import opened Wrappers
  import opened Watchdog

  const THROTTLE: real := 5.0

  /** A video frame as `on_frame` meets it; `sinkOk` is false when writing it fails. */
  datatype Frame = Frame(at: real, ffmpegGone: bool, sinkOk: bool)

  datatype Counters = Counters(frames: nat, lastLog: real, fatal: bool)

  /** Which marker the frame logs. */
  function MarkerFor(c: Counters, f: Frame): Option<Marker> {
    if f.ffmpegGone || !f.sinkOk then None
    else if c.frames == 0 then Some(FirstVideo)
    else if f.at - c.lastLog >= THROTTLE then Some(VideoProgress)
    else None
  }

  function Counted(c: Counters, f: Frame): Counters {
    Counters(if f.ffmpegGone then c.frames else c.frames + 1,
             if MarkerFor(c, f).Some? then f.at else c.lastLog,
             c.fatal || f.ffmpegGone || !f.sinkOk)
  }

  class Engine {
    var vframes: nat
    var lastVideoLog: real
    var fatal: bool

    function State(): Counters
      reads this
    {
      Counters(vframes, lastVideoLog, fatal)
    }

    constructor ()
      ensures State() == Counters(0, 0.0, false)
    {
      vframes, lastVideoLog, fatal := 0, 0.0, false;
    }

    /** The video branch of `on_frame`. */
    method OnVideo(f: Frame) returns (marker: Option<Marker>)
      modifies this
      ensures marker == MarkerFor(old(State()), f) && State() == Counted(old(State()), f)
    {
      marker := None;
      if f.ffmpegGone {
        fatal := true;
        return;
      }
      vframes := vframes + 1;
      if !f.sinkOk {
        fatal := true;
        return;
      }
      if vframes == 1 {
        lastVideoLog := f.at;
        marker := Some(FirstVideo);
      } else if f.at - lastVideoLog >= THROTTLE {
        lastVideoLog := f.at;
        marker := Some(VideoProgress);
      }
    }
  }

  /** However the logger frames it, a line with the marker is taken for video. */
  lemma MarkedLineIsSeen(c: Counters, f: Frame, before: string, after: string)
    requires MarkerFor(c, f).Some?
    ensures VideoSeen(before + Text(MarkerFor(c, f).value) + after)
  {
    ContainsInside(before, Text(MarkerFor(c, f).value), after);
  }

  /** When markers are logged, over a sequence of frames. */
  function Marked(c: Counters, frames: seq<Frame>): seq<real>
    decreases |frames|
  {
    if frames == [] then []
    else (if MarkerFor(c, frames[0]).Some? then [frames[0].at] else []) + Marked(Counted(c, frames[0]), frames[1..])
  }

  function AfterFrames(c: Counters, frames: seq<Frame>): Counters
    decreases |frames|
  {
    if frames == [] then c else AfterFrames(Counted(c, frames[0]), frames[1..])
  }

  /** The engine fails for good exactly when some frame meets a dead ffmpeg or cannot be written. */
  lemma {:induction false} FatalIff(c: Counters, frames: seq<Frame>)
    ensures AfterFrames(c, frames).fatal <==> c.fatal || exists f :: f in frames && (f.ffmpegGone || !f.sinkOk)
    decreases |frames|
  {
    if frames != [] {
      FatalIff(Counted(c, frames[0]), frames[1..]);
      assert forall f :: f in frames <==> f == frames[0] || f in frames[1..];
    }
  }

  const START: Counters := Counters(0, 0.0, false)

  /** Every frame reaches the sink, and each comes at most `g` after the one before. */
  ghost predicate Flowing(frames: seq<Frame>, g: real) {
    && (forall i | 0 <= i < |frames| :: !frames[i].ffmpegGone && frames[i].sinkOk)
    && (forall i | 0 < i < |frames| :: frames[i - 1].at <= frames[i].at <= frames[i - 1].at + g)
  }

  /** Markers no further than `THROTTLE + g` apart; the last one covers the last frame. */
  ghost predicate Covered(from: real, marks: seq<real>, last: real, g: real)
    decreases |marks|
  {
    if marks == [] then last < from + THROTTLE
    else from <= marks[0] < from + THROTTLE + g && Covered(marks[0], marks[1..], last, g)
  }

  lemma FlowGoesOn(prev: Frame, frames: seq<Frame>, g: real)
    requires frames != [] && Flowing([prev] + frames, g)
    ensures Flowing([frames[0]] + frames[1..], g)
    ensures !frames[0].ffmpegGone && frames[0].sinkOk && prev.at <= frames[0].at <= prev.at + g
    ensures ([frames[0]] + frames[1..])[|frames| - 1] == ([prev] + frames)[|frames|]
  {
    var all := [prev] + frames;
    assert all[1] == frames[0] && all[0] == prev;
    assert [frames[0]] + frames[1..] == all[1..];
    forall i | 0 < i < |all[1..]| ensures all[1..][i - 1].at <= all[1..][i].at <= all[1..][i - 1].at + g {
      assert all[1..][i] == all[i + 1] && all[1..][i - 1] == all[i];
    }
  }

  lemma {:induction false} MarksCover(c: Counters, prev: Frame, frames: seq<Frame>, g: real)
    requires c.frames > 0 && c.lastLog <= prev.at < c.lastLog + THROTTLE
    requires Flowing([prev] + frames, g) && g >= 0.0
    ensures Covered(c.lastLog, Marked(c, frames), ([prev] + frames)[|frames|].at, g)
    decreases |frames|
  {
    if frames != [] {
      FlowGoesOn(prev, frames, g);
      MarksCover(Counted(c, frames[0]), frames[0], frames[1..], g);
      if frames[0].at - c.lastLog >= THROTTLE {
        assert Marked(c, frames)[1..] == Marked(Counted(c, frames[0]), frames[1..]);
      } else {
        assert Marked(c, frames) == Marked(Counted(c, frames[0]), frames[1..]);
      }
    }
  }

  /** The first frame is always marked, and from then on the marks cover the whole stream. */
  lemma StreamIsCovered(frames: seq<Frame>, g: real)
    requires frames != [] && Flowing(frames, g) && g >= 0.0
    ensures var marks := Marked(START, frames);
      && marks != [] && marks[0] == frames[0].at
      && Covered(marks[0], marks[1..], frames[|frames| - 1].at, g)
  {
    var rest := Marked(Counted(START, frames[0]), frames[1..]);
    assert Marked(START, frames) == [frames[0].at] + rest;
    assert [frames[0]] + frames[1..] == frames;
    MarksCover(Counted(START, frames[0]), frames[0], frames[1..], g);
  }

  // ---------------------------------------------------------------- the relay

  /** The log is read in time order, and not from the future. */
  ghost predicate Timely(log: seq<Entry>, now: real) {
    && (forall i, j | 0 <= i < j < |log| :: log[i].at <= log[j].at)
    && (forall i | 0 <= i < |log| :: log[i].at <= now)
  }

  /** A video line read at or after the time `m`. */
  ghost predicate VideoSince(log: seq<Entry>, m: real) {
    exists i :: 0 <= i < |log| && VideoSeen(log[i].text) && log[i].at >= m
  }

  /** Every mark older than `d` has been read, and nothing was read before the first mark. */
  ghost predicate Relayed(log: seq<Entry>, marks: seq<real>, d: real, now: real) {
    && (forall k | 0 <= k < |marks| :: marks[k] + d <= now ==> VideoSince(log, marks[k]))
    && (forall i | 0 <= i < |log| && VideoSeen(log[i].text) :: marks != [] && log[i].at >= marks[0])
  }

  /** A mark recent enough: read already, or the first of all. */
  lemma {:induction false} RecentMark(from: real, marks: seq<real>, last: real, g: real, d: real, now: real) returns (m: real)
    requires Covered(from, marks, last, g) && from + d <= now <= last + g && g >= 0.0 && d >= 0.0
    ensures now < m + THROTTLE + g + d && m + d <= now && (m == from || m in marks)
    decreases |marks|
  {
    if marks != [] && marks[0] + d <= now {
      m := RecentMark(marks[0], marks[1..], last, g, d, now);
    } else {
      m := from;
    }
  }

  lemma LastIsLatest(log: seq<Entry>, now: real, m: real, at: Option<real>)
    requires Timely(log, now) && VideoSince(log, m) && Last(log, VideoSeen, at)
    ensures at.Some? && at.value >= m
  {
    var i :| 0 <= i < |log| && VideoSeen(log[i].text) && log[i].at >= m;
    assert Any(log, VideoSeen);
    var j :| 0 <= j < |log| && VideoSeen(log[j].text) && log[j].at == at.value && !Any(log[j + 1..], VideoSeen);
    NoneAfter(log, j, VideoSeen);
  }

  lemma NoneAfter(log: seq<Entry>, i: nat, marker: string -> bool)
    requires i < |log| && !Any(log[i + 1..], marker)
    ensures forall j | i < j < |log| :: !marker(log[j].text)
  {
    forall j | i < j < |log| ensures !marker(log[j].text) {
      assert log[i + 1..][j - i - 1] == log[j];
    }
  }

  /** While frames flow, the supervisor's last video time is never old. */
  lemma VideoIsRecent(frames: seq<Frame>, log: seq<Entry>, started: real, g: real, d: real, now: real)
    requires frames != [] && Flowing(frames, g) && g >= 0.0 && d >= 0.0 && now <= frames[|frames| - 1].at + g
    requires Timely(log, now) && Relayed(log, Marked(START, frames), d, now)
    ensures var p := AfterLog(Fresh(started), log);
      p.lastVideoAt.Some? ==> now - p.lastVideoAt.value < THROTTLE + g + d
  {
    var marks := Marked(START, frames);
    var p := AfterLog(Fresh(started), log);
    StreamIsCovered(frames, g);
    LogMeaning(log, started);
    if p.lastVideoAt.Some? {
      var since := marks[0];
      if marks[0] + d <= now {
        since := RecentMark(marks[0], marks[1..], frames[|frames| - 1].at, g, d, now);
        assert exists k :: 0 <= k < |marks| && marks[k] == since;
        LastIsLatest(log, now, since, p.lastVideoAt);
      }
    }
  }

  /** What a tick at position `k` has to find for the stream to count as healthy. */
  ghost predicate HealthyTick(events: seq<Event>, k: nat, frames: seq<Frame>, g: real, d: real)
    requires k < |events| && events[k].Tick?
  {
    var log, now := Lines(events[..k]), events[k].now;
    Timely(log, now) &&
    if frames == [] then !Any(log, VideoSeen)
    else now <= frames[|frames| - 1].at + g && Relayed(log, Marked(START, frames), d, now)
  }

  lemma HealthyTickSeesNoStall(started: real, events: seq<Event>, k: nat, frames: seq<Frame>, g: real, d: real,
                               discovery: bool, lim: Limits)
    requires k < |events| && events[k].Tick? && HealthyTick(events, k, frames, g, d)
    requires Flowing(frames, g) && g >= 0.0 && d >= 0.0 && THROTTLE + g + d <= lim.stall
    ensures VerdictAt(started, events, k, discovery, lim) != Some(StreamStall)
  {
    var log := Lines(events[..k]);
    if frames == [] {
      LogMeaning(log, started);
    } else {
      VideoIsRecent(frames, log, started, g, d, events[k].now);
    }
  }

  /**
   * Soundness: with frames at most `g` apart and lines relayed within `d`, a stall timeout of
   * at least `5 + g + d` is never reported, however long the attempt lasts.
   */
  lemma FlowingNeverStalls(started: real, events: seq<Event>, frames: seq<Frame>, g: real, d: real, discovery: bool, lim: Limits)
    requires Flowing(frames, g) && g >= 0.0 && d >= 0.0 && THROTTLE + g + d <= lim.stall
    requires forall k | 0 <= k < |events| && events[k].Tick? :: HealthyTick(events, k, frames, g, d)
    ensures Outcome(Fresh(started), events, discovery, lim) != Some(StreamStall)
  {
    OutcomeIsFirstEnd(started, events, discovery, lim);
    if Outcome(Fresh(started), events, discovery, lim) == Some(StreamStall) {
      var k :| 0 <= k < |events| && EndsAt(started, events, k, discovery, lim, StreamStall) && QuietUntil(started, events, k, discovery, lim);
      HealthyTickSeesNoStall(started, events, k, frames, g, d, discovery, lim);
    }
  }

  // ---------------------------------------------------------------- completeness

  /** The last video line of the log was read at `at`. */
  lemma SilenceIsSeen(started: real, log: seq<Entry>, at: real, now: real, lim: Limits, stop: bool)
    requires Last(log, VideoSeen, Some(at)) && now - at >= lim.stall
    ensures Verdict(AfterLog(Fresh(started), log), now, stop, false, lim) != None
    ensures OnlyStallLeft(log, stop) ==>
      Verdict(AfterLog(Fresh(started), log), now, stop, false, lim) == Some(StreamStall)
  {
    LogMeaning(log, started);
    var p := AfterLog(Fresh(started), log);
    LastUnique(log, VideoSeen, p.lastVideoAt, Some(at));
    FirstAndLast(log, VideoSeen, p.firstVideoAt, p.lastVideoAt);
  }

  lemma LastUnique(log: seq<Entry>, marker: string -> bool, a: Option<real>, b: Option<real>)
    requires Last(log, marker, a) && Last(log, marker, b)
    ensures a == b
  {
    if a.Some? && b.Some? {
      var i :| 0 <= i < |log| && marker(log[i].text) && log[i].at == a.value && !Any(log[i + 1..], marker);
      var j :| 0 <= j < |log| && marker(log[j].text) && log[j].at == b.value && !Any(log[j + 1..], marker);
      NoneAfter(log, i, marker);
      NoneAfter(log, j, marker);
    }
  }

  lemma FirstAndLast(log: seq<Entry>, marker: string -> bool, a: Option<real>, b: Option<real>)
    requires First(log, marker, a) && Last(log, marker, b)
    ensures a.Some? <==> b.Some?
  {
  }

  /** Some event at or before `k` ends the attempt. */
  lemma EndedBy(started: real, events: seq<Event>, k: nat, discovery: bool, lim: Limits)
    requires k < |events| && events[k].Tick? && VerdictAt(started, events, k, discovery, lim) != None
    ensures Outcome(Fresh(started), events[..k + 1], discovery, lim) != None
  {
    var upTo := events[..k + 1];
    OutcomeIsFirstEnd(started, upTo, discovery, lim);
    assert upTo[..k] == events[..k] && upTo[k] == events[k];
  }

  /** Nothing that is looked at before the stall timer can fire. */
  ghost predicate OnlyStallLeft(log: seq<Entry>, stop: bool) {
    !stop && !Any(log, RejectionSeen) && !Any(log, BusyLine) && Any(log, OfferSeen) && Any(log, Opened)
  }

  /**
   * Completeness: if no video line is read after the one at `at`, the first tick `STALL_TIMEOUT`
   * or more later ends the attempt if nothing has before, and it reports the stall if nothing
   * else is left to report.
   */
  lemma SilenceEndsAttempt(started: real, events: seq<Event>, k: nat, at: real, lim: Limits)
    requires k < |events| && events[k].Tick? && events[k].now - at >= lim.stall
    requires Last(Lines(events[..k]), VideoSeen, Some(at))
    ensures Outcome(Fresh(started), events[..k + 1], false, lim) != None
    ensures QuietUntil(started, events, k, false, lim) && OnlyStallLeft(Lines(events[..k]), events[k].stop) ==>
      Outcome(Fresh(started), events, false, lim) == Some(StreamStall)
  {
    SilenceIsSeen(started, Lines(events[..k]), at, events[k].now, lim, events[k].stop);
    EndedBy(started, events, k, false, lim);
    if QuietUntil(started, events, k, false, lim) && OnlyStallLeft(Lines(events[..k]), events[k].stop) {
      EndDecides(started, events, k, false, lim, StreamStall);
    }
  }

  /** In discovery mode no clock runs once the data channel is open: only a stop, a 486 or -104 ends it. */
  lemma DiscoveryHasNoTimer(started: real, log: seq<Entry>, now: real, stop: bool, lim: Limits)
    requires Any(log, OfferSeen) && Any(log, Opened)
    ensures Verdict(AfterLog(Fresh(started), log), now, stop, true, lim).Some? <==>
      stop || Any(log, RejectionSeen) || Any(log, BusyLine)
  {
    LogMeaning(log, started);
  }
}
