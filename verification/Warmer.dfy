/** bridge/eufy_warm.py: which stream to keep warm, and the lease on it. */
module Warmer {
  import opened Wrappers
  import opened Text

  const RESTART_DELAY: real := 0.75

  /** A go2rtc consumer: an object with a lower-cased format name, or something else. */
  datatype Consumer = Opaque | Consumer(format: string)

  /** A stream's `consumers`, when it is a list. */
  datatype StreamInfo = NoList | Consumers(list: seq<Consumer>)

  predicate SnapshotOnly(c: Consumer) {
    c.Consumer? && (c.format == "keyframe" || c.format == "jpeg" || c.format == "mjpeg")
  }

  function LiveCount(list: seq<Consumer>): nat {
    if list == [] then 0 else (if SnapshotOnly(list[0]) then 0 else 1) + LiveCount(list[1..])
  }

  lemma {:induction false} LiveCountSnoc(list: seq<Consumer>, c: Consumer)
    ensures LiveCount(list + [c]) == LiveCount(list) + if SnapshotOnly(c) then 0 else 1
    decreases |list|
  {
    if list == [] {
      assert [] + [c] == [c] && [c][1..] == [];
    } else {
      assert (list + [c])[1..] == list[1..] + [c];
      LiveCountSnoc(list[1..], c);
    }
  }

  /** A consumer counts unless it is an object that names a snapshot format. */
  ghost function Counting(list: seq<Consumer>): set<int> {
    set i | 0 <= i < |list| && (list[i].Opaque? || list[i].format !in {"keyframe", "jpeg", "mjpeg"})
  }

  lemma {:induction false} LiveCountIs(list: seq<Consumer>)
    ensures LiveCount(list) == |Counting(list)|
    decreases |list|
  {
    if list != [] {
      var rest, c := list[..|list| - 1], list[|list| - 1];
      assert list == rest + [c];
      LiveCountIs(rest);
      LiveCountSnoc(rest, c);
      assert forall i | 0 <= i < |rest| :: list[i] == rest[i];
      assert Counting(list) == Counting(rest) + if SnapshotOnly(c) then {} else {|rest|};
    }
  }

  function CountOf(info: StreamInfo): nat {
    if info.Consumers? then LiveCount(info.list) else 0
  }

  predicate EufyName(name: string) {
    |name| >= 5 && name[..5] == "eufy_"
  }

  /** Consumers of one stream without the warmer's own. */
  function External(name: string, info: StreamInfo, warm: Option<string>, running: bool): nat {
    var n := CountOf(info);
    if running && warm == Some(name) && n > 0 then n - 1 else n
  }

  ghost function Counts(streams: map<string, StreamInfo>, warm: Option<string>, running: bool): map<string, nat> {
    map n | n in streams && EufyName(n) :: External(n, streams[n], warm, running)
  }

  /** `external_consumer_counts`: the loop over the stream dictionary. */
  method ExternalConsumerCounts(streams: map<string, StreamInfo>, warm: Option<string>, running: bool)
    returns (counts: map<string, nat>)
    ensures counts == Counts(streams, warm, running)
  {
    counts := map[];
    var names := streams.Keys;
    while names != {}
      invariant names <= streams.Keys
      invariant counts == map n | n in streams && EufyName(n) && n !in names :: External(n, streams[n], warm, running)
      decreases |names|
    {
      var name :| name in names;
      names := names - {name};
      if EufyName(name) {
        var info := streams[name];
        var count := 0;
        if info.Consumers? {
          for i := 0 to |info.list|
            invariant count + LiveCount(info.list[i..]) == LiveCount(info.list)
          {
            assert info.list[i..][1..] == info.list[i + 1..];
            if !SnapshotOnly(info.list[i]) {
              count := count + 1;
            }
          }
        }
        if running && warm == Some(name) && count > 0 {
          count := count - 1;
        }
        counts := counts[name := count];
      }
    }
  }

  // ---------------------------------------------------------------- choose_stream

  ghost function Active(counts: map<string, nat>): set<string> {
    set n | n in counts && counts[n] > 0
  }

  /** `min` with key `(-count, name)`: more consumers first, then the earlier name. */
  predicate Beats(counts: map<string, nat>, a: string, b: string)
    requires a in counts && b in counts
  {
    counts[a] > counts[b] || (counts[a] == counts[b] && LexLess(a, b))
  }

  ghost predicate IsChoice(counts: map<string, nat>, current: Option<string>, r: Option<string>) {
    if Active(counts) == {} then r == None
    else if current.Some? && current.value in Active(counts) then r == current
    else (
      && r.Some? && r.value in Active(counts)
      && forall n | n in Active(counts) && n != r.value :: Beats(counts, r.value, n)
    )
  }

  /** The choice spelled out: an active stream, the current one if active, else one with the most consumers, the first by name. */
  lemma ChoiceIsMost(counts: map<string, nat>, current: Option<string>, r: Option<string>)
    requires IsChoice(counts, current, r)
    ensures r == None <==> forall n | n in counts :: counts[n] == 0
    ensures r.Some? ==> r.value in counts && counts[r.value] > 0
    ensures r.Some? && current.Some? && current.value in counts && counts[current.value] > 0 ==> r == current
    ensures r.Some? && !(current.Some? && current.value in counts && counts[current.value] > 0) ==>
      forall n | n in counts && n != r.value && counts[n] > 0 ::
        counts[n] < counts[r.value] || (counts[n] == counts[r.value] && LexLess(r.value, n))
  {
    if forall n | n in counts :: counts[n] == 0 {
      assert Active(counts) == {};
    } else {
      assert forall n | n in counts && counts[n] > 0 :: n in Active(counts);
    }
  }

  lemma ChoiceUnique(counts: map<string, nat>, current: Option<string>, a: Option<string>, b: Option<string>)
    requires IsChoice(counts, current, a) && IsChoice(counts, current, b)
    ensures a == b
  {
    if a != b {
      LexTrichotomy(a.value, b.value);
    }
  }

  lemma BeatsTransitive(counts: map<string, nat>, a: string, b: string, c: string)
    requires a in counts && b in counts && c in counts && Beats(counts, a, b) && Beats(counts, b, c)
    ensures Beats(counts, a, c)
  {
    if counts[a] == counts[b] == counts[c] { LexTransitive(a, b, c); }
  }

  /** `choose_stream`: whatever the dictionary order, there is one answer. */
  method ChooseStream(counts: map<string, nat>, current: Option<string>) returns (r: Option<string>)
    ensures IsChoice(counts, current, r)
  {
    if current.Some? && current.value in counts && counts[current.value] > 0 {
      assert current.value in Active(counts);
      return current;
    }
    r := None;
    var names := counts.Keys;
    while names != {}
      invariant names <= counts.Keys
      invariant r == None ==> forall n | n in counts && n !in names :: counts[n] == 0
      invariant r.Some? ==> r.value in counts && r.value !in names && counts[r.value] > 0
      invariant r.Some? ==> forall n | n in counts && n !in names && counts[n] > 0 && n != r.value :: Beats(counts, r.value, n)
      decreases |names|
    {
      var name :| name in names;
      names := names - {name};
      if counts[name] > 0 {
        if r == None {
          r := Some(name);
        } else {
          LexTrichotomy(name, r.value);
          if Beats(counts, name, r.value) {
            ghost var before := r.value;
            forall n | n in counts && n !in names && counts[n] > 0 && n != name ensures Beats(counts, name, n) {
              if n != before { BeatsTransitive(counts, name, before, n); }
            }
            r := Some(name);
          }
        }
      }
    }
    if r.Some? { assert r.value in Active(counts); }
  }

  // ---------------------------------------------------------------- the controller's state

  /** The controller's fields, and the consumer tasks that are still running. */
  datatype Warm = Warm(
    stream: Option<string>,
    task: Option<nat>,
    lastExternal: real,
    lastStart: real,
    next: nat,
    live: set<nat>
  )

  predicate IsRunning(w: Warm) {
    w.task.Some? && w.task.value in w.live
  }

  function Stopped(w: Warm): Warm {
    w.(stream := None, task := None, live := if w.task.Some? then w.live - {w.task.value} else w.live)
  }

  function Started(w: Warm, stream: string, at: real): Warm {
    var s := Stopped(w);
    s.(stream := Some(stream), task := Some(s.next), lastStart := at, next := s.next + 1, live := s.live + {s.next})
  }

  /** The decision after a successful fetch; `at` is the clock once the old consumer is gone. */
  function Decide(w: Warm, requested: Option<string>, now: real, at: real, lease: real): Warm {
    var restart := !IsRunning(w) && now - w.lastStart >= RESTART_DELAY;
    if requested.Some? then
      var v := w.(lastExternal := now);
      if requested != w.stream || restart then Started(v, requested.value, at) else v
    else if w.stream.Some? then
      if restart then Started(w, w.stream.value, at)
      else if now - w.lastExternal >= lease then Stopped(w)
      else w
    else w
  }

  /** Stream and task come and go together, and at most the current consumer runs. */
  ghost predicate Paired(w: Warm) {
    && (w.stream.Some? <==> w.task.Some?)
    && w.live <= (if w.task.Some? then {w.task.value} else {})
    && (w.task.Some? ==> w.task.value < w.next)
  }

  class AdaptiveWarmer {
    const lease: real
    var warmStream: Option<string>
    var warmer: Option<nat>
    var lastExternalAt: real
    var lastStartAttempt: real
    var nextTask: nat
    var live: set<nat>

    function State(): Warm
      reads this
    {
      Warm(warmStream, warmer, lastExternalAt, lastStartAttempt, nextTask, live)
    }

    constructor (lease: real)
      ensures Paired(State()) && State() == Warm(None, None, 0.0, 0.0, 0, {}) && this.lease == lease
    {
      this.lease := lease;
      warmStream, warmer, lastExternalAt, lastStartAttempt, nextTask, live := None, None, 0.0, 0.0, 0, {};
    }

    /** `stop_warmer`: cancel and await the task. */
    method StopWarmer()
      modifies this
      ensures State() == Stopped(old(State()))
      ensures old(Paired(State())) ==> Paired(State()) && live == {}
    {
      var task := warmer;
      warmer := None;
      warmStream := None;
      if task.Some? {
        live := live - {task.value};
      }
    }

    /** `start_warmer`: the old consumer is gone before the new one is created. */
    method StartWarmer(stream: string, at: real)
      modifies this
      ensures State() == Started(old(State()), stream, at)
      ensures old(Paired(State())) ==> Paired(State()) && live == {nextTask - 1}
    {
      StopWarmer();
      lastStartAttempt := at;
      warmStream := Some(stream);
      warmer := Some(nextTask);
      live := live + {nextTask};
      nextTask := nextTask + 1;
    }

    /** The part of `run` after a fetch. */
    method Serve(streams: map<string, StreamInfo>, now: real, at: real) returns (requested: Option<string>)
      modifies this
      ensures IsChoice(Counts(streams, old(warmStream), IsRunning(old(State()))), old(warmStream), requested)
      ensures State() == Decide(old(State()), requested, now, at, lease)
      ensures old(Paired(State())) ==> Paired(State())
    {
      var running := warmer.Some? && warmer.value in live;
      var counts := ExternalConsumerCounts(streams, warmStream, running);
      requested := ChooseStream(counts, warmStream);
      if requested.Some? {
        lastExternalAt := now;
        if requested != warmStream {
          StartWarmer(requested.value, at);
        } else if !running && now - lastStartAttempt >= RESTART_DELAY {
          StartWarmer(requested.value, at);
        }
      } else if warmStream.Some? {
        if !running && now - lastStartAttempt >= RESTART_DELAY {
          StartWarmer(warmStream.value, at);
        } else if now - lastExternalAt >= lease {
          StopWarmer();
        }
      }
    }
  }

  // ---------------------------------------------------------------- the lease, over whole runs

  /** One pass of the controller's loop. */
  datatype Pass =
    | Marker                                            // a preempt request was there
    | ApiError
    | Poll(requested: Option<string>, now: real, at: real)
    | TaskEnds                                          // the consumer ends by itself between passes

  function Passed(w: Warm, p: Pass, lease: real): Warm {
    match p
    case Marker => if w.stream.Some? then Stopped(w) else w
    case ApiError => Stopped(w)
    case Poll(requested, now, at) => Decide(w, requested, now, at, lease)
    case TaskEnds => w.(live := {})
  }

  function AfterPasses(w: Warm, passes: seq<Pass>, lease: real): Warm
    decreases |passes|
  {
    if passes == [] then w else AfterPasses(Passed(w, passes[0], lease), passes[1..], lease)
  }

  /** The latest stream any poll asked for. */
  function LastChosen(passes: seq<Pass>, before: Option<string>): Option<string>
    decreases |passes|
  {
    if passes == [] then before
    else LastChosen(passes[1..], if passes[0].Poll? && passes[0].requested.Some? then passes[0].requested else before)
  }

  /**
   * At each loop head stream and task are both absent or both present, one consumer runs at
   * most, and whatever is warm is the stream chosen last.
   */
  lemma {:induction false} WarmInvariant(w: Warm, passes: seq<Pass>, lease: real, chosen: Option<string>)
    requires Paired(w) && (w.stream.Some? ==> w.stream == chosen)
    ensures var e := AfterPasses(w, passes, lease);
      Paired(e) && |e.live| <= 1 && (e.stream.Some? ==> e.stream == LastChosen(passes, chosen))
    decreases |passes|
  {
    if passes == [] {
      if w.live != {} { assert w.live == {w.task.value}; }
    } else {
      var c := if passes[0].Poll? && passes[0].requested.Some? then passes[0].requested else chosen;
      WarmInvariant(Passed(w, passes[0], lease), passes[1..], lease, c);
    }
  }

  // ---------------------------------------------------------------- demand

  /** When the latest poll that asked for a stream took place. */
  function LastDemand(passes: seq<Pass>, before: real): real
    decreases |passes|
  {
    if passes == [] then before
    else LastDemand(passes[1..], if passes[0].Poll? && passes[0].requested.Some? then passes[0].now else before)
  }

  /** The lease always counts from the latest poll that found a viewer, of a new stream or of the warm one. */
  lemma {:induction false} LeaseClock(w: Warm, passes: seq<Pass>, lease: real)
    ensures AfterPasses(w, passes, lease).lastExternal == LastDemand(passes, w.lastExternal)
    decreases |passes|
  {
    if passes != [] { LeaseClock(Passed(w, passes[0], lease), passes[1..], lease); }
  }

  /** A preempt request and an API error drop the lease at once, and nothing is left running. */
  lemma LeaseDroppedAtOnce(w: Warm, p: Pass, lease: real)
    requires Paired(w) && (p.Marker? || p.ApiError?)
    ensures var e := Passed(w, p, lease); e.stream == None && e.task == None && e.live == {}
  {
  }

  /**
   * Demand is served: afterwards the stream is the one asked for, and a consumer runs unless the
   * old one of this stream has ended and its restart is not due yet. A running consumer of the
   * stream is left alone; otherwise there is a new one, started now.
   */
  lemma DemandServed(w: Warm, p: Pass, lease: real)
    requires Paired(w) && p.Poll? && p.requested.Some?
    ensures var e := Passed(w, p, lease);
      var ours := p.requested == w.stream;
      var due := p.now - w.lastStart >= RESTART_DELAY;
      && e.stream == p.requested && e.lastExternal == p.now
      && (IsRunning(e) <==> !ours || IsRunning(w) || due)
      && (ours && (IsRunning(w) || !due) ==> e.task == w.task && e.lastStart == w.lastStart)
      && (!ours || (!IsRunning(w) && due) ==> e.task == Some(w.next) && e.lastStart == p.at)
  {
  }

  /** No viewer, no marker, no API error. */
  predicate Quiet(passes: seq<Pass>) {
    forall p | p in passes :: p.TaskEnds? || (p.Poll? && p.requested == None)
  }

  /** The poll drops the lease: it has expired, and the restart branch does not come first. */
  predicate Releases(w: Warm, p: Pass, lease: real) {
    p.Poll? && w.stream.Some? && p.now - w.lastExternal >= lease &&
    (IsRunning(w) || p.now - w.lastStart < RESTART_DELAY)
  }

  /** Exactly such a poll releases a quiet lease; every other quiet pass keeps stream and expiry. */
  lemma QuietPass(w: Warm, p: Pass, lease: real)
    requires Quiet([p]) && w.stream.Some?
    ensures var e := Passed(w, p, lease);
      && (e.stream == None <==> Releases(w, p, lease))
      && (e.stream != None ==> e.stream == w.stream && e.lastExternal == w.lastExternal)
  {
    assert p in [p];
  }

  /** The lease is never released before `last_external_at + lease`. */
  lemma {:induction false} LeaseHeld(w: Warm, passes: seq<Pass>, lease: real)
    requires Quiet(passes) && w.stream.Some?
    requires forall p | p in passes && p.Poll? :: p.now < w.lastExternal + lease
    ensures var e := AfterPasses(w, passes, lease); e.stream == w.stream && e.lastExternal == w.lastExternal
    decreases |passes|
  {
    if passes != [] {
      assert passes[0] in passes;
      QuietPass(w, passes[0], lease);
      LeaseHeld(Passed(w, passes[0], lease), passes[1..], lease);
    }
  }

  /** ... and the first later poll that finds the consumer running releases it. */
  lemma LeaseEnds(w: Warm, passes: seq<Pass>, last: Pass, lease: real)
    requires Quiet(passes + [last]) && w.stream.Some? && last.Poll?
    requires forall p | p in passes && p.Poll? :: p.now < w.lastExternal + lease
    requires last.now >= w.lastExternal + lease && IsRunning(AfterPasses(w, passes, lease))
    ensures AfterPasses(w, passes + [last], lease) == Stopped(AfterPasses(w, passes, lease))
  {
    assert forall p | p in passes :: p in passes + [last];
    assert last in passes + [last];
    LeaseHeld(w, passes, lease);
    AfterPassesSnoc(w, passes, last, lease);
  }

  /**
   * The lease from the last viewer on: over any passes that end with a poll that found demand,
   * quiet passes before its time plus the lease keep the stream warm, and the first quiet poll
   * later that finds the consumer running releases it.
   */
  lemma LeaseFromLastViewer(w: Warm, before: seq<Pass>, demand: Pass, quiet: seq<Pass>, last: Pass, lease: real)
    requires Paired(w) && demand.Poll? && demand.requested.Some?
    requires Quiet(quiet + [last]) && last.Poll? && last.now >= demand.now + lease
    requires forall p | p in quiet && p.Poll? :: p.now < demand.now + lease
    ensures var e := AfterPasses(Passed(AfterPasses(w, before, lease), demand, lease), quiet, lease);
      && e.stream == demand.requested && e.lastExternal == demand.now
      && (IsRunning(e) ==> Passed(e, last, lease) == Stopped(e))
  {
    PairedAfter(w, before, lease);
    var v := AfterPasses(w, before, lease);
    DemandServed(v, demand, lease);
    var d := Passed(v, demand, lease);
    assert forall p | p in quiet :: p in quiet + [last];
    assert last in quiet + [last];
    LeaseHeld(d, quiet, lease);
  }

  lemma {:induction false} PairedAfter(w: Warm, passes: seq<Pass>, lease: real)
    requires Paired(w)
    ensures Paired(AfterPasses(w, passes, lease))
    decreases |passes|
  {
    if passes != [] { PairedAfter(Passed(w, passes[0], lease), passes[1..], lease); }
  }

  lemma {:induction false} AfterPassesSnoc(w: Warm, passes: seq<Pass>, last: Pass, lease: real)
    ensures AfterPasses(w, passes + [last], lease) == Passed(AfterPasses(w, passes, lease), last, lease)
    decreases |passes|
  {
    if passes == [] {
      assert [] + [last] == [last] && [last][1..] == [];
      assert AfterPasses(Passed(w, last, lease), [], lease) == Passed(w, last, lease);
    } else {
      assert (passes + [last])[1..] == passes[1..] + [last];
      AfterPassesSnoc(Passed(w, passes[0], lease), passes[1..], last, lease);
    }
  }

  /**
   * A consumer that keeps ending: each poll finds it ended, and comes no sooner than the restart
   * delay after the last start.
   */
  predicate KeepsEnding(lastStart: real, passes: seq<Pass>)
    decreases |passes|
  {
    passes == [] ||
    (|passes| >= 2 && passes[0].TaskEnds? && passes[1].Poll? && passes[1].requested == None &&
     passes[1].now - lastStart >= RESTART_DELAY && KeepsEnding(passes[1].at, passes[2..]))
  }

  /**
   * Such a consumer outlives its lease for good: restarting comes first, so over every such run,
   * however far past the expiry, the stream stays warm and the lease is never checked.
   */
  lemma {:induction false} RestartOutlivesLease(w: Warm, passes: seq<Pass>, lease: real)
    requires Paired(w) && w.stream.Some? && KeepsEnding(w.lastStart, passes)
    ensures var e := AfterPasses(w, passes, lease);
      e.stream == w.stream && e.lastExternal == w.lastExternal && (passes != [] ==> IsRunning(e))
    decreases |passes|
  {
    if passes != [] {
      var ended := Passed(w, passes[0], lease);
      var e := Passed(ended, passes[1], lease);
      assert !IsRunning(ended) && e == Started(ended, w.stream.value, passes[1].at);
      assert AfterPasses(w, passes, lease) == AfterPasses(e, passes[2..], lease) by {
        assert passes[1..][1..] == passes[2..] && passes[1..][0] == passes[1];
      }
      RestartOutlivesLease(e, passes[2..], lease);
      if passes[2..] == [] { assert AfterPasses(e, [], lease) == e; }
    }
  }
}
