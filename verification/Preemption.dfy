/**
 * Session gate, adaptive warmer and go2rtc together: a lease held only by the warmer gives
 * way to a waiting supervisor, one held by a viewer does not.
 */
module Preemption {
  import opened Wrappers
  import Gate = GateProtocol
  import GateInvariant
  import opened Warmer

  /** Where the controller's loop stands; `Fetched` carries the response it is about to act on. */
  datatype Loop = AtHead | Fetching | Fetched(counts: map<string, nat>)

  datatype System = System(
    gate: Gate.State,
    warm: Warm,
    loop: Loop,
    viewers: map<string, nat>,      // external consumers of each stream
    lingering: set<string>,         // streams whose cancelled warm consumer go2rtc still lists
    stream: string,                 // the stream that the session holder produces
    holder: nat                     // the supervisor whose session is being watched
  )

  datatype Move =
    | GateMove(st: Gate.Step)
    | Head                                        // consume the marker, or go on to fetch
    | FetchOk
    | FetchFails
    | Act(requested: Option<string>, now: real, at: real, lease: real)
    | TaskEnds
    | Join(name: string)
    | Leave(name: string)
    | Forget(name: string)                        // go2rtc drops a cancelled consumer
    | Interrupt                                   // go2rtc: no consumer left, SIGINT to the producer

  function Viewers(s: System, name: string): nat {
    if name in s.viewers then s.viewers[name] else 0
  }

  function Bit(b: bool): nat {
    if b then 1 else 0
  }

  /** Consumers go2rtc counts on a stream. */
  function Consumers(s: System, name: string): nat {
    Viewers(s, name) + Bit(s.warm.stream == Some(name) && IsRunning(s.warm)) + Bit(name in s.lingering)
  }

  /** What the controller computes from a response: everything but its own running consumer. */
  ghost function Reported(s: System): map<string, nat> {
    map n | n in s.viewers && EufyName(n) :: Viewers(s, n) + Bit(n in s.lingering)
  }

  /** `external_consumer_counts` on a response that lists those consumers gives just that. */
  lemma ReportedIsCounts(s: System, streams: map<string, StreamInfo>)
    requires streams.Keys == s.viewers.Keys
    requires forall n | n in streams :: CountOf(streams[n]) == Consumers(s, n)
    ensures Counts(streams, s.warm.stream, IsRunning(s.warm)) == Reported(s)
  {
  }

  /** Cancelling the running consumer leaves it listed for a while. */
  function Lingers(s: System): set<string> {
    if s.warm.stream.Some? && IsRunning(s.warm) then s.lingering + {s.warm.stream.value} else s.lingering
  }

  predicate Enabled(s: System, m: Move) {
    match m
    case GateMove(st) => !st.WarmTakes? && Gate.Enabled(s.gate, st)
    case Head => s.loop.AtHead?
    case FetchOk => s.loop.Fetching?
    case FetchFails => s.loop.Fetching?
    case Act(_, _, _, _) => s.loop.Fetched?
    case TaskEnds => true
    case Join(_) => true
    case Leave(n) => Viewers(s, n) > 0
    case Forget(n) => n in s.lingering
    case Interrupt => Consumers(s, s.stream) == 0 && s.holder in s.gate.sups
  }

  ghost function Next(s: System, m: Move): System {
    if !Enabled(s, m) then s else
    match m
    case GateMove(st) => s.(gate := Gate.Next(s.gate, st))
    case Head =>
      if s.gate.marker then
        s.(gate := s.gate.(marker := false),
           warm := if s.warm.stream.Some? then Stopped(s.warm) else s.warm,
           lingering := if s.warm.stream.Some? then Lingers(s) else s.lingering)
      else s.(loop := Fetching)
    case FetchOk => s.(loop := Fetched(Reported(s)))
    case FetchFails => s.(warm := Stopped(s.warm), lingering := Lingers(s), loop := AtHead)
    case Act(requested, now, at, lease) =>
      var w := Decide(s.warm, requested, now, at, lease);
      s.(warm := w, lingering := if w.stream != s.warm.stream then Lingers(s) else s.lingering, loop := AtHead)
    case TaskEnds => s.(warm := s.warm.(live := {}))
    case Join(n) => s.(viewers := s.viewers[n := Viewers(s, n) + 1])
    case Leave(n) => s.(viewers := s.viewers[n := Viewers(s, n) - 1])
    case Forget(n) => s.(lingering := s.lingering - {n})
    case Interrupt => s.(gate := Gate.Next(s.gate, Gate.Stop(s.holder)))
  }

  /** The controller acts on the choice the response dictates. */
  ghost predicate Honest(s: System, m: Move) {
    m.Act? && s.loop.Fetched? ==> IsChoice(s.loop.counts, s.warm.stream, m.requested)
  }

  /**
   * Nobody asks for the stream: no viewer joins it, and go2rtc has dropped a cancelled warm
   * consumer of it before the controller looks again.
   */
  ghost predicate Unwatched(s: System, m: Move) {
    Honest(s, m) && m != Join(s.stream) && (m.FetchOk? ==> s.stream !in s.lingering)
  }

  /** ... and the holder of the session is not killed. */
  ghost predicate Calm(s: System, m: Move) {
    Unwatched(s, m) && !(m.GateMove? && m.st == Gate.Kill(s.holder))
  }

  ghost function After(s: System, run: seq<Move>): System
    decreases |run|
  {
    if run == [] then s else After(Next(s, run[0]), run[1..])
  }

  ghost predicate AllCalm(s: System, run: seq<Move>)
    decreases |run|
  {
    run == [] || (Calm(s, run[0]) && AllCalm(Next(s, run[0]), run[1..]))
  }

  ghost predicate AllUnwatched(s: System, run: seq<Move>)
    decreases |run|
  {
    run == [] || (Unwatched(s, run[0]) && AllUnwatched(Next(s, run[0]), run[1..]))
  }

  // ---------------------------------------------------------------- the situation

  /** The holder has its session (past clearing the marker), and nobody watches its stream. */
  ghost predicate Session(s: System) {
    && GateInvariant.Inv(s.gate)
    && s.gate.lock == Some(s.holder)
    && (Gate.At(s.gate, s.holder).Engine? || Draining(s))
    && Outside(s)
  }

  /** The warmer's and go2rtc's part of a session. */
  ghost predicate Outside(s: System) {
    Viewers(s, s.stream) == 0 && Paired(s.warm) && (Warmed(s) || Harmless(s))
  }

  ghost predicate Draining(s: System) {
    Gate.At(s.gate, s.holder).Draining? && Gate.At(s.gate, s.holder).until <= s.gate.now + s.gate.delay
  }

  ghost predicate Warmed(s: System) {
    s.warm.stream == Some(s.stream)
  }

  /** A pending response cannot ask for the watched stream. */
  ghost predicate Harmless(s: System) {
    s.loop.Fetched? ==> s.stream !in s.loop.counts || s.loop.counts[s.stream] == 0
  }

  /** Another supervisor waits, and is not told to stop. */
  predicate Waits(s: System, w: nat) {
    w != s.holder && w in s.gate.sups && Gate.Queued(Gate.At(s.gate, w)) && !s.gate.sups[w].stopping
  }

  // ---------------------------------------------------------------- the measure

  /** Time until the waiter's next touch of the marker is due. */
  function UntilHint(s: System, w: nat): nat {
    if w in s.gate.sups && s.gate.now - s.gate.sups[w].lastHint < Gate.SECOND
    then Gate.SECOND - (s.gate.now - s.gate.sups[w].lastHint) else 0
  }

  /** Accesses left before the waiter touches the marker, once that is due. */
  function Accesses(s: System, w: nat): nat {
    if UntilHint(s, w) > 0 then 3
    else match Gate.At(s.gate, w)
      case Polled(_, _) => 2
      case Refused(_) => 1
      case _ => 3
  }

  /** Moves left until the controller takes the marker; a cancelled consumer has to be dropped before a fetch. */
  function LoopLeft(s: System): nat {
    match s.loop
    case AtHead => 5
    case Fetched(_) => 6
    case Fetching => 7 + Bit(s.stream in s.lingering)
  }

  /** How far the warmer and go2rtc are from interrupting the session. */
  ghost function Stage(s: System, w: nat): nat
    requires s.holder in s.gate.sups
  {
    if s.gate.sups[s.holder].stopping then 2
    else if !Warmed(s) then (if s.stream in s.lingering then 4 else 3)
    else if s.gate.marker then LoopLeft(s)
    else 9 + 4 * UntilHint(s, w) + Accesses(s, w)
  }

  function DrainLeft(s: System): nat
    requires Gate.At(s.gate, s.holder).Draining?
  {
    if Gate.At(s.gate, s.holder).until <= s.gate.now then 0 else Gate.At(s.gate, s.holder).until - s.gate.now
  }

  /** How many helpful moves the session can still outlast. */
  ghost function Rank(s: System, w: nat): nat
    requires s.holder in s.gate.sups
  {
    if Draining(s) then 1 + DrainLeft(s) else s.gate.delay + Stage(s, w)
  }

  ghost predicate Released(s: System) {
    s.gate.lock != Some(s.holder)
  }
}
