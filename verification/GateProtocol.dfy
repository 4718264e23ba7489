/**
 * Any number of supervisors competing for the one NVR session, as a step system over the
 * shared files, the process table and a monotonic clock (nanoseconds).
 */
module GateProtocol {
  import opened Wrappers
  import opened Text
  import opened Tickets
  import opened TicketQueue
  import opened SessionGate

  const SECOND: nat := 1_000_000_000

  /** Where a supervisor stands between two of its shared-state accesses. */
  datatype Phase =
    | Idle                                          // outside `acquire`, no engine
    | Stamped(ticket: Ticket)                       // name computed, file not written
    | Waiting(ticket: Ticket)                       // head of the polling loop
    | Polled(ticket: Ticket, queue: seq<string>)    // directory snapshot taken
    | Refused(ticket: Ticket)                       // not first, or flock busy
    | Locked(ticket: Ticket)                        // flock held, marker not yet cleared
    | Cleared(ticket: Ticket)                       // ticket not yet unlinked
    | Holding                                       // `acquire` returned True
    | Engine                                        // engine process group alive
    | Draining(until: nat)                          // sleeping SESSION_RELEASE_DELAY

  datatype Supervisor = Supervisor(phase: Phase, stopping: bool, lastHint: nat)

  datatype State = State(
    delay: nat,                      // SESSION_RELEASE_DELAY
    procs: map<nat, nat>,            // live processes and their kernel start times
    ever: set<(nat, nat)>,           // every process that has existed
    sups: map<nat, Supervisor>,
    dir: set<string>,
    lock: Option<nat>,
    marker: bool,
    now: nat,
    lastEnd: Option<nat>,            // when the latest engine group died
    orphans: nat                     // engine groups alive whose supervisor was killed
  )

  datatype Step =
    | Spawn(pid: nat, start: nat, supervisor: bool)
    | Kill(pid: nat)
    | Stop(pid: nat)
    | Stamp(pid: nat, gate: nat, known: bool)
    | Publish(pid: nat)
    | Arrive(pid: nat, gate: nat, known: bool)      // Stamp and Publish with nothing between
    | Poll(pid: nat, blind: set<nat>)
    | TryLock(pid: nat)
    | Rest(pid: nat)                                // hint if due, then sleep one poll
    | GiveUp(pid: nat)                              // stop event, cancellation or I/O error
    | ClearMarker(pid: nat)
    | DropTicket(pid: nat)
    | StartEngine(pid: nat)
    | FailStart(pid: nat)
    | EndEngine(pid: nat)
    | Release(pid: nat)
    | OrphanEnds                                    // an engine group without supervisor dies
    | WarmTakes                                     // the adaptive warmer unlinks the marker
    | Tick(d: nat)

  // ---------------------------------------------------------------- phases

  predicate HasTicket(ph: Phase) {
    ph.Stamped? || ph.Waiting? || ph.Polled? || ph.Refused? || ph.Locked? || ph.Cleared?
  }

  /** The ticket file exists. */
  predicate Published(ph: Phase) {
    HasTicket(ph) && !ph.Stamped?
  }

  /** Published and not yet granted. */
  predicate Queued(ph: Phase) {
    ph.Waiting? || ph.Polled? || ph.Refused?
  }

  predicate Owns(ph: Phase) {
    ph.Locked? || ph.Cleared? || ph.Holding? || ph.Engine? || ph.Draining?
  }

  // ---------------------------------------------------------------- steps

  /** The phase of a supervisor; a number that names none counts as idle. */
  function At(s: State, p: nat): Phase {
    if p in s.sups then s.sups[p].phase else Idle
  }

  function Move(s: State, p: nat, ph: Phase): State {
    if p in s.sups then s.(sups := s.sups[p := s.sups[p].(phase := ph)]) else s
  }

  /** The start time as /proc shows it to the process itself. */
  function OwnStart(s: State, p: nat, known: bool): string {
    if known && p in s.procs then Digits(s.procs[p]) else "0"
  }

  predicate Enabled(s: State, st: Step) {
    match st
    case Spawn(p, k, _) => p !in s.procs && (p, k) !in s.ever && k > 0
    case Kill(p) => p in s.procs
    case Stop(p) => p in s.sups
    case Stamp(p, _, _) => p in s.sups && At(s, p).Idle?
    case Publish(p) => At(s, p).Stamped?
    case Arrive(p, _, _) => p in s.sups && At(s, p).Idle?
    case Poll(p, _) => At(s, p).Waiting? && !s.sups[p].stopping
    case TryLock(p) => At(s, p).Polled?
    case Rest(p) => At(s, p).Refused?
    case GiveUp(p) => At(s, p).Stamped? || At(s, p).Waiting?
    case ClearMarker(p) => At(s, p).Locked?
    case DropTicket(p) => At(s, p).Cleared?
    case StartEngine(p) => At(s, p).Holding?
    case FailStart(p) => At(s, p).Holding?
    case EndEngine(p) => At(s, p).Engine?
    case Release(p) => At(s, p).Draining? && At(s, p).until <= s.now
    case OrphanEnds => s.orphans > 0
    case WarmTakes => true
    case Tick(d) => s.now + d < CLOCK_LIMIT
  }

  function StampTicket(s: State, p: nat, gate: nat, known: bool): State {
    if p in s.sups then
      var t := Ticket(s.now, p, OwnStart(s, p, known), gate);
      s.(sups := s.sups[p := s.sups[p].(phase := Stamped(t), lastHint := 0)])
    else s
  }

  function PublishTicket(s: State, p: nat): State {
    if At(s, p).Stamped? then
      var t := At(s, p).ticket;
      Move(s.(dir := s.dir + {Name(t)}), p, Waiting(t))
    else s
  }

  ghost function Snapshot(s: State, p: nat, blind: set<nat>): State {
    if At(s, p).Waiting? then
      Move(s.(dir := LiveNames(s.dir, s.procs, blind)), p,
           Polled(At(s, p).ticket, LiveQueue(s.dir, s.procs, blind)))
    else s
  }

  /** The try succeeds: first in the snapshot (or alone), and the flock is free. */
  predicate Wins(s: State, p: nat) {
    At(s, p).Polled? && s.lock == None &&
    (At(s, p).queue == [] || At(s, p).queue[0] == Name(At(s, p).ticket))
  }

  function Try(s: State, p: nat): State {
    if !At(s, p).Polled? then s
    else if Wins(s, p) then Move(s.(lock := Some(p)), p, Locked(At(s, p).ticket))
    else Move(s, p, Refused(At(s, p).ticket))
  }

  function HintAndRest(s: State, p: nat): State {
    if p in s.sups && At(s, p).Refused? then
      var due := s.now - s.sups[p].lastHint >= SECOND;
      s.(marker := s.marker || due,
         sups := s.sups[p := s.sups[p].(phase := Waiting(At(s, p).ticket),
                                        lastHint := if due then s.now else s.sups[p].lastHint)])
    else s
  }

  /** `ticket.unlink` in the `finally`, leaving for phase `ph`. */
  function Unlink(s: State, p: nat, ph: Phase): State {
    if HasTicket(At(s, p)) then Move(s.(dir := s.dir - {Name(At(s, p).ticket)}), p, ph) else s
  }

  function Remove(s: State, p: nat): State {
    s.(procs := s.procs - {p}, sups := s.sups - {p}, lock := Unlock(s.lock, p),
       orphans := s.orphans + if At(s, p).Engine? then 1 else 0)
  }

  /** A step that is not enabled changes nothing, so every sequence of steps is a run. */
  ghost function Next(s: State, st: Step): State {
    if !Enabled(s, st) then s else
    match st
    case Spawn(p, k, supervisor) =>
      s.(procs := s.procs[p := k], ever := s.ever + {(p, k)},
         sups := if supervisor then s.sups[p := Supervisor(Idle, false, 0)] else s.sups)
    case Kill(p) => Remove(s, p)
    case Stop(p) => s.(sups := s.sups[p := s.sups[p].(stopping := true)])
    case Stamp(p, gate, known) => StampTicket(s, p, gate, known)
    case Publish(p) => PublishTicket(s, p)
    case Arrive(p, gate, known) => PublishTicket(StampTicket(s, p, gate, known), p)
    case Poll(p, blind) => Snapshot(s, p, blind)
    case TryLock(p) => Try(s, p)
    case Rest(p) => HintAndRest(s, p)
    case GiveUp(p) => Unlink(s.(lock := Unlock(s.lock, p)), p, Idle)
    case ClearMarker(p) => Move(s.(marker := false), p, Cleared(At(s, p).ticket))
    case DropTicket(p) => Unlink(s, p, Holding)
    case StartEngine(p) => Move(s, p, Engine)
    case FailStart(p) => Move(s, p, Draining(s.now + s.delay))
    case EndEngine(p) => Move(s.(lastEnd := Some(s.now)), p, Draining(s.now + s.delay))
    case Release(p) => Move(s.(lock := Unlock(s.lock, p)), p, Idle)
    case OrphanEnds => s.(orphans := s.orphans - 1, lastEnd := Some(s.now))
    case WarmTakes => s.(marker := false)
    case Tick(d) => s.(now := s.now + d)
  }

  // ---------------------------------------------------------------- runs

  ghost function After(s: State, run: seq<Step>): State
    decreases |run|
  {
    if run == [] then s else After(Next(s, run[0]), run[1..])
  }

  /** Files left over from earlier processes, and no supervisor yet. */
  ghost predicate Init(s: State) {
    && s.sups == map[] && s.lock == None && s.lastEnd == None && s.orphans == 0
    && s.now < CLOCK_LIMIT
    && Rooted(s)
    && forall n | n in s.dir :: !Claims(s.procs, n)
  }

  /** The process table only holds processes that have been started. */
  ghost predicate Rooted(s: State) {
    && (forall p | p in s.procs :: (p, s.procs[p]) in s.ever && s.procs[p] > 0)
    && (forall n | n in s.dir :: Historic(s.ever, n))
  }

  /** A ticket with a known start time names a process that has existed. */
  ghost predicate Historic(ever: set<(nat, nat)>, n: string) {
    match Parse(n)
    case None => true
    case Some(o) => forall k: nat | o.start == Digits(k) && k > 0 :: (o.pid, k) in ever
  }

  /** The file names a live process by number and start time. */
  predicate Claims(procs: map<nat, nat>, n: string) {
    match Parse(n)
    case None => false
    case Some(o) => o.pid in procs && o.start == Digits(procs[o.pid])
  }
}
