/** Where the gate's promises stop: late publication, killed supervisors, unreadable start times. */
module GateLimits {
  import opened Wrappers
  import opened Text
  import opened Tickets
  import opened TicketQueue
  import opened GateProtocol
  import opened GateInvariant
  import opened GateTheorems

  /** Two supervisors outside the gate, a free flock and an empty queue directory. */
  ghost predicate Quiet(s: State, p: nat, q: nat) {
    && p != q && p in s.sups && q in s.sups && s.lock == None && s.dir == {}
    && At(s, p).Idle? && At(s, q).Idle? && !s.sups[p].stopping && !s.sups[q].stopping
  }

  lemma {:induction false} AfterConcat(s: State, a: seq<Step>, b: seq<Step>)
    ensures After(s, a + b) == After(After(s, a), b)
    decreases |a|
  {
    if a == [] {
      assert a + b == b;
    } else {
      assert (a + b)[1..] == a[1..] + b;
      AfterConcat(Next(s, a[0]), a[1..], b);
    }
  }

  lemma AfterOne(s: State, a: Step)
    ensures After(s, [a]) == Next(s, a)
  {
    assert After(Next(s, a), []) == Next(s, a);
  }

  // ---------------------------------------------------------------- one gate alone

  lemma AloneInQueue(t: Ticket, procs: map<nat, nat>, blind: set<nat>)
    requires t.pid in procs && t.start == Digits(procs[t.pid])
    ensures LiveNames({Name(t)}, procs, blind) == {Name(t)}
    ensures LiveQueue({Name(t)}, procs, blind) == [Name(t)]
  {
    ParsesBack(t);
    var n := Name(t);
    assert LiveNames({n}, procs, blind) == {n};
    assert Elements([n]) == {n};
    SortedIsUnique([n], LiveQueue({n}, procs, blind), {n});
  }

  function TicketAt(s: State, p: nat, gate: nat): Ticket {
    Ticket(s.now, p, OwnStart(s, p, true), gate)
  }

  lemma ArrivesAs(s: State, p: nat, gate: nat)
    requires p in s.sups && At(s, p).Idle? && !s.sups[p].stopping && s.dir == {}
    ensures var t := TicketAt(s, p, gate);
      Next(s, Arrive(p, gate, true)) == s.(dir := {Name(t)}, sups := s.sups[p := Supervisor(Waiting(t), false, 0)])
  {
    var t := TicketAt(s, p, gate);
    assert StampTicket(s, p, gate, true) == s.(sups := s.sups[p := Supervisor(Stamped(t), false, 0)]);
    assert {} + {Name(t)} == {Name(t)};
  }

  lemma PollsAs(s: State, p: nat, t: Ticket, blind: set<nat>)
    requires p in s.sups && s.sups[p] == Supervisor(Waiting(t), false, 0)
    ensures Next(s, Poll(p, blind)) == s.(dir := LiveNames(s.dir, s.procs, blind),
      sups := s.sups[p := Supervisor(Polled(t, LiveQueue(s.dir, s.procs, blind)), false, 0)])
  {
  }

  lemma ArriveAndPoll(s: State, p: nat, gate: nat, blind: set<nat>)
    requires p in s.procs && p in s.sups && At(s, p).Idle? && !s.sups[p].stopping && s.dir == {}
    ensures var t := TicketAt(s, p, gate);
      After(s, [Arrive(p, gate, true), Poll(p, blind)]) ==
      s.(dir := {Name(t)}, sups := s.sups[p := Supervisor(Polled(t, [Name(t)]), false, 0)])
  {
    var t := TicketAt(s, p, gate);
    ArrivesAs(s, p, gate);
    PollsAs(Next(s, Arrive(p, gate, true)), p, t, blind);
    AloneInQueue(t, s.procs, blind);
    AfterTwo(s, Arrive(p, gate, true), Poll(p, blind));
    Overwrite(s.sups, p, Supervisor(Waiting(t), false, 0), Supervisor(Polled(t, [Name(t)]), false, 0));
  }

  function Grant(p: nat, gate: nat, blind: set<nat>): seq<Step> {
    [Arrive(p, gate, true), Poll(p, blind)] + ([TryLock(p), ClearMarker(p)] + [DropTicket(p), StartEngine(p)])
  }

  lemma TakesLock(s: State, p: nat, t: Ticket)
    requires p in s.sups && At(s, p) == Polled(t, [Name(t)]) && s.lock == None
    ensures After(s, [TryLock(p), ClearMarker(p)]) ==
      s.(sups := s.sups[p := s.sups[p].(phase := Cleared(t))], lock := Some(p), marker := false)
  {
    AfterTwo(s, TryLock(p), ClearMarker(p));
    assert Next(s, TryLock(p)) == s.(sups := s.sups[p := s.sups[p].(phase := Locked(t))], lock := Some(p));
  }

  lemma Starts(s: State, p: nat, t: Ticket)
    requires p in s.sups && At(s, p) == Cleared(t) && s.dir == {Name(t)}
    ensures After(s, [DropTicket(p), StartEngine(p)]) ==
      s.(sups := s.sups[p := s.sups[p].(phase := Engine)], dir := {})
  {
    AfterTwo(s, DropTicket(p), StartEngine(p));
    assert {Name(t)} - {Name(t)} == {};
    assert Next(s, DropTicket(p)) == s.(sups := s.sups[p := s.sups[p].(phase := Holding)], dir := {});
  }

  lemma TakeAndStart(s: State, p: nat, t: Ticket)
    requires p in s.sups && At(s, p) == Polled(t, [Name(t)]) && s.lock == None && s.dir == {Name(t)}
    ensures After(s, [TryLock(p), ClearMarker(p)] + [DropTicket(p), StartEngine(p)]) ==
      s.(sups := s.sups[p := s.sups[p].(phase := Engine)], lock := Some(p), marker := false, dir := {})
  {
    AfterConcat(s, [TryLock(p), ClearMarker(p)], [DropTicket(p), StartEngine(p)]);
    TakesLock(s, p, t);
    Starts(After(s, [TryLock(p), ClearMarker(p)]), p, t);
  }

  lemma GrantRuns(s: State, p: nat, gate: nat, blind: set<nat>)
    requires p in s.procs && p in s.sups && At(s, p).Idle? && !s.sups[p].stopping && s.lock == None && s.dir == {}
    ensures After(s, Grant(p, gate, blind)) ==
      s.(sups := s.sups[p := Supervisor(Engine, false, 0)], lock := Some(p), marker := false)
  {
    ArriveAndPoll(s, p, gate, blind);
    var m := After(s, [Arrive(p, gate, true), Poll(p, blind)]);
    TakeAndStart(m, p, TicketAt(s, p, gate));
    AfterConcat(s, [Arrive(p, gate, true), Poll(p, blind)], [TryLock(p), ClearMarker(p)] + [DropTicket(p), StartEngine(p)]);
  }

  // ---------------------------------------------------------------- late publication

  lemma TickGives(s: State)
    requires s.now + 1 < CLOCK_LIMIT
    ensures Next(s, Tick(1)) == s.(now := s.now + 1)
  {
  }

  lemma StampAndWait(s: State, p: nat, gate: nat)
    requires p in s.sups && At(s, p).Idle? && s.now + 1 < CLOCK_LIMIT
    ensures After(s, [Stamp(p, gate, true), Tick(1)]) == StampTicket(s, p, gate, true).(now := s.now + 1)
  {
    AfterTwo(s, Stamp(p, gate, true), Tick(1));
    var m := StampTicket(s, p, gate, true);
    assert Next(s, Stamp(p, gate, true)) == m;
    TickGives(m);
  }

  /**
   * Stamping and writing are two accesses: from any quiet state, a gate that stamps first
   * but writes its ticket after another's snapshot can be overtaken.
   */
  lemma LateWriterIsOvertaken(s: State, p: nat, q: nat, gate: nat)
    requires Inv(s) && Quiet(s, p, q) && s.now + 1 < CLOCK_LIMIT
    ensures var e := After(s, LateWrite(p, q, gate));
      Wins(e, q) && Queued(At(e, p)) && At(e, p).ticket.stamp < At(e, q).ticket.stamp
  {
    StampAndWait(s, p, gate);
    var b := After(s, [Stamp(p, gate, true), Tick(1)]);
    ArriveAndPoll(b, q, gate, {});
    var d := After(b, [Arrive(q, gate, true), Poll(q, {})]);
    AfterConcat(s, [Stamp(p, gate, true), Tick(1)], [Arrive(q, gate, true), Poll(q, {})] + [Publish(p)]);
    AfterConcat(b, [Arrive(q, gate, true), Poll(q, {})], [Publish(p)]);
    AfterOne(d, Publish(p));
    WinsAfterPublish(d, p, q);
  }

  lemma WinsAfterPublish(d: State, p: nat, q: nat)
    requires p != q && Wins(d, q) && At(d, p).Stamped?
    ensures var e := Next(d, Publish(p));
      Wins(e, q) && At(e, q) == At(d, q) && At(e, p) == Waiting(At(d, p).ticket)
  {
  }

  function LateWrite(p: nat, q: nat, gate: nat): seq<Step> {
    [Stamp(p, gate, true), Tick(1)] + ([Arrive(q, gate, true), Poll(q, {})] + [Publish(p)])
  }

  // ---------------------------------------------------------------- killed supervisors

  /** A supervisor killed outright frees the flock while its engine group lives on. */
  lemma KilledSupervisorBreaksTheRule(s: State, p: nat, q: nat, gate: nat)
    requires Inv(s) && Quiet(s, p, q) && s.orphans == 0
    ensures Sessions(After(s, Grant(p, gate, {}) + ([Kill(p)] + Grant(q, gate, {})))) == 2
  {
    GrantRuns(s, p, gate, {});
    var a := After(s, Grant(p, gate, {}));
    var b := Next(a, Kill(p));
    GrantRuns(b, q, gate, {});
    var e := After(b, Grant(q, gate, {}));
    AfterConcat(s, Grant(p, gate, {}), [Kill(p)] + Grant(q, gate, {}));
    AfterConcat(a, [Kill(p)], Grant(q, gate, {}));
    AfterOne(a, Kill(p));
    OnlyEngine(s, e, p, q);
  }

  lemma OnlyEngine(s: State, e: State, p: nat, q: nat)
    requires LockInv(s) && Quiet(s, p, q)
    requires e.sups == (s.sups[p := Supervisor(Engine, false, 0)] - {p})[q := Supervisor(Engine, false, 0)]
    ensures |Engines(e)| == 1
  {
    assert Engines(e) == {q};
  }

  /**
   * A supervisor killed while it sleeps out the release delay: the next one starts its engine
   * at once, so too early exactly when the delay was not over.
   */
  lemma KilledSleeperCutsDelay(s: State, p: nat, q: nat, gate: nat, end: nat)
    requires Inv(s) && p != q && At(s, p).Draining? && s.lastEnd == Some(end)
    requires q in s.sups && At(s, q).Idle? && !s.sups[q].stopping && s.dir == {}
    ensures var e := After(s, [Kill(p)] + Grant(q, gate, {}));
      && At(e, q).Engine? && e.lastEnd == Some(end) && e.now == s.now && e.delay == s.delay
      && (e.now - end < e.delay <==> CutsDelay(s, Kill(p)))
  {
    var b := Next(s, Kill(p));
    GrantRuns(b, q, gate, {});
    AfterConcat(s, [Kill(p)], Grant(q, gate, {}));
    AfterOne(s, Kill(p));
  }

  /** Such a run, from a quiet gate: the second engine starts the moment the first one dies. */
  lemma KilledSleeperRun(s: State, p: nat, q: nat, gate: nat)
    requires Inv(s) && Quiet(s, p, q) && s.delay > 0
    ensures var e := After(s, Grant(p, gate, {}) + [EndEngine(p)] + ([Kill(p)] + Grant(q, gate, {})));
      At(e, q).Engine? && e.lastEnd == Some(e.now)
  {
    var first := Grant(p, gate, {}) + [EndEngine(p)];
    var d := After(s, first);
    FirstSession(s, p, gate);
    RunInv(s, first);
    KilledSleeperCutsDelay(d, p, q, gate, s.now);
    AfterConcat(s, first, [Kill(p)] + Grant(q, gate, {}));
  }

  lemma FirstSession(s: State, p: nat, gate: nat)
    requires p in s.procs && p in s.sups && At(s, p).Idle? && !s.sups[p].stopping && s.lock == None && s.dir == {}
    ensures After(s, Grant(p, gate, {}) + [EndEngine(p)]) ==
      s.(sups := s.sups[p := Supervisor(Draining(s.now + s.delay), false, 0)], lock := Some(p), marker := false,
         lastEnd := Some(s.now))
  {
    GrantRuns(s, p, gate, {});
    assert After(s, Grant(p, gate, {})) == Served(s, p);
    AfterConcat(s, Grant(p, gate, {}), [EndEngine(p)]);
    AfterOne(Served(s, p), EndEngine(p));
    ServedEnds(s, p);
  }

  /** A gate that was free, with the session of `p` on it. */
  function Served(s: State, p: nat): State {
    s.(sups := s.sups[p := Supervisor(Engine, false, 0)], lock := Some(p), marker := false)
  }

  lemma ServedEnds(s: State, p: nat)
    ensures Next(Served(s, p), EndEngine(p)) ==
      s.(sups := s.sups[p := Supervisor(Draining(s.now + s.delay), false, 0)], lock := Some(p), marker := false,
         lastEnd := Some(s.now))
  {
    Overwrite(s.sups, p, Supervisor(Engine, false, 0), Supervisor(Draining(s.now + s.delay), false, 0));
  }

  lemma OrphanDies(s: State, p: nat)
    requires p in s.procs && p in s.sups && s.sups[p] == Supervisor(Engine, false, 0) && s.lock == Some(p)
    ensures After(s, [Kill(p), OrphanEnds]) ==
      s.(procs := s.procs - {p}, sups := s.sups - {p}, lock := None, lastEnd := Some(s.now))
  {
    AfterTwo(s, Kill(p), OrphanEnds);
  }

  /** A first session whose supervisor is killed and whose engine then dies. */
  function Abandoned(p: nat, gate: nat): seq<Step> {
    Grant(p, gate, {}) + [Kill(p), OrphanEnds]
  }

  lemma AbandonedRuns(s: State, p: nat, gate: nat)
    requires p in s.procs && p in s.sups && At(s, p).Idle? && !s.sups[p].stopping && s.lock == None && s.dir == {}
    ensures After(s, Abandoned(p, gate)) ==
      s.(procs := s.procs - {p}, sups := s.sups - {p}, marker := false, lastEnd := Some(s.now))
  {
    GrantRuns(s, p, gate, {});
    var a := After(s, Grant(p, gate, {}));
    AfterConcat(s, Grant(p, gate, {}), [Kill(p), OrphanEnds]);
    OrphanDies(a, p);
    assert s.sups[p := Supervisor(Engine, false, 0)] - {p} == s.sups - {p};
  }

  /**
   * The delay can be cut without killing a sleeping supervisor: the first one is killed while
   * its engine lives, the engine dies by itself, and the next engine starts at that moment. It
   * is alone although an engine was orphaned.
   */
  lemma OrphanEndCutsDelay(s: State, p: nat, q: nat, gate: nat)
    requires Inv(s) && Quiet(s, p, q) && s.delay > 0 && s.orphans == 0
    ensures var e := After(s, Abandoned(p, gate) + Grant(q, gate, {}));
      At(e, q).Engine? && e.lastEnd == Some(e.now) && Sessions(e) == 1
    ensures !SparesEngines(s, Abandoned(p, gate))
  {
    var b := After(s, Abandoned(p, gate));
    AbandonedRuns(s, p, gate);
    GrantRuns(b, q, gate, {});
    AfterConcat(s, Abandoned(p, gate), Grant(q, gate, {}));
    var e := After(s, Abandoned(p, gate) + Grant(q, gate, {}));
    assert Engines(e) == {q};
    RunInv(s, Abandoned(p, gate));
    OrphanedOnce(s, p, gate);
  }

  lemma {:induction false} SparesConcat(s: State, a: seq<Step>, b: seq<Step>)
    requires SparesEngines(s, a + b)
    ensures SparesEngines(After(s, a), b)
    decreases |a|
  {
    if a == [] {
      assert a + b == b;
    } else {
      assert (a + b)[1..] == a[1..] + b;
      SparesConcat(Next(s, a[0]), a[1..], b);
    }
  }

  lemma OrphanedOnce(s: State, p: nat, gate: nat)
    requires p in s.procs && p in s.sups && At(s, p).Idle? && !s.sups[p].stopping && s.lock == None && s.dir == {}
    ensures !SparesEngines(s, Abandoned(p, gate))
  {
    GrantRuns(s, p, gate, {});
    if SparesEngines(s, Abandoned(p, gate)) {
      SparesConcat(s, Grant(p, gate, {}), [Kill(p), OrphanEnds]);
    }
  }

  // ---------------------------------------------------------------- unreadable start times

  /** An abandoned ticket without a start time, whose process number is in use again. */
  ghost predicate BlindOrphan(s: State, t: Ticket) {
    && t.start == "0" && t.stamp < s.now
    && t.pid in s.procs && t.pid !in s.sups && Name(t) in s.dir
  }

  /** Nobody can win while the orphan stands in front. */
  ghost predicate Starved(s: State, t: Ticket) {
    && BlindOrphan(s, t) && s.lock == None
    && (forall p | p in s.sups && HasTicket(At(s, p)) :: At(s, p).ticket.stamp > t.stamp)
    && (forall p | p in s.sups && At(s, p).Polled? ::
          At(s, p).queue != [] && At(s, p).queue[0] != Name(At(s, p).ticket))
  }

  /** The steps that leave such a ticket: arrive unseen, die, and have the number taken again. */
  function Orphaning(p: nat, gate: nat, k: nat): seq<Step> {
    [Arrive(p, gate, false), Kill(p)] + [Spawn(p, k, false), Tick(1)]
  }

  lemma OrphanLeft(s: State, p: nat, gate: nat)
    requires p in s.procs && p in s.sups && At(s, p).Idle? && s.lock == None
    ensures var t := Ticket(s.now, p, "0", gate);
      After(s, [Arrive(p, gate, false), Kill(p)]) ==
      s.(dir := s.dir + {Name(t)}, procs := s.procs - {p}, sups := s.sups - {p})
  {
    AfterTwo(s, Arrive(p, gate, false), Kill(p));
    var t := Ticket(s.now, p, "0", gate);
    var m := Next(s, Arrive(p, gate, false));
    assert m.sups - {p} == s.sups - {p};
    assert m.dir == s.dir + {Name(t)};
  }

  lemma NumberReused(s: State, p: nat, k: nat)
    requires p !in s.procs && (p, k) !in s.ever && k > 0 && s.now + 1 < CLOCK_LIMIT
    ensures After(s, [Spawn(p, k, false), Tick(1)]) ==
      s.(procs := s.procs[p := k], ever := s.ever + {(p, k)}, now := s.now + 1)
  {
    AfterTwo(s, Spawn(p, k, false), Tick(1));
    TickGives(Next(s, Spawn(p, k, false)));
  }

  /** From any gate with all supervisors outside, four steps starve everyone to come. */
  lemma OrphanArises(s: State, p: nat, gate: nat, k: nat)
    requires Inv(s) && s.lock == None && p in s.sups && forall q | q in s.sups :: At(s, q).Idle?
    requires (p, k) !in s.ever && k > 0 && s.now + 1 < CLOCK_LIMIT
    ensures var e := After(s, Orphaning(p, gate, k));
      Inv(e) && Starved(e, Ticket(s.now, p, "0", gate))
  {
    var m := After(s, [Arrive(p, gate, false), Kill(p)]);
    OrphanLeft(s, p, gate);
    NumberReused(m, p, k);
    AfterConcat(s, [Arrive(p, gate, false), Kill(p)], [Spawn(p, k, false), Tick(1)]);
    RunInv(s, Orphaning(p, gate, k));
    var e := After(s, Orphaning(p, gate, k));
    assert forall q | q in e.sups :: e.sups[q] == s.sups[q] && At(e, q).Idle?;
  }

  lemma OrphanHeadsQueue(s: State, p: nat, t: Ticket, blind: set<nat>)
    requires Inv(s) && Starved(s, t) && At(s, p).Waiting?
    ensures var q := LiveQueue(s.dir, s.procs, blind); q != [] && q[0] != Name(At(s, p).ticket)
    ensures !Dropped(Name(t), s.procs, blind)
  {
    ParsesBack(t);
    LiveTicketKept(s, p, blind);
    EarlierStampSortsFirst(t, At(s, p).ticket);
    HeadOfQueue(s.dir, s.procs, blind, Name(At(s, p).ticket));
  }

  lemma StarvedAfterPoll(s: State, p: nat, t: Ticket, blind: set<nat>)
    requires Inv(s) && Starved(s, t)
    ensures Starved(Snapshot(s, p, blind), t)
  {
    if At(s, p).Waiting? {
      OrphanHeadsQueue(s, p, t, blind);
    }
  }

  lemma StarvedAfterUnlink(s: State, p: nat, t: Ticket)
    requires Inv(s) && Starved(s, t) && HasTicket(At(s, p))
    ensures Starved(Unlink(s, p, Idle), t)
  {
    ParsesBack(t);
    assert Parse(Name(At(s, p).ticket)).value.pid == p;
  }

  lemma StarvedOther(s: State, st: Step, t: Ticket)
    requires LockInv(s) && Starved(s, t) && st != Kill(t.pid) && !st.Poll? && !st.GiveUp?
    ensures Starved(Next(s, st), t)
  {
    OrphanStays(s, st, t);
    WaitersStayBehind(s, st, t);
    SnapshotsStay(s, st);
  }

  lemma OrphanStays(s: State, st: Step, t: Ticket)
    requires LockInv(s) && Starved(s, t) && st != Kill(t.pid) && !st.Poll? && !st.GiveUp?
    ensures BlindOrphan(Next(s, st), t) && Next(s, st).lock == None
  {
    assert !At(s, t.pid).Stamped?;
  }

  lemma WaitersStayBehind(s: State, st: Step, t: Ticket)
    requires Starved(s, t) && !st.Poll?
    ensures forall p | p in Next(s, st).sups && HasTicket(At(Next(s, st), p)) :: At(Next(s, st), p).ticket.stamp > t.stamp
  {
    if !st.Stamp? && !st.Arrive? {
      TicketsStay(s, st);
      assert forall p | p in Next(s, st).sups && HasTicket(At(Next(s, st), p)) :: p in s.sups && At(s, p).ticket.stamp > t.stamp;
    }
  }

  lemma TicketsStay(s: State, st: Step)
    requires !st.Stamp? && !st.Arrive?
    ensures forall p | p in Next(s, st).sups && HasTicket(At(Next(s, st), p)) ::
      p in s.sups && HasTicket(At(s, p)) && At(Next(s, st), p).ticket == At(s, p).ticket
  {
  }

  lemma SnapshotsStay(s: State, st: Step)
    requires !st.Poll?
    ensures forall p | p in Next(s, st).sups && At(Next(s, st), p).Polled? :: At(Next(s, st), p) == At(s, p)
  {
  }

  lemma StarvedStep(s: State, st: Step, t: Ticket)
    requires Inv(s) && Starved(s, t) && st != Kill(t.pid)
    ensures Starved(Next(s, st), t)
  {
    if Enabled(s, st) && st.Poll? {
      StarvedAfterPoll(s, st.pid, t, st.blind);
    } else if Enabled(s, st) && st.GiveUp? {
      StarvedAfterUnlink(s, st.pid, t);
    } else if Enabled(s, st) {
      StarvedOther(s, st, t);
    }
  }

  /**
   * While that process lives, the session is never granted again: every run without its
   * death leaves the flock free and every later arrival waiting.
   */
  lemma {:induction false} BlindOrphanStarvesEveryone(s: State, run: seq<Step>, t: Ticket)
    requires Inv(s) && Starved(s, t) && Kill(t.pid) !in run
    ensures After(s, run).lock == None && Name(t) in After(s, run).dir
    decreases |run|
  {
    if run != [] {
      assert run[0] in run;
      StarvedStep(s, run[0], t);
      StepInv(s, run[0]);
      BlindOrphanStarvesEveryone(Next(s, run[0]), run[1..], t);
    }
  }
}
