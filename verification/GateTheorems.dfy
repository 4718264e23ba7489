/** What the session gate guarantees: one session, spacing, progress and arrival order. */
module GateTheorems {
  import opened Wrappers
  import opened Text
  import opened Tickets
  import opened TicketQueue
  import opened GateProtocol
  import opened GateInvariant

  // ---------------------------------------------------------------- one session

  ghost function Engines(s: State): set<nat> {
    set p | p in s.sups && At(s, p).Engine?
  }

  /** Engine process groups alive now, supervised or not. */
  ghost function Sessions(s: State): nat {
    |Engines(s)| + s.orphans
  }

  /** No step of the run kills a supervisor whose engine is alive. */
  ghost predicate SparesEngines(s: State, run: seq<Step>)
    decreases |run|
  {
    run == [] || (SparesEngine(s, run[0]) && SparesEngines(Next(s, run[0]), run[1..]))
  }

  predicate SparesEngine(s: State, st: Step) {
    st.Kill? ==> !At(s, st.pid).Engine?
  }

  lemma EngineOwnsLock(s: State)
    requires Inv(s)
    ensures forall p | p in Engines(s) :: s.lock == Some(p)
    ensures |Engines(s)| <= 1
  {
    if Engines(s) != {} {
      var p :| p in Engines(s);
      assert Engines(s) == {p};
    }
  }

  /** With every engine supervised there is never a second session; each orphan adds one. */
  lemma StartingCountsOrphans(s: State, p: nat)
    requires LockInv(s) && At(s, p).Holding?
    ensures Sessions(Next(s, StartEngine(p))) == 1 + s.orphans
  {
    var s' := Next(s, StartEngine(p));
    assert s' == Move(s, p, Engine);
    assert forall q | q in s.sups && q != p :: At(s', q) == At(s, q) && !Owns(At(s, q));
    assert Engines(s') == {p};
  }

  /** How many engines the run leaves without their supervisor. */
  ghost function Orphaned(s: State, run: seq<Step>): nat
    decreases |run|
  {
    if run == [] then 0
    else (if SparesEngine(s, run[0]) then 0 else 1) + Orphaned(Next(s, run[0]), run[1..])
  }

  /** ... and how many of such engines die in it. */
  ghost function Ended(s: State, run: seq<Step>): nat
    decreases |run|
  {
    if run == [] then 0
    else (if run[0].OrphanEnds? && s.orphans > 0 then 1 else 0) + Ended(Next(s, run[0]), run[1..])
  }

  lemma OrphanStep(s: State, st: Step)
    requires TicketInv(s)
    ensures Next(s, st).orphans ==
      s.orphans + (if SparesEngine(s, st) then 0 else 1) - (if st.OrphanEnds? && s.orphans > 0 then 1 else 0)
  {
    if st.Kill? {
      KillOrphans(s, st.pid);
    } else if !st.OrphanEnds? {
      OthersKeepOrphans(s, st);
    }
  }

  lemma KillOrphans(s: State, p: nat)
    requires TicketInv(s)
    ensures Next(s, Kill(p)).orphans == s.orphans + if At(s, p).Engine? then 1 else 0
  {
  }

  lemma OthersKeepOrphans(s: State, st: Step)
    requires !st.Kill? && !st.OrphanEnds?
    ensures Next(s, st).orphans == s.orphans
  {
  }

  lemma {:induction false} OrphansCounted(s: State, run: seq<Step>)
    requires Inv(s)
    ensures After(s, run).orphans == s.orphans + Orphaned(s, run) - Ended(s, run)
    decreases |run|
  {
    if run != [] {
      OrphanStep(s, run[0]);
      StepInv(s, run[0]);
      OrphansCounted(Next(s, run[0]), run[1..]);
    }
  }

  lemma {:induction false} SparedIsNotOrphaned(s: State, run: seq<Step>)
    ensures Orphaned(s, run) == 0 <==> SparesEngines(s, run)
    decreases |run|
  {
    if run != [] { SparedIsNotOrphaned(Next(s, run[0]), run[1..]); }
  }

  /** One session ever: over every run, at most one engine lives and its supervisor owns the lock. */
  lemma OneSession(s: State, run: seq<Step>)
    requires Init(s) && SparesEngines(s, run)
    ensures var e := After(s, run);
      Sessions(e) <= 1 && forall p | p in Engines(e) :: e.lock == Some(p)
  {
    InitInv(s);
    RunInv(s, run);
    OrphansCounted(s, run);
    SparedIsNotOrphaned(s, run);
    EngineOwnsLock(After(s, run));
  }

  /** The next engine to start is alone exactly when every engine the run has orphaned has died in it. */
  lemma NextEngineAloneIff(s: State, run: seq<Step>, p: nat)
    requires Init(s) && At(After(s, run), p).Holding?
    ensures Sessions(Next(After(s, run), StartEngine(p))) == 1 <==> Orphaned(s, run) == Ended(s, run)
  {
    InitInv(s);
    RunInv(s, run);
    OrphansCounted(s, run);
    StartingCountsOrphans(After(s, run), p);
  }

  // ---------------------------------------------------------------- spacing

  /** The session holder sleeps at least until the given time. */
  predicate SleepsUntil(s: State, t: nat) {
    s.lock.Some? && At(s, s.lock.value).Draining? && At(s, s.lock.value).until >= t
  }

  /** The latest death of an engine is a release delay ago, or the session stays taken that long. */
  ghost predicate Spaced(s: State) {
    match s.lastEnd
    case None => true
    case Some(e) => e <= s.now && (s.now >= e + s.delay || SleepsUntil(s, e + s.delay))
  }

  /** When an engine is about to start, that is just what says it is not too early. */
  lemma SpacedAtStart(s: State, p: nat)
    requires LockInv(s) && At(s, p).Holding? && (s.lastEnd.Some? ==> s.lastEnd.value <= s.now)
    ensures Spaced(s) <==> (s.lastEnd.Some? ==> s.now - s.lastEnd.value >= s.delay)
  {
  }

  lemma SpacedEnd(s: State, p: nat)
    requires LockInv(s) && At(s, p).Engine?
    ensures Spaced(Next(s, EndEngine(p)))
  {
  }

  /**
   * The step kills a supervisor that is still sleeping out the release delay, or an engine
   * without supervisor dies while nobody sleeps out a whole delay (there being one).
   */
  predicate CutsDelay(s: State, st: Step) {
    match st
    case Kill(p) => At(s, p).Draining? && s.lastEnd.Some? && s.now < s.lastEnd.value + s.delay
    case OrphanEnds => s.orphans > 0 && s.delay > 0 && !SleepsUntil(s, s.now + s.delay)
    case _ => false
  }

  /** Any other kill, even of a supervisor with an engine, leaves the spacing alone. */
  lemma SpacedKill(s: State, p: nat)
    requires Inv(s) && Spaced(s)
    ensures Spaced(Next(s, Kill(p))) <==> !CutsDelay(s, Kill(p))
  {
  }

  lemma SpacedOrphan(s: State)
    requires Spaced(s)
    ensures Spaced(Next(s, OrphanEnds)) <==> !CutsDelay(s, OrphanEnds)
  {
  }

  /** A draining owner stays until its own release, which waits for the delay. */
  lemma DrainingStays(s: State, st: Step, h: nat)
    requires LockInv(s) && h in s.procs && At(s, h).Draining? && !st.Kill?
    ensures (Enabled(s, st) && st == Release(h)) || (At(Next(s, st), h) == At(s, h) && Next(s, st).lock == s.lock)
  {
  }

  lemma ClocksOnlyAdvance(s: State, st: Step)
    requires (!st.EndEngine? && !st.OrphanEnds?) || !Enabled(s, st)
    ensures var s' := Next(s, st); s'.lastEnd == s.lastEnd && s'.delay == s.delay && s'.now >= s.now
  {
  }

  lemma SpacedOther(s: State, st: Step)
    requires LockInv(s) && Spaced(s) && !st.Kill? && (st.EndEngine? || st.OrphanEnds? ==> !Enabled(s, st))
    requires forall p | p in s.sups :: p in s.procs
    ensures Spaced(Next(s, st))
  {
    ClocksOnlyAdvance(s, st);
    if s.lastEnd.Some? && s.now < s.lastEnd.value + s.delay {
      DrainingStays(s, st, s.lock.value);
    }
  }

  /** Exactly these steps break the spacing. */
  lemma SpacedStep(s: State, st: Step)
    requires Inv(s) && Spaced(s)
    ensures Spaced(Next(s, st)) <==> !CutsDelay(s, st)
  {
    if st.EndEngine? && Enabled(s, st) {
      SpacedEnd(s, st.pid);
    } else if st.OrphanEnds? {
      SpacedOrphan(s);
    } else if st.Kill? {
      SpacedKill(s, st.pid);
    } else {
      SpacedOther(s, st);
    }
  }

  ghost predicate SparesDelays(s: State, run: seq<Step>)
    decreases |run|
  {
    run == [] || (!CutsDelay(s, run[0]) && SparesDelays(Next(s, run[0]), run[1..]))
  }

  ghost predicate SpacedAlong(s: State, run: seq<Step>)
    decreases |run|
  {
    Spaced(s) && (run == [] || SpacedAlong(Next(s, run[0]), run[1..]))
  }

  /** A run keeps the spacing all along exactly when it has no such step. */
  lemma {:induction false} SpacedRun(s: State, run: seq<Step>)
    requires Inv(s) && Spaced(s)
    ensures SpacedAlong(s, run) <==> SparesDelays(s, run)
    decreases |run|
  {
    if run != [] {
      SpacedStep(s, run[0]);
      StepInv(s, run[0]);
      if Spaced(Next(s, run[0])) { SpacedRun(Next(s, run[0]), run[1..]); }
    }
  }

  lemma {:induction false} SpacedAtEnd(s: State, run: seq<Step>)
    requires SpacedAlong(s, run)
    ensures Spaced(After(s, run))
    decreases |run|
  {
    if run != [] { SpacedAtEnd(Next(s, run[0]), run[1..]); }
  }

  /** An engine starts no sooner than the release delay after any other engine has died. */
  lemma ReleaseDelayKept(s: State, run: seq<Step>, p: nat)
    requires Init(s) && SparesDelays(s, run) && Enabled(After(s, run), StartEngine(p))
    ensures var e := After(s, run);
      e.delay == s.delay && (e.lastEnd.Some? ==> e.now - e.lastEnd.value >= e.delay)
  {
    InitInv(s);
    RunInv(s, run);
    SpacedRun(s, run);
    SpacedAtEnd(s, run);
    SameDelay(s, run);
  }

  /** Without a delay nothing can cut it, so all runs keep it. */
  lemma {:induction false} NoDelayNothingCut(s: State, run: seq<Step>)
    requires Inv(s) && Spaced(s) && s.delay == 0
    ensures SparesDelays(s, run)
    decreases |run|
  {
    if run != [] {
      SpacedStep(s, run[0]);
      StepInv(s, run[0]);
      DelayFixed(s, run[0]);
      NoDelayNothingCut(Next(s, run[0]), run[1..]);
    }
  }

  lemma DelayFixed(s: State, st: Step)
    ensures Next(s, st).delay == s.delay
  {
  }

  lemma {:induction false} SameDelay(s: State, run: seq<Step>)
    ensures After(s, run).delay == s.delay
    decreases |run|
  {
    if run != [] {
      DelayFixed(s, run[0]);
      SameDelay(Next(s, run[0]), run[1..]);
    }
  }

  // ---------------------------------------------------------------- progress

  /** A surviving ticket with readable start times belongs to a live gate inside `acquire`. */
  lemma SurvivorIsLive(s: State, n: string, blind: set<nat>)
    requires Inv(s) && n in s.dir && !Dropped(n, s.procs, blind)
    ensures var o := Parse(n).value;
      o.start != "0" && o.pid !in blind ==> IsTicketOf(s, o.pid, n)
  {
    var o := Parse(n).value;
    if o.start != "0" && o.pid !in blind {
      assert Claims(s.procs, n);
    }
  }

  ghost predicate LeastWaiter(s: State, v: nat) {
    At(s, v).Waiting? && forall w | w in s.sups && w != v && Published(At(s, w)) ::
      LexLess(Name(At(s, v).ticket), Name(At(s, w).ticket))
  }

  /** No earlier file names a running process whose start time one side cannot tell. */
  ghost predicate NothingBlindAhead(s: State, v: nat, blind: set<nat>)
    requires HasTicket(At(s, v))
  {
    forall n | n in s.dir && LexLess(n, Name(At(s, v).ticket)) && Parse(n).Some? ::
      var o := Parse(n).value;
      o.pid in s.procs && !IsTicketOf(s, o.pid, n) ==> o.start != "0" && o.pid !in blind
  }

  lemma HeadIffNothingBlind(s: State, v: nat, blind: set<nat>)
    requires Inv(s) && LeastWaiter(s, v)
    ensures var q := LiveQueue(s.dir, s.procs, blind);
      q != [] && (q[0] == Name(At(s, v).ticket) <==> NothingBlindAhead(s, v, blind))
  {
    var t := Name(At(s, v).ticket);
    LiveTicketKept(s, v, blind);
    HeadOfQueue(s.dir, s.procs, blind, t);
    forall n | n in s.dir && LexLess(n, t)
      ensures Dropped(n, s.procs, blind) <==>
        (Parse(n).Some? ==> var o := Parse(n).value;
          o.pid in s.procs && !IsTicketOf(s, o.pid, n) ==> o.start != "0" && o.pid !in blind)
    {
      if !Dropped(n, s.procs, blind) { SurvivorIsLive(s, n, blind); }
      LexTrichotomy(n, t);
      if Parse(n).Some? && IsTicketOf(s, Parse(n).value.pid, n) {
        assert false;
      }
    }
  }

  lemma AfterTwo(s: State, a: Step, b: Step)
    ensures After(s, [a, b]) == Next(Next(s, a), b)
  {
    assert [a, b][1..] == [b];
    assert After(Next(s, a), [b]) == After(Next(Next(s, a), b), []);
  }

  lemma PollGives(s: State, v: nat, blind: set<nat>)
    requires At(s, v).Waiting? && !s.sups[v].stopping
    ensures var m := Next(s, Poll(v, blind));
      m.lock == s.lock && At(m, v) == Polled(At(s, v).ticket, LiveQueue(s.dir, s.procs, blind))
  {
  }

  /** The process runs, and one of the two start times is unknown or they agree. */
  predicate MayOwn(s: State, o: Owner, blind: set<nat>) {
    o.pid in s.procs && (o.start == "0" || o.pid in blind || o.start == Digits(s.procs[o.pid]))
  }

  /**
   * A poll leaves a file exactly when it names a running process that may still be its owner,
   * and keeps the same files, in order, as its snapshot.
   */
  lemma PollLeaves(s: State, v: nat, blind: set<nat>, n: string)
    requires Enabled(s, Poll(v, blind))
    ensures var m := Next(s, Poll(v, blind));
      && (n in m.dir <==> n in s.dir && Parse(n).Some? && MayOwn(s, Parse(n).value, blind))
      && At(m, v).Polled? && At(m, v).ticket == At(s, v).ticket && IsSorted(At(m, v).queue, m.dir)
  {
  }

  /** The step is taken by, or kills, process `p`; the stop event alone does not count. */
  predicate Touches(st: Step, p: nat) {
    !st.Stop? && !st.OrphanEnds? && !st.WarmTakes? && !st.Tick? && st.pid == p
  }

  lemma PhaseStaysOne(s: State, st: Step, p: nat)
    requires !Touches(st, p)
    ensures At(Next(s, st), p) == At(s, p)
  {
  }

  lemma {:induction false} PhaseStays(s: State, run: seq<Step>, p: nat)
    requires forall st | st in run :: !Touches(st, p)
    ensures At(After(s, run), p) == At(s, p)
    decreases |run|
  {
    if run != [] {
      assert run[0] in run;
      PhaseStaysOne(s, run[0], p);
      PhaseStays(Next(s, run[0]), run[1..], p);
    }
  }

  lemma InSnapshot(s: State, v: nat, blind: set<nat>)
    requires TicketInv(s) && Published(At(s, v))
    ensures Name(At(s, v).ticket) in LiveQueue(s.dir, s.procs, blind)
  {
    LiveTicketKept(s, v, blind);
    assert Name(At(s, v).ticket) in Elements(LiveQueue(s.dir, s.procs, blind));
  }

  lemma HeadIsLeast(q: seq<string>, n: string)
    requires Ascending(q) && n in q && q[0] != n
    ensures LexLess(q[0], n)
  {
    var k :| 0 <= k < |q| && q[k] == n;
  }

  /** The head of a snapshot sorts before every published ticket. */
  lemma HeadIffLeast(s: State, w: nat, blind: set<nat>)
    requires Inv(s) && At(s, w).Waiting?
    ensures var q := LiveQueue(s.dir, s.procs, blind);
      && q != []
      && (q[0] == Name(At(s, w).ticket) <==> LeastWaiter(s, w) && NothingBlindAhead(s, w, blind))
  {
    var q := LiveQueue(s.dir, s.procs, blind);
    InSnapshot(s, w, blind);
    if q[0] == Name(At(s, w).ticket) {
      forall v | v in s.sups && v != w && Published(At(s, v))
        ensures LexLess(Name(At(s, w).ticket), Name(At(s, v).ticket))
      {
        InSnapshot(s, v, blind);
        NamesDiffer(s, v, w);
        HeadIsLeast(q, Name(At(s, v).ticket));
      }
    }
    if LeastWaiter(s, w) { HeadIffNothingBlind(s, w, blind); }
  }

  /**
   * Who wins: whatever happens between a gate's snapshot and its try, with the flock free at
   * the try it succeeds exactly when the gate sorted before every published one at the
   * snapshot, and no blind ticket sorted before it.
   */
  lemma WinsIffLeast(s: State, w: nat, blind: set<nat>, mid: seq<Step>)
    requires Inv(s) && At(s, w).Waiting? && !s.sups[w].stopping
    requires forall st | st in mid :: !Touches(st, w)
    requires After(Next(s, Poll(w, blind)), mid).lock == None
    ensures Wins(After(Next(s, Poll(w, blind)), mid), w) <==> LeastWaiter(s, w) && NothingBlindAhead(s, w, blind)
  {
    PollGives(s, w, blind);
    PhaseStays(Next(s, Poll(w, blind)), mid, w);
    HeadIffLeast(s, w, blind);
  }

  lemma TryGives(s: State, v: nat)
    requires s.lock == None && At(s, v).Polled?
    ensures Next(s, TryLock(v)).lock == Some(v) <==> Wins(s, v)
  {
  }

  lemma AfterNone(s: State)
    ensures After(s, []) == s
  {
  }

  /** With the flock free, the least live waiter's next poll takes it; exactly a blind ticket ahead prevents it. */
  lemma LeastWaiterAcquires(s: State, v: nat, blind: set<nat>)
    requires Inv(s) && s.lock == None && LeastWaiter(s, v) && !s.sups[v].stopping
    ensures After(s, [Poll(v, blind), TryLock(v)]).lock == Some(v) <==> NothingBlindAhead(s, v, blind)
  {
    AfterTwo(s, Poll(v, blind), TryLock(v));
    PollGives(s, v, blind);
    TryGives(Next(s, Poll(v, blind)), v);
    AfterNone(Next(s, Poll(v, blind)));
    WinsIffLeast(s, v, blind, []);
  }

  /** Leaving the queue never unlocks somebody else's session. */
  lemma LeavingFreesNobody(s: State, p: nat)
    requires LockInv(s)
    ensures Next(s, GiveUp(p)).lock == s.lock
  {
  }

  /** A waiter that has been told to stop does not ask again: it stays where it is or leaves. */
  lemma StoppedWaiterLeaves(s: State, st: Step, v: nat)
    requires v in s.procs && At(s, v).Waiting? && s.sups[v].stopping
    ensures At(Next(s, st), v) == At(s, v) || At(Next(s, st), v).Idle?
    ensures At(Next(s, st), v) != At(s, v) ==> (st == GiveUp(v) || st == Kill(v))
    ensures v in Next(s, st).sups && At(Next(s, st), v) == At(s, v) ==> Next(s, st).sups[v].stopping
  {
  }

  /** ... so over every run it is never granted the session unless it has left first. */
  lemma {:induction false} StoppedNeverGranted(s: State, run: seq<Step>, v: nat)
    requires Inv(s) && At(s, v).Waiting? && s.sups[v].stopping && GiveUp(v) !in run && Kill(v) !in run
    ensures At(After(s, run), v) == At(s, v)
    decreases |run|
  {
    if run != [] {
      assert run[0] in run;
      StoppedWaiterLeaves(s, run[0], v);
      StepInv(s, run[0]);
      StoppedNeverGranted(Next(s, run[0]), run[1..], v);
    }
  }

  /** A session is given back no sooner than the release delay after it ended, or failed to start. */
  lemma SessionEndWaits(s: State, st: Step, p: nat)
    requires p in s.procs && (At(s, p).Holding? || At(s, p).Engine?)
    requires !At(Next(s, st), p).Holding? && !At(Next(s, st), p).Engine? && st != Kill(p)
    ensures At(Next(s, st), p) == Draining(s.now + s.delay) && Next(s, st).lock == s.lock
  {
  }

  // ---------------------------------------------------------------- waiters ahead

  ghost function Ahead(s: State, v: nat): set<nat>
    requires HasTicket(At(s, v))
  {
    set w | w in s.sups && Queued(At(s, w)) && LexLess(Name(At(s, w).ticket), Name(At(s, v).ticket))
  }

  /** Whether the step writes a ticket that sorts before `t`. */
  ghost predicate PublishesBefore(s: State, st: Step, t: string) {
    match st
    case Publish(p) => At(s, p).Stamped? && LexLess(Name(At(s, p).ticket), t)
    case Arrive(p, g, known) => LexLess(Name(Ticket(s.now, p, OwnStart(s, p, known), g)), t)
    case _ => false
  }

  ghost predicate StillQueued(s: State, s': State, v: nat) {
    Queued(At(s, v)) && Queued(At(s', v)) && At(s', v).ticket == At(s, v).ticket
  }

  lemma QueuedBefore(s: State, st: Step, w: nat, t: string)
    requires !PublishesBefore(s, st, t)
    requires var s' := Next(s, st); Queued(At(s', w)) && LexLess(Name(At(s', w).ticket), t)
    ensures w in s.sups && Queued(At(s, w)) && At(Next(s, st), w).ticket == At(s, w).ticket
  {
    if st.Arrive? {
      ArrivedBefore(s, st.pid, st.gate, st.known, w);
    } else if !st.Publish? {
      QueuedStays(s, st, w);
    }
  }

  lemma ArrivedBefore(s: State, p: nat, gate: nat, known: bool, w: nat)
    requires Queued(At(Next(s, Arrive(p, gate, known)), w))
    ensures (Queued(At(s, w)) && At(Next(s, Arrive(p, gate, known)), w) == At(s, w)) ||
            At(Next(s, Arrive(p, gate, known)), w).ticket == Ticket(s.now, p, OwnStart(s, p, known), gate)
  {
  }

  lemma QueuedStays(s: State, st: Step, w: nat)
    requires !st.Arrive? && !st.Publish? && Queued(At(Next(s, st), w))
    ensures Queued(At(s, w)) && At(Next(s, st), w).ticket == At(s, w).ticket
  {
  }

  /** The waiters ahead never grow in number, and each grant to one of them removes it. */
  lemma AheadShrinks(s: State, st: Step, v: nat)
    requires var s' := Next(s, st); StillQueued(s, s', v)
    requires !PublishesBefore(s, st, Name(At(s, v).ticket))
    ensures Ahead(Next(s, st), v) <= Ahead(s, v)
    ensures st.TryLock? && Wins(s, st.pid) ==> Ahead(Next(s, st), v) <= Ahead(s, v) - {st.pid}
  {
    forall w | w in Ahead(Next(s, st), v) ensures w in Ahead(s, v) {
      QueuedBefore(s, st, w, Name(At(s, v).ticket));
    }
  }

  /** A later arrival sorts behind everyone already stamped. */
  lemma LaterArrivalSortsBehind(s: State, v: nat, p: nat, gate: nat, known: bool)
    requires Inv(s) && HasTicket(At(s, v)) && At(s, v).ticket.stamp < s.now
    ensures !PublishesBefore(s, Arrive(p, gate, known), Name(At(s, v).ticket))
  {
    var t := Ticket(s.now, p, OwnStart(s, p, known), gate);
    EarlierStampSortsFirst(At(s, v).ticket, t);
    LexTrichotomy(Name(At(s, v).ticket), Name(t));
  }

  /** The gate keeps waiting with one ticket along the run. */
  ghost predicate KeepsTicket(s: State, v: nat, t: Ticket, run: seq<Step>)
    decreases |run|
  {
    && Queued(At(s, v)) && At(s, v).ticket == t
    && (run == [] || KeepsTicket(Next(s, run[0]), v, t, run[1..]))
  }

  /** How many of the run's grants go to gates ahead of `v`. */
  ghost function GrantsAhead(s: State, v: nat, t: Ticket, run: seq<Step>): nat
    requires KeepsTicket(s, v, t, run)
    decreases |run|
  {
    if run == [] then 0
    else
      var granted := run[0].TryLock? && Wins(s, run[0].pid) && run[0].pid in Ahead(s, v);
      (if granted then 1 else 0) + GrantsAhead(Next(s, run[0]), v, t, run[1..])
  }

  lemma NoneStamped(s: State, st: Step)
    requires !st.Stamp? && forall p :: !At(s, p).Stamped?
    ensures forall p :: !At(Next(s, st), p).Stamped?
  {
    if st.Arrive? {
      ArrivalIsPublished(s, st.pid, st.gate, st.known);
    } else if st.Poll? {
      assert forall p :: p != st.pid ==> At(Snapshot(s, st.pid, st.blind), p) == At(s, p);
    } else {
      OthersKeepStamps(s, st);
      assert forall p :: At(Next(s, st), p).Stamped? ==> At(s, p).Stamped?;
    }
  }

  lemma ArrivalIsPublished(s: State, p: nat, gate: nat, known: bool)
    requires forall q :: !At(s, q).Stamped?
    ensures forall q :: !At(Next(s, Arrive(p, gate, known)), q).Stamped?
  {
    var m := StampTicket(s, p, gate, known);
    assert forall q :: q != p ==> At(m, q) == At(s, q);
    assert forall q :: q != p ==> At(PublishTicket(m, p), q) == At(m, q);
  }

  lemma NothingBefore(s: State, st: Step, v: nat)
    requires Inv(s) && Queued(At(s, v)) && At(s, v).ticket.stamp < s.now
    requires forall p :: !At(s, p).Stamped?
    ensures !PublishesBefore(s, st, Name(At(s, v).ticket))
  {
    if st.Arrive? { LaterArrivalSortsBehind(s, v, st.pid, st.gate, st.known); }
  }

  lemma NowAdvances(s: State, st: Step)
    ensures Next(s, st).now >= s.now
  {
  }

  lemma OneGrantFewer(s: State, st: Step, v: nat)
    requires Inv(s) && Queued(At(s, v)) && At(s, v).ticket.stamp < s.now && (forall p :: !At(s, p).Stamped?)
    requires StillQueued(s, Next(s, st), v)
    ensures |Ahead(Next(s, st), v)| + (if st.TryLock? && Wins(s, st.pid) && st.pid in Ahead(s, v) then 1 else 0) <= |Ahead(s, v)|
  {
    NothingBefore(s, st, v);
    AheadShrinks(s, st, v);
    SubsetSize(Ahead(Next(s, st), v), Ahead(s, v));
    if st.TryLock? && Wins(s, st.pid) && st.pid in Ahead(s, v) {
      SubsetSize(Ahead(Next(s, st), v), Ahead(s, v) - {st.pid});
    }
  }

  /**
   * A bounded wait: over every run of atomic arrivals, the grants to gates ahead of a waiting
   * one are paid for by the waiters ahead of it, and nobody joins these.
   */
  lemma {:induction false} GrantsAheadBounded(s: State, v: nat, t: Ticket, run: seq<Step>)
    requires Inv(s) && KeepsTicket(s, v, t, run) && t.stamp < s.now
    requires (forall p :: !At(s, p).Stamped?) && forall st | st in run :: !st.Stamp?
    ensures KeepsTicket(After(s, run), v, t, [])
    ensures |Ahead(After(s, run), v)| + GrantsAhead(s, v, t, run) <= |Ahead(s, v)|
    decreases |run|
  {
    if run != [] {
      assert run[0] in run;
      OneGrantFewer(s, run[0], v);
      NoneStamped(s, run[0]);
      NowAdvances(s, run[0]);
      StepInv(s, run[0]);
      GrantsAheadBounded(Next(s, run[0]), v, t, run[1..]);
    }
  }

  // ---------------------------------------------------------------- arrival order

  /**
   * No overtaking: whoever wins with a snapshot sorts before every live gate whose ticket
   * was there when the snapshot was taken, whatever happens before the flock is tried.
   */
  lemma NoOvertaking(s: State, w: nat, a: Ticket, blind: set<nat>, mid: seq<Step>, v: nat, b: Ticket)
    requires Inv(s) && At(s, w) == Waiting(a) && !s.sups[w].stopping
    requires v != w && Published(At(s, v)) && At(s, v).ticket == b
    requires forall st | st in mid :: !Touches(st, w)
    requires Wins(After(Next(s, Poll(w, blind)), mid), w)
    ensures LexLess(Name(a), Name(b))
  {
    WinsIffLeast(s, w, blind, mid);
  }

  ghost predicate StampedFirst(s: State, w: nat)
    requires HasTicket(At(s, w))
  {
    forall v | v in s.sups && HasTicket(At(s, v)) :: At(s, w).ticket.stamp <= At(s, v).ticket.stamp
  }

  /** No gate has an earlier stamp and no ticket file yet. */
  ghost predicate NoneLate(s: State, w: nat)
    requires HasTicket(At(s, w))
  {
    forall v | v in s.sups && At(s, v).Stamped? :: At(s, w).ticket.stamp <= At(s, v).ticket.stamp
  }

  /**
   * A winner was stamped first among all gates of its snapshot exactly when no earlier stamp
   * was still unpublished then: late publication is the only way to be overtaken.
   */
  lemma ArrivalOrderIff(s: State, w: nat, blind: set<nat>, mid: seq<Step>)
    requires Inv(s) && At(s, w).Waiting? && !s.sups[w].stopping
    requires forall st | st in mid :: !Touches(st, w)
    requires Wins(After(Next(s, Poll(w, blind)), mid), w)
    ensures StampedFirst(s, w) <==> NoneLate(s, w)
  {
    WinsIffLeast(s, w, blind, mid);
    forall v | v in s.sups && Published(At(s, v)) ensures At(s, w).ticket.stamp <= At(s, v).ticket.stamp {
      if v != w { NameOrderFollowsStamps(At(s, w).ticket, At(s, v).ticket); }
    }
  }

  predicate AtomicArrivals(run: seq<Step>) {
    forall st | st in run :: !st.Stamp?
  }

  /** Every pending snapshot holds every published ticket, except those stamped no earlier. */
  ghost predicate SnapshotsFair(s: State) {
    && (forall p :: !At(s, p).Stamped?)
    && (forall w | w in s.sups && At(s, w).Polled? ::
          Ascending(At(s, w).queue) && Name(At(s, w).ticket) in At(s, w).queue)
    && (forall w, v | w in s.sups && v in s.sups && At(s, w).Polled? && Queued(At(s, v)) ::
          Name(At(s, v).ticket) in At(s, w).queue || At(s, w).ticket.stamp <= At(s, v).ticket.stamp)
  }

  lemma FairAfterPoll(s: State, p: nat, blind: set<nat>)
    requires TicketInv(s) && SnapshotsFair(s)
    ensures SnapshotsFair(Snapshot(s, p, blind))
  {
    if At(s, p).Waiting? {
      var q := LiveQueue(s.dir, s.procs, blind);
      forall v | v in s.sups && Queued(At(s, v)) ensures Name(At(s, v).ticket) in q {
        InSnapshot(s, v, blind);
      }
      SnapshotMoves(s, p, blind);
      FullSnapshotIsFair(s, Snapshot(s, p, blind), p, q);
    }
  }

  lemma SnapshotMoves(s: State, p: nat, blind: set<nat>)
    requires At(s, p).Waiting?
    ensures var s' := Snapshot(s, p, blind);
      && s'.sups.Keys == s.sups.Keys
      && At(s', p) == Polled(At(s, p).ticket, LiveQueue(s.dir, s.procs, blind))
      && forall v :: v != p ==> At(s', v) == At(s, v)
  {
  }

  lemma FullSnapshotIsFair(s: State, s': State, p: nat, q: seq<string>)
    requires SnapshotsFair(s) && At(s, p).Waiting? && p in s.sups && s'.sups.Keys == s.sups.Keys
    requires At(s', p) == Polled(At(s, p).ticket, q) && Ascending(q)
    requires forall v :: v != p ==> At(s', v) == At(s, v)
    requires forall v | v in s.sups && Queued(At(s, v)) :: Name(At(s, v).ticket) in q
    ensures SnapshotsFair(s')
  {
  }

  lemma FairAfterArrival(s: State, p: nat, gate: nat, known: bool)
    requires Inv(s) && SnapshotsFair(s) && p in s.sups && At(s, p).Idle?
    ensures SnapshotsFair(PublishTicket(StampTicket(s, p, gate, known), p))
  {
    var s' := PublishTicket(StampTicket(s, p, gate, known), p);
    assert forall q | q in s.sups && q != p :: s'.sups[q] == s.sups[q];
  }

  /** Other steps leave every snapshot alone and bring no new ticket. */
  ghost predicate QuietStep(s: State, s': State) {
    && (forall p :: At(s', p).Stamped? ==> At(s, p).Stamped?)
    && (forall w | w in s'.sups && At(s', w).Polled? :: At(s, w) == At(s', w))
    && (forall v | v in s'.sups && Queued(At(s', v)) :: Queued(At(s, v)) && At(s', v).ticket == At(s, v).ticket)
  }

  lemma OthersAreQuiet(s: State, st: Step)
    requires !st.Stamp? && !st.Poll? && !st.Arrive? && (st.Publish? ==> !At(s, st.pid).Stamped?)
    ensures QuietStep(s, Next(s, st))
  {
    OthersKeepStamps(s, st);
    OthersKeepSnapshots(s, st);
  }

  lemma OthersKeepStamps(s: State, st: Step)
    requires !st.Stamp? && !st.Poll? && !st.Arrive?
    ensures forall p :: At(Next(s, st), p).Stamped? ==> At(s, p).Stamped?
  {
  }

  lemma OthersKeepSnapshots(s: State, st: Step)
    requires !st.Stamp? && !st.Poll? && !st.Arrive?
    ensures forall w | w in Next(s, st).sups && At(Next(s, st), w).Polled? :: At(s, w) == At(Next(s, st), w)
  {
  }

  lemma FairAfterQuiet(s: State, s': State)
    requires SnapshotsFair(s) && QuietStep(s, s')
    ensures SnapshotsFair(s')
  {
  }

  lemma FairStep(s: State, st: Step)
    requires Inv(s) && SnapshotsFair(s) && !st.Stamp?
    ensures SnapshotsFair(Next(s, st))
  {
    if Enabled(s, st) && st.Poll? {
      FairAfterPoll(s, st.pid, st.blind);
    } else if Enabled(s, st) && st.Arrive? {
      FairAfterArrival(s, st.pid, st.gate, st.known);
    } else if Enabled(s, st) {
      OthersAreQuiet(s, st);
      FairAfterQuiet(s, Next(s, st));
    }
  }

  lemma {:induction false} FairRun(s: State, run: seq<Step>)
    requires Inv(s) && SnapshotsFair(s) && AtomicArrivals(run)
    ensures SnapshotsFair(After(s, run))
    decreases |run|
  {
    if run != [] {
      assert run[0] in run;
      FairStep(s, run[0]);
      StepInv(s, run[0]);
      FairRun(Next(s, run[0]), run[1..]);
    }
  }

  /** With stamp and publication in one step, the gate serves in arrival order over all runs. */
  lemma ArrivalOrder(s: State, run: seq<Step>, w: nat, v: nat)
    requires Init(s) && AtomicArrivals(run)
    requires var e := After(s, run); Wins(e, w) && v != w && Queued(At(e, v))
    ensures var e := After(s, run); At(e, w).ticket.stamp <= At(e, v).ticket.stamp
  {
    InitInv(s);
    RunInv(s, run);
    FairRun(s, run);
    var e := After(s, run);
    var a, b := At(e, w).ticket, At(e, v).ticket;
    if Name(b) in At(e, w).queue {
      var q := At(e, w).queue;
      var k :| 0 <= k < |q| && q[k] == Name(b);
      NameOrderFollowsStamps(a, b);
    }
  }
}
