/** A warm-only lease yields to a waiting supervisor; a watched session does not. */
module PreemptionProofs {
  import opened Wrappers
  import opened Text
  import opened Tickets
  import opened TicketQueue
  import Gate = GateProtocol
  import GateInvariant
  import GateTheorems
  import GateLimits
  import GateRefinement
  import opened Warmer
  import opened Preemption

  // ---------------------------------------------------------------- the gate, seen from the holder

  ghost predicate HasSession(g: Gate.State, h: nat) {
    && GateInvariant.LockInv(g) && g.lock == Some(h) && h in g.procs
    && (Gate.At(g, h).Engine? || Gate.At(g, h).Draining?)
  }

  /** Only the end of its own engine and its own release move a session holder. */
  lemma HolderMoves(g: Gate.State, st: Gate.Step, h: nat)
    requires HasSession(g, h) && st != Gate.Kill(h)
    ensures var g' := Gate.Next(g, st);
      || (st == Gate.EndEngine(h) && Gate.At(g, h).Engine? && Gate.At(g', h) == Gate.Draining(g.now + g.delay) && g'.lock == g.lock)
      || (st == Gate.Release(h) && Gate.At(g, h).Draining? && g'.lock == None)
      || (Gate.At(g', h) == Gate.At(g, h) && g'.lock == g.lock)
  {
  }

  lemma HolderStopping(g: Gate.State, st: Gate.Step, h: nat)
    requires HasSession(g, h) && st != Gate.Kill(h)
    ensures h in Gate.Next(g, st).sups && (g.sups[h].stopping ==> Gate.Next(g, st).sups[h].stopping)
    ensures !st.Stop? ==> Gate.Next(g, st).sups[h].stopping == g.sups[h].stopping
  {
  }

  /** While the session lasts, only the warmer takes the marker away. */
  lemma MarkerStays(g: Gate.State, st: Gate.Step, h: nat)
    requires HasSession(g, h) && g.marker && !st.WarmTakes?
    ensures Gate.Next(g, st).marker
  {
  }

  lemma ClockMoves(g: Gate.State, st: Gate.Step)
    ensures var g' := Gate.Next(g, st); g'.delay == g.delay && g'.now >= g.now
    ensures !st.Tick? ==> Gate.Next(g, st).now == g.now
  {
  }

  /** A waiter's hint clock restarts only by touching the marker. */
  lemma WaiterHints(g: Gate.State, st: Gate.Step, w: nat)
    requires w in g.procs && Gate.Queued(Gate.At(g, w)) && Gate.Queued(Gate.At(Gate.Next(g, st), w))
    ensures var g' := Gate.Next(g, st); g'.sups[w].lastHint == g.sups[w].lastHint || g'.marker
  {
  }

  /** Once the hint is due, the waiter only gets closer to it. */
  lemma WaiterMoves(g: Gate.State, st: Gate.Step, w: nat)
    requires w in g.procs && Gate.Queued(Gate.At(g, w)) && Gate.Queued(Gate.At(Gate.Next(g, st), w))
    ensures var g' := Gate.Next(g, st);
      || Gate.At(g', w) == Gate.At(g, w)
      || (Gate.At(g, w).Waiting? && Gate.At(g', w).Polled?)
      || (Gate.At(g, w).Polled? && Gate.At(g', w).Refused?)
      || (Gate.At(g, w).Refused? && Gate.At(g', w).Waiting? && (g'.marker || g.now - g.sups[w].lastHint < Gate.SECOND))
  {
  }

  /** Every engine that nobody watches, with no demand for its stream in flight, is such a session. */
  lemma UnwatchedEngineIsSession(s: System)
    requires GateInvariant.Inv(s.gate) && Gate.At(s.gate, s.holder).Engine?
    requires Viewers(s, s.stream) == 0 && Paired(s.warm) && (Warmed(s) || Harmless(s))
    ensures Session(s)
  {
  }

  lemma {:induction false} AfterConcat(s: System, a: seq<Move>, b: seq<Move>)
    ensures After(s, a + b) == After(After(s, a), b)
    decreases |a|
  {
    if a == [] {
      assert a + b == b;
    } else {
      assert (a + b)[1..] == a[1..] + b;
      AfterConcat(Next(s, a[0]), a[1..], b);
    }
  }

  lemma AfterOne(s: System, a: Move)
    ensures After(s, [a]) == Next(s, a)
  {
    assert After(Next(s, a), []) == Next(s, a);
  }

  lemma AfterTwo(s: System, a: Move, b: Move)
    ensures After(s, [a, b]) == Next(Next(s, a), b)
  {
    assert [a, b][1..] == [b];
    AfterOne(Next(s, a), b);
  }

  /** Steps of the gate as moves of the system. */
  function Lift(steps: seq<Gate.Step>): seq<Move>
    decreases |steps|
  {
    if steps == [] then [] else [GateMove(steps[0])] + Lift(steps[1..])
  }

  lemma {:induction false} LiftRuns(s: System, steps: seq<Gate.Step>)
    requires Gate.WarmTakes !in steps
    ensures After(s, Lift(steps)) == s.(gate := Gate.After(s.gate, steps))
    decreases |steps|
  {
    if steps != [] {
      assert steps[0] in steps;
      LiftOne(s, steps[0]);
      assert Lift(steps)[1..] == Lift(steps[1..]);
      LiftRuns(s.(gate := Gate.Next(s.gate, steps[0])), steps[1..]);
    }
  }

  lemma LiftOne(s: System, st: Gate.Step)
    requires !st.WarmTakes?
    ensures Next(s, GateMove(st)) == s.(gate := Gate.Next(s.gate, st))
  {
  }

  /** Nobody watches, nothing is warm, and the controller is about to look. */
  function Idle(g: Gate.State, p: nat, stream: string): System {
    System(g, Warm(None, None, 0.0, 0.0, 0, {}), AtHead, map[stream := 0], {}, stream, p)
  }

  /** A warm-only session of `p` on the stream, on top of a state of the gate. */
  function Scene(g: Gate.State, p: nat, stream: string, now: real, at: real): System {
    System(g, Warm(Some(stream), Some(0), now, at, 1, {0}), AtHead, map[stream := 0], {}, stream, p)
  }

  /** What the controller does about a viewer that comes and goes. */
  function Visit(stream: string, now: real, at: real, lease: real): seq<Move> {
    [Head, FetchOk] + [Act(Some(stream), now, at, lease), Leave(stream)]
  }

  lemma Fetches(s: System)
    requires s.loop.AtHead? && !s.gate.marker
    ensures After(s, [Head, FetchOk]) == s.(loop := Fetched(Reported(s)))
  {
    AfterTwo(s, Head, FetchOk);
    HeadGives(s);
    FetchGives(s.(loop := Fetching));
  }

  lemma HeadGives(s: System)
    requires s.loop.AtHead? && !s.gate.marker
    ensures Next(s, Head) == s.(loop := Fetching)
  {
  }

  lemma FetchGives(s: System)
    requires s.loop.Fetching?
    ensures Next(s, FetchOk) == s.(loop := Fetched(Reported(s)))
  {
  }

  lemma SoleDemand(s: System, stream: string)
    requires s.viewers == map[stream := 1] && s.lingering == {} && EufyName(stream)
    ensures Reported(s) == map[stream := 1]
    ensures IsChoice(Reported(s), None, Some(stream))
  {
    assert stream in Active(Reported(s));
    assert Active(Reported(s)) <= {stream};
  }

  lemma VisitWarms(g: Gate.State, p: nat, stream: string, now: real, at: real, lease: real)
    requires !g.marker && EufyName(stream)
    ensures var s := Idle(g, p, stream).(viewers := map[stream := 1]);
      && Honest(After(s, [Head, FetchOk]), Act(Some(stream), now, at, lease))
      && After(s, Visit(stream, now, at, lease)) == Scene(g, p, stream, now, at)
  {
    var s := Idle(g, p, stream).(viewers := map[stream := 1]);
    Fetches(s);
    SoleDemand(s, stream);
    var f := After(s, [Head, FetchOk]);
    AfterConcat(s, [Head, FetchOk], [Act(Some(stream), now, at, lease), Leave(stream)]);
    AfterTwo(f, Act(Some(stream), now, at, lease), Leave(stream));
    assert map[stream := 1][stream := 0] == map[stream := 0];
  }

  /** A viewer joins, supervisor `p` is granted the session, the stream is warmed, the viewer leaves, `q` queues up. */
  function Arising(p: nat, q: nat, gate: nat, stream: string, now: real, at: real, lease: real): seq<Move> {
    [Join(stream)] + (Lift(GateLimits.Grant(p, gate, {})) + (Visit(stream, now, at, lease) + Lift([Gate.Arrive(q, gate, true)])))
  }

  lemma ArisingRuns(g: Gate.State, p: nat, q: nat, gate: nat, stream: string, now: real, at: real, lease: real)
    requires GateInvariant.Inv(g) && GateLimits.Quiet(g, p, q) && EufyName(stream)
    ensures var e := Gate.After(g, GateLimits.Grant(p, gate, {}));
      After(Idle(g, p, stream), Arising(p, q, gate, stream, now, at, lease)) ==
      Scene(Gate.Next(e, Gate.Arrive(q, gate, true)), p, stream, now, at)
  {
    var s := Idle(g, p, stream);
    var grant := GateLimits.Grant(p, gate, {});
    var e := Gate.After(g, grant);
    JoinGives(g, p, stream);
    GrantLifts(s.(viewers := map[stream := 1]), p, gate);
    GateLimits.GrantRuns(g, p, gate, {});
    VisitWarms(e, p, stream, now, at, lease);
    ArrivalLifts(Scene(e, p, stream, now, at), q, gate);
    AfterFour(s, [Join(stream)], Lift(grant), Visit(stream, now, at, lease), Lift([Gate.Arrive(q, gate, true)]));
  }

  lemma JoinGives(g: Gate.State, p: nat, stream: string)
    ensures After(Idle(g, p, stream), [Join(stream)]) == Idle(g, p, stream).(viewers := map[stream := 1])
  {
    AfterOne(Idle(g, p, stream), Join(stream));
    assert map[stream := 0][stream := 1] == map[stream := 1];
  }

  lemma GrantLifts(s: System, p: nat, gate: nat)
    ensures After(s, Lift(GateLimits.Grant(p, gate, {}))) == s.(gate := Gate.After(s.gate, GateLimits.Grant(p, gate, {})))
  {
    LiftRuns(s, GateLimits.Grant(p, gate, {}));
  }

  lemma ArrivalLifts(s: System, q: nat, gate: nat)
    ensures After(s, Lift([Gate.Arrive(q, gate, true)])) == s.(gate := Gate.Next(s.gate, Gate.Arrive(q, gate, true)))
  {
    LiftRuns(s, [Gate.Arrive(q, gate, true)]);
    GateLimits.AfterOne(s.gate, Gate.Arrive(q, gate, true));
  }

  lemma AfterFour(s: System, a: seq<Move>, b: seq<Move>, c: seq<Move>, d: seq<Move>)
    ensures After(s, a + (b + (c + d))) == After(After(After(After(s, a), b), c), d)
  {
    AfterConcat(s, a, b + (c + d));
    AfterConcat(After(s, a), b, c + d);
    AfterConcat(After(After(s, a), b), c, d);
  }

  /**
   * The situation arises: from a quiet gate and an idle controller, one supervisor comes to be
   * served for the warmer alone while another queues up.
   */
  lemma SituationArises(g: Gate.State, p: nat, q: nat, gate: nat, stream: string, now: real, at: real, lease: real)
    requires GateInvariant.Inv(g) && GateLimits.Quiet(g, p, q) && EufyName(stream)
    ensures var s := After(Idle(g, p, stream), Arising(p, q, gate, stream, now, at, lease));
      Session(s) && Warmed(s) && Waits(s, q)
  {
    var e := Gate.After(g, GateLimits.Grant(p, gate, {}));
    ArisingRuns(g, p, q, gate, stream, now, at, lease);
    GateLimits.GrantRuns(g, p, gate, {});
    GateInvariant.RunInv(g, GateLimits.Grant(p, gate, {}));
    GateInvariant.StepInv(e, Gate.Arrive(q, gate, true));
    GateLimits.ArrivesAs(e, q, gate);
    UnwatchedEngineIsSession(Scene(Gate.Next(e, Gate.Arrive(q, gate, true)), p, stream, now, at));
  }

  // ---------------------------------------------------------------- moves of the gate

  /** What `HolderMoves` leaves of a session while the holder keeps the flock. */
  ghost predicate HolderStays(g: Gate.State, g': Gate.State, h: nat) {
    && g'.lock == Some(h) && g'.delay == g.delay && g'.now >= g.now
    && (Gate.At(g', h) == Gate.At(g, h) || (Gate.At(g, h).Engine? && Gate.At(g', h) == Gate.Draining(g.now + g.delay)))
  }

  lemma SessionFrame(s: System, g': Gate.State)
    requires Session(s) && GateInvariant.Inv(g') && HolderStays(s.gate, g', s.holder)
    ensures Session(s.(gate := g'))
  {
  }

  lemma HolderStaysOrReleases(s: System, st: Gate.Step)
    requires Session(s) && st != Gate.Kill(s.holder)
    ensures var g' := Gate.Next(s.gate, st); g'.lock != Some(s.holder) || HolderStays(s.gate, g', s.holder)
  {
    HolderMoves(s.gate, st, s.holder);
    ClockMoves(s.gate, st);
  }

  lemma GateKeepsSession(s: System, st: Gate.Step)
    requires Session(s) && st != Gate.Kill(s.holder)
    ensures var s' := s.(gate := Gate.Next(s.gate, st)); Released(s') || Session(s')
  {
    GateInvariant.StepInv(s.gate, st);
    HolderStaysOrReleases(s, st);
    if Gate.Next(s.gate, st).lock == Some(s.holder) {
      SessionFrame(s, Gate.Next(s.gate, st));
    }
  }

  /** The waiter's part of the measure between two states of the gate. */
  ghost predicate WaiterStays(g: Gate.State, g': Gate.State, w: nat) {
    && w in g.sups && w in g'.sups && g'.now >= g.now
    && (g'.sups[w].lastHint == g.sups[w].lastHint || g'.marker)
    && (
      || Gate.At(g', w) == Gate.At(g, w)
      || (Gate.At(g, w).Waiting? && Gate.At(g', w).Polled?)
      || (Gate.At(g, w).Polled? && Gate.At(g', w).Refused?)
      || (Gate.At(g, w).Refused? && Gate.At(g', w).Waiting? && (g'.marker || g.now - g.sups[w].lastHint < Gate.SECOND)))
  }

  lemma WaiterFrame(s: System, g': Gate.State, w: nat)
    requires Waits(s, w) && WaiterStays(s.gate, g', w) && s.holder in s.gate.sups && s.holder in g'.sups
    requires s.gate.sups[s.holder].stopping ==> g'.sups[s.holder].stopping
    requires s.gate.marker ==> g'.marker
    ensures Stage(s.(gate := g'), w) <= Stage(s, w)
  {
  }

  lemma GateStage(s: System, st: Gate.Step, w: nat)
    requires Session(s) && !st.WarmTakes? && st != Gate.Kill(s.holder)
    requires Waits(s, w) && Gate.Queued(Gate.At(Gate.Next(s.gate, st), w))
    ensures var s' := s.(gate := Gate.Next(s.gate, st)); s.holder in s'.gate.sups && Stage(s', w) <= Stage(s, w)
  {
    HolderStopping(s.gate, st, s.holder);
    if s.gate.marker { MarkerStays(s.gate, st, s.holder); }
    WaiterHints(s.gate, st, w);
    WaiterMoves(s.gate, st, w);
    ClockMoves(s.gate, st);
    assert WaiterStays(s.gate, Gate.Next(s.gate, st), w);
    WaiterFrame(s, Gate.Next(s.gate, st), w);
  }

  lemma GateRank(s: System, st: Gate.Step, w: nat)
    requires Session(s) && !st.WarmTakes? && st != Gate.Kill(s.holder)
    requires Waits(s, w) && Gate.Queued(Gate.At(Gate.Next(s.gate, st), w)) && Gate.Next(s.gate, st).lock == Some(s.holder)
    ensures var s' := s.(gate := Gate.Next(s.gate, st)); Session(s') && Rank(s', w) <= Rank(s, w)
  {
    GateKeepsSession(s, st);
    GateStage(s, st, w);
    HolderStaysOrReleases(s, st);
    RankFrame(s, Gate.Next(s.gate, st), w);
  }

  /** The measure follows its stage, and a session that has begun to drain is below both. */
  lemma RankFrame(s: System, g': Gate.State, w: nat)
    requires Session(s) && Session(s.(gate := g')) && HolderStays(s.gate, g', s.holder)
    requires Stage(s.(gate := g'), w) <= Stage(s, w)
    ensures Rank(s.(gate := g'), w) <= Rank(s, w)
  {
  }

  // ---------------------------------------------------------------- moves of the warmer and go2rtc

  /** A response without demand for the stream cannot make it warm. */
  lemma HarmlessChoice(s: System, requested: Option<string>)
    requires s.loop.Fetched? && !Warmed(s) && Harmless(s)
    requires IsChoice(s.loop.counts, s.warm.stream, requested)
    ensures requested != Some(s.stream)
  {
  }

  lemma MarkerInv(g: Gate.State)
    requires GateInvariant.Inv(g)
    ensures GateInvariant.Inv(g.(marker := false))
  {
    GateInvariant.StepInv(g, Gate.WarmTakes);
    assert Gate.Next(g, Gate.WarmTakes) == g.(marker := false);
  }

  /** Taking the marker away leaves the session alone. */
  lemma MarkerTaken(s: System)
    requires Session(s)
    ensures Session(s.(gate := s.gate.(marker := false)))
  {
    MarkerInv(s.gate);
    SessionFrame(s, s.gate.(marker := false));
  }

  lemma OtherKeepsOutside(s: System, m: Move)
    requires Outside(s) && Unwatched(s, m) && !m.GateMove? && !m.Interrupt?
    ensures var s' := Next(s, m);
      Outside(s') && s'.holder == s.holder && (s'.gate == s.gate || s'.gate == s.gate.(marker := false))
  {
    if m.Act? && Enabled(s, m) && !Warmed(s) {
      HarmlessChoice(s, m.requested);
    }
  }

  lemma OtherKeepsSession(s: System, m: Move)
    requires Session(s) && Calm(s, m) && !m.GateMove? && !m.Interrupt?
    ensures Session(Next(s, m)) && Next(s, m).gate.(marker := s.gate.marker) == s.gate
  {
    OtherKeepsOutside(s, m);
    MarkerTaken(s);
  }

  /** The lease is not taken up again without a viewer. */
  lemma StaysCold(s: System, m: Move)
    requires Outside(s) && !Warmed(s) && Unwatched(s, m)
    ensures Outside(Next(s, m)) && !Warmed(Next(s, m))
  {
    if m.Act? && Enabled(s, m) { HarmlessChoice(s, m.requested); }
  }

  /** A cold stream's cancelled consumer does not come back either. */
  lemma StaysDropped(s: System, m: Move)
    requires !Warmed(s) && Unwatched(s, m) && s.stream !in s.lingering
    ensures s.stream !in Next(s, m).lingering
  {
  }

  lemma OtherStage(s: System, m: Move, w: nat)
    requires Outside(s) && s.holder in s.gate.sups && Unwatched(s, m) && !m.GateMove? && !m.Interrupt?
    ensures s.holder in Next(s, m).gate.sups && Stage(Next(s, m), w) <= Stage(s, w)
  {
    if !Warmed(s) {
      StaysCold(s, m);
      if s.stream !in s.lingering { StaysDropped(s, m); }
    }
  }

  lemma OtherRank(s: System, m: Move, w: nat)
    requires Session(s) && Calm(s, m) && !m.GateMove? && !m.Interrupt?
    ensures Session(Next(s, m)) && Rank(Next(s, m), w) <= Rank(s, w)
  {
    OtherKeepsSession(s, m);
    OtherStage(s, m, w);
    SameDelay(s, m);
  }

  // ---------------------------------------------------------------- any move

  lemma GateMoveRank(s: System, st: Gate.Step, w: nat)
    requires Session(s) && st != Gate.Kill(s.holder) && Waits(s, w) && Waits(Next(s, GateMove(st)), w)
    ensures var s' := Next(s, GateMove(st)); Released(s') || (Session(s') && Rank(s', w) <= Rank(s, w))
  {
    if !st.WarmTakes? {
      LiftOne(s, st);
      if Gate.Next(s.gate, st).lock == Some(s.holder) { GateRank(s, st, w); }
    }
  }

  lemma InterruptGives(s: System)
    ensures Next(s, Interrupt) == s || Next(s, Interrupt) == s.(gate := Gate.Next(s.gate, Gate.Stop(s.holder)))
  {
  }

  lemma InterruptRank(s: System, w: nat)
    requires Session(s) && Waits(s, w) && Waits(Next(s, Interrupt), w)
    ensures var s' := Next(s, Interrupt); Released(s') || (Session(s') && Rank(s', w) <= Rank(s, w))
  {
    InterruptGives(s);
    if Next(s, Interrupt) != s && Gate.Next(s.gate, Gate.Stop(s.holder)).lock == Some(s.holder) {
      GateRank(s, Gate.Stop(s.holder), w);
    }
  }

  /** No calm move takes the session away from the measure or moves it up. */
  lemma StepRank(s: System, m: Move, w: nat)
    requires Session(s) && Calm(s, m) && Waits(s, w) && Waits(Next(s, m), w)
    ensures var s' := Next(s, m); Released(s') || (Session(s') && Rank(s', w) <= Rank(s, w))
  {
    if m.GateMove? {
      GateMoveRank(s, m.st, w);
    } else if m.Interrupt? {
      InterruptRank(s, w);
    } else {
      OtherRank(s, m, w);
    }
  }

  // ---------------------------------------------------------------- helpful moves

  /** The waiter's next access on the way to touching the marker. */
  predicate HintMove(s: System, w: nat, st: Gate.Step) {
    if UntilHint(s, w) > 0 then st.Tick? && st.d > 0
    else match Gate.At(s.gate, w)
      case Polled(_, _) => st == Gate.TryLock(w)
      case Refused(_) => st == Gate.Rest(w)
      case _ => st.Poll? && st.pid == w
  }

  /** The next action on the way to taking the marker: the controller's, or go2rtc's before a fetch. */
  predicate TowardsMarker(s: System, m: Move) {
    match s.loop
    case AtHead => m.Head?
    case Fetching => m.FetchOk? || m.FetchFails? || (s.stream in s.lingering && m == Forget(s.stream))
    case Fetched(_) => m.Act?
  }

  /** The move that brings the handover forward in this state. */
  ghost predicate Helps(s: System, w: nat, m: Move)
    requires s.holder in s.gate.sups
  {
    Enabled(s, m) &&
    if Draining(s) then m.GateMove? && (if DrainLeft(s) > 0 then m.st.Tick? && m.st.d > 0 else m.st == Gate.Release(s.holder))
    else if s.gate.sups[s.holder].stopping then m == GateMove(Gate.EndEngine(s.holder))
    else if !Warmed(s) then (if s.stream in s.lingering then m == Forget(s.stream) else m.Interrupt?)
    else if s.gate.marker then TowardsMarker(s, m)
    else m.GateMove? && HintMove(s, w, m.st)
  }

  lemma DrainDecreases(s: System, st: Gate.Step)
    requires Draining(s) && s.gate.lock == Some(s.holder) && s.holder in s.gate.sups && Gate.Enabled(s.gate, st)
    requires if DrainLeft(s) > 0 then st.Tick? && st.d > 0 else st == Gate.Release(s.holder)
    ensures var s' := s.(gate := Gate.Next(s.gate, st));
      Released(s') || (Draining(s') && s'.holder in s'.gate.sups && DrainLeft(s') < DrainLeft(s))
  {
  }

  lemma EndsIntoDrain(s: System)
    requires s.holder in s.gate.sups && Gate.At(s.gate, s.holder).Engine?
    ensures var s' := Next(s, GateMove(Gate.EndEngine(s.holder)));
      Draining(s') && s'.holder in s'.gate.sups && DrainLeft(s') <= s'.gate.delay && s'.gate.delay == s.gate.delay
  {
  }

  lemma HintDecreases(s: System, w: nat, st: Gate.Step)
    requires Waits(s, w) && Gate.Enabled(s.gate, st) && HintMove(s, w, st)
    requires s.gate.lock == Some(s.holder) && s.holder in s.gate.sups && Warmed(s)
    requires !s.gate.sups[s.holder].stopping && !s.gate.marker
    ensures var s' := s.(gate := Gate.Next(s.gate, st));
      s'.holder in s'.gate.sups && Stage(s', w) < Stage(s, w)
  {
  }

  lemma OutsideDecreases(s: System, w: nat, m: Move)
    requires s.holder in s.gate.sups && !s.gate.sups[s.holder].stopping && Enabled(s, m)
    requires if Warmed(s) then s.gate.marker && TowardsMarker(s, m) else s.stream in s.lingering && m == Forget(s.stream)
    ensures var s' := Next(s, m);
      s'.holder in s'.gate.sups && Stage(s', w) < Stage(s, w)
  {
  }

  lemma InterruptDecreases(s: System, w: nat)
    requires s.holder in s.gate.sups && !s.gate.sups[s.holder].stopping && !Warmed(s)
    requires Enabled(s, Interrupt)
    ensures var s' := Next(s, Interrupt);
      s'.holder in s'.gate.sups && Stage(s', w) < Stage(s, w)
  {
  }

  lemma SameDelay(s: System, m: Move)
    ensures Next(s, m).gate.delay == s.gate.delay
  {
    if m.GateMove? { ClockMoves(s.gate, m.st); }
    ClockMoves(s.gate, Gate.Stop(s.holder));
  }

  lemma StageDecreases(s: System, w: nat, m: Move)
    requires Session(s) && !Draining(s) && !s.gate.sups[s.holder].stopping && Calm(s, m) && Waits(s, w) && Helps(s, w, m)
    ensures Next(s, m).holder in Next(s, m).gate.sups && Stage(Next(s, m), w) < Stage(s, w)
  {
    if m.GateMove? {
      HintDecreases(s, w, m.st);
    } else if m.Interrupt? {
      InterruptDecreases(s, w);
    } else {
      OutsideDecreases(s, w, m);
    }
  }

  /** Each helpful move lowers the measure. */
  lemma HelpfulDecreases(s: System, w: nat, m: Move)
    requires Session(s) && Calm(s, m) && Waits(s, w) && Waits(Next(s, m), w) && Helps(s, w, m)
    ensures var s' := Next(s, m); Released(s') || (Session(s') && Rank(s', w) < Rank(s, w))
  {
    StepRank(s, m, w);
    if Draining(s) {
      DrainDecreases(s, m.st);
    } else if s.gate.sups[s.holder].stopping {
      EndsIntoDrain(s);
    } else {
      StageDecreases(s, w, m);
      SameDelay(s, m);
    }
  }

  // ---------------------------------------------------------------- a helpful move is always there

  lemma ChoiceExists(counts: map<string, nat>, current: Option<string>) returns (r: Option<string>)
    ensures IsChoice(counts, current, r)
  {
    if current.Some? && current.value in Active(counts) {
      r := current;
    } else if Active(counts) == {} {
      r := None;
    } else {
      var best := BestOf(counts, Active(counts));
      r := Some(best);
    }
  }

  lemma {:induction false} BestOf(counts: map<string, nat>, names: set<string>) returns (best: string)
    requires names != {} && names <= counts.Keys
    ensures best in names && forall n | n in names && n != best :: Beats(counts, best, n)
    decreases |names|
  {
    var name :| name in names;
    if names == {name} {
      best := name;
    } else {
      var rest := BestOf(counts, names - {name});
      LexTrichotomy(name, rest);
      if Beats(counts, name, rest) {
        best := name;
        forall n | n in names && n != best ensures Beats(counts, best, n) {
          if n != rest { BeatsTransitive(counts, name, rest, n); }
        }
      } else {
        best := rest;
      }
    }
  }

  /** What the choice of a helpful move needs to know of a session. */
  ghost predicate Here(s: System) {
    && s.holder in s.gate.sups && s.gate.lock == Some(s.holder) && Viewers(s, s.stream) == 0
    && (Gate.At(s.gate, s.holder).Engine? || Draining(s))
  }

  lemma SessionIsHere(s: System)
    requires Session(s)
    ensures Here(s)
  {
  }

  lemma HintMoveExists(s: System, w: nat) returns (st: Gate.Step)
    requires Waits(s, w) && s.gate.now + 1 < CLOCK_LIMIT
    ensures Gate.Enabled(s.gate, st) && HintMove(s, w, st) && !st.WarmTakes? && !st.Kill?
  {
    if UntilHint(s, w) > 0 {
      st := Gate.Tick(1);
    } else {
      match Gate.At(s.gate, w) {
        case Polled(_, _) => st := Gate.TryLock(w);
        case Refused(_) => st := Gate.Rest(w);
        case _ => st := Gate.Poll(w, {});
      }
    }
  }

  lemma HelpfulHere(s: System, w: nat) returns (m: Move)
    requires Here(s) && Waits(s, w) && s.gate.now + 1 < CLOCK_LIMIT
    ensures Calm(s, m) && Helps(s, w, m) && !m.FetchFails?
  {
    if Draining(s) {
      m := GateMove(if DrainLeft(s) > 0 then Gate.Tick(1) else Gate.Release(s.holder));
    } else if s.gate.sups[s.holder].stopping {
      m := GateMove(Gate.EndEngine(s.holder));
    } else if !Warmed(s) {
      m := if s.stream in s.lingering then Forget(s.stream) else Interrupt;
    } else if s.gate.marker {
      m := SomeMoveTowardsMarker(s);
    } else {
      var st := HintMoveExists(s, w);
      m := GateMove(st);
    }
  }

  /** Until the release, some calm helpful move other than a failure can be taken (given room on the clock). */
  lemma SomeHelpful(s: System, w: nat) returns (m: Move)
    requires Session(s) && Waits(s, w) && s.gate.now + 1 < CLOCK_LIMIT
    ensures Calm(s, m) && Helps(s, w, m) && !m.FetchFails?
  {
    SessionIsHere(s);
    m := HelpfulHere(s, w);
  }

  lemma SomeMoveTowardsMarker(s: System) returns (m: Move)
    ensures Enabled(s, m) && Calm(s, m) && TowardsMarker(s, m) && !m.FetchFails?
  {
    match s.loop
    case AtHead => m := Head;
    case Fetching => m := if s.stream in s.lingering then Forget(s.stream) else FetchOk;
    case Fetched(counts) =>
      var requested := ChoiceExists(counts, s.warm.stream);
      m := Act(requested, 0.0, 0.0, 0.0);
  }

  // ---------------------------------------------------------------- whole runs

  /** The waiter keeps waiting along the run. */
  ghost predicate KeepsWaiting(s: System, w: nat, run: seq<Move>)
    decreases |run|
  {
    Waits(s, w) && (run == [] || KeepsWaiting(Next(s, run[0]), w, run[1..]))
  }

  ghost predicate ReleasedAlong(s: System, run: seq<Move>)
    decreases |run|
  {
    Released(s) || (run != [] && ReleasedAlong(Next(s, run[0]), run[1..]))
  }

  /** How many moves of the run, taken before the release, are helpful. */
  ghost function HelpfulMoves(s: System, w: nat, run: seq<Move>): nat
    decreases |run|
  {
    if run == [] || Released(s) || s.holder !in s.gate.sups then 0
    else (if Helps(s, w, run[0]) then 1 else 0) + HelpfulMoves(Next(s, run[0]), w, run[1..])
  }

  lemma CountsDown(s: System, w: nat, m: Move)
    requires Session(s) && Calm(s, m) && Waits(s, w) && Waits(Next(s, m), w)
    ensures s.holder in s.gate.sups && Rank(s, w) >= 1
    ensures var s' := Next(s, m);
      Released(s') || (Session(s') && Rank(s', w) + Bit(Helps(s, w, m)) <= Rank(s, w))
  {
    RankPositive(s, w);
    StepRank(s, m, w);
    if Helps(s, w, m) { HelpfulDecreases(s, w, m); }
  }

  lemma {:induction false} SessionLasts(s: System, w: nat, run: seq<Move>)
    requires Session(s) && AllCalm(s, run) && KeepsWaiting(s, w, run) && !ReleasedAlong(s, run)
    ensures Session(After(s, run)) && Waits(After(s, run), w)
    decreases |run|
  {
    if run != [] {
      CountsDown(s, w, run[0]);
      SessionLasts(Next(s, run[0]), w, run[1..]);
    }
  }

  /** However a calm run has gone, before the release a helpful move can still be taken. */
  lemma NeverStuck(s: System, w: nat, run: seq<Move>, e: System) returns (m: Move)
    requires Session(s) && AllCalm(s, run) && KeepsWaiting(s, w, run) && !ReleasedAlong(s, run)
    requires e == After(s, run) && e.gate.now + 1 < CLOCK_LIMIT
    ensures Session(e) && Calm(e, m) && Helps(e, w, m) && !m.FetchFails?
  {
    SessionLasts(s, w, run);
    m := SomeHelpful(e, w);
  }

  /**
   * A warm-only lease never blocks a queued supervisor: whatever else happens, no run in which
   * one keeps waiting holds more helpful moves than the measure before the session is released.
   */
  lemma {:induction false} WarmLeaseYields(s: System, w: nat, run: seq<Move>)
    requires Session(s) && AllCalm(s, run) && KeepsWaiting(s, w, run)
    ensures s.holder in s.gate.sups && HelpfulMoves(s, w, run) <= Rank(s, w)
    decreases |run|
  {
    SessionIsHere(s);
    if run != [] {
      CountsDown(s, w, run[0]);
      if Released(Next(s, run[0])) {
        NothingAfterRelease(Next(s, run[0]), w, run[1..]);
      } else {
        WarmLeaseYields(Next(s, run[0]), w, run[1..]);
      }
    }
  }

  /** A calm move that ends a session leaves the flock free. */
  lemma ReleaseFrees(s: System, m: Move)
    requires Session(s) && Calm(s, m) && Released(Next(s, m))
    ensures Next(s, m).gate.lock == None && GateInvariant.Inv(Next(s, m).gate)
  {
    if m.GateMove? {
      HolderMoves(s.gate, m.st, s.holder);
      GateInvariant.StepInv(s.gate, m.st);
    } else if m.Interrupt? {
      HolderMoves(s.gate, Gate.Stop(s.holder), s.holder);
    } else {
      OtherKeepsSession(s, m);
    }
  }

  /**
   * The handover: at the move that releases a warm-only session the flock is free, and the least
   * waiter's next poll and try take it, exactly unless a blind ticket sorts before it.
   */
  lemma HandedOver(s: System, w: nat, run: seq<Move>, e: System, m: Move, r: Gate.State, v: nat, blind: set<nat>)
    requires Session(s) && AllCalm(s, run) && KeepsWaiting(s, w, run) && !ReleasedAlong(s, run)
    requires e == After(s, run) && Calm(e, m) && Released(Next(e, m)) && r == Next(e, m).gate
    requires GateTheorems.LeastWaiter(r, v) && !r.sups[v].stopping
    ensures r.lock == None
    ensures Gate.After(r, [Gate.Poll(v, blind), Gate.TryLock(v)]).lock == Some(v) <==>
      GateTheorems.NothingBlindAhead(r, v, blind)
  {
    SessionLasts(s, w, run);
    ReleaseFrees(e, m);
    GateTheorems.LeastWaiterAcquires(r, v, blind);
  }

  lemma NothingAfterRelease(s: System, w: nat, run: seq<Move>)
    requires Released(s)
    ensures HelpfulMoves(s, w, run) == 0
  {
  }

  lemma RankPositive(s: System, w: nat)
    requires Session(s)
    ensures Rank(s, w) >= 1
  {
  }

  /**
   * Without demand a cold stream is not warmed again over any run: while its session lasts,
   * after the release, and whoever is killed.
   */
  lemma {:induction false} NeverRewarmed(s: System, run: seq<Move>)
    requires Outside(s) && !Warmed(s) && AllUnwatched(s, run)
    ensures Outside(After(s, run)) && !Warmed(After(s, run))
    decreases |run|
  {
    if run != [] {
      StaysCold(s, run[0]);
      NeverRewarmed(Next(s, run[0]), run[1..]);
    }
  }

  // ---------------------------------------------------------------- watched sessions

  /** The step ends, kills or stops the holder's session on its own account. */
  predicate Ends(m: Move, h: nat) {
    m.GateMove? && (m.st == Gate.EndEngine(h) || m.st == Gate.Kill(h) || m.st == Gate.Stop(h))
  }

  ghost predicate Serving(s: System) {
    HasSession(s.gate, s.holder) && Gate.At(s.gate, s.holder).Engine? && s.holder in s.gate.sups &&
    GateInvariant.Inv(s.gate)
  }

  /** The holder has been told to stop. */
  predicate Evicted(s: System)
    requires s.holder in s.gate.sups
  {
    s.gate.sups[s.holder].stopping
  }

  /** go2rtc finds the stream without any consumer. */
  predicate Strikes(s: System, m: Move) {
    m.Interrupt? && Preemption.Consumers(s, s.stream) == 0
  }

  lemma ServingStep(s: System, m: Move)
    requires Serving(s) && !Ends(m, s.holder)
    ensures var s' := Next(s, m);
      Serving(s') && s'.holder == s.holder && (Evicted(s') <==> Evicted(s) || Strikes(s, m))
  {
    if m.GateMove? && Enabled(s, m) {
      GateInvariant.StepInv(s.gate, m.st);
      HolderMoves(s.gate, m.st, s.holder);
      StopsOnly(s.gate, m.st, s.holder);
    } else if m.Interrupt? {
      GateInvariant.StepInv(s.gate, Gate.Stop(s.holder));
    } else if m.Head? {
      MarkerInv(s.gate);
    }
  }

  lemma StopsOnly(g: Gate.State, st: Gate.Step, h: nat)
    requires HasSession(g, h) && h in g.sups && st != Gate.Kill(h) && st != Gate.Stop(h)
    ensures h in Gate.Next(g, st).procs && h in Gate.Next(g, st).sups
    ensures Gate.Next(g, st).sups[h].stopping == g.sups[h].stopping
  {
  }

  ghost predicate StrikesAlong(s: System, run: seq<Move>)
    decreases |run|
  {
    run != [] && (Strikes(s, run[0]) || StrikesAlong(Next(s, run[0]), run[1..]))
  }

  /**
   * A session that does not end by itself is evicted over a run exactly when go2rtc looks at a
   * moment without any consumer: nothing else the warmer or the marker does reaches the holder.
   */
  lemma {:induction false} EvictedIffUnconsumed(s: System, run: seq<Move>)
    requires Serving(s) && forall m | m in run :: !Ends(m, s.holder)
    ensures Serving(After(s, run)) && After(s, run).holder == s.holder
    ensures Evicted(After(s, run)) <==> Evicted(s) || StrikesAlong(s, run)
    decreases |run|
  {
    if run != [] {
      assert run[0] in run;
      ServingStep(s, run[0]);
      EvictedIffUnconsumed(Next(s, run[0]), run[1..]);
    }
  }

  /** Whenever go2rtc looks for consumers, the stream has a viewer. */
  ghost predicate WatchedWhenLooked(s: System, run: seq<Move>)
    decreases |run|
  {
    run == [] || ((run[0].Interrupt? ==> Viewers(s, s.stream) > 0) && WatchedWhenLooked(Next(s, run[0]), run[1..]))
  }

  lemma {:induction false} WatchedIsNotStruck(s: System, run: seq<Move>)
    requires WatchedWhenLooked(s, run)
    ensures !StrikesAlong(s, run)
    decreases |run|
  {
    if run != [] { WatchedIsNotStruck(Next(s, run[0]), run[1..]); }
  }

  /** So a session with a viewer at those moments stays, however often the marker is touched. */
  lemma WatchedSessionStays(s: System, run: seq<Move>)
    requires Serving(s) && !Evicted(s) && WatchedWhenLooked(s, run)
    requires forall m | m in run :: !Ends(m, s.holder)
    ensures Serving(After(s, run)) && After(s, run).holder == s.holder && !Evicted(After(s, run))
  {
    EvictedIffUnconsumed(s, run);
    WatchedIsNotStruck(s, run);
  }

  // ---------------------------------------------------------------- where the promise stops

  /**
   * With nobody watching anything and nothing warm, the next poll warms the stream exactly when
   * go2rtc still lists its cancelled warm consumer.
   */
  lemma RewarmedIffLingering(s: System, a: Move)
    requires s.loop.Fetching? && s.warm.stream == None && s.lingering <= {s.stream}
    requires forall n | n in s.viewers :: s.viewers[n] == 0
    requires a.Act? && Honest(Next(s, FetchOk), a)
    ensures Warmed(Next(Next(s, FetchOk), a)) <==>
      s.stream in s.lingering && s.stream in s.viewers && EufyName(s.stream)
  {
    var f := Next(s, FetchOk);
    assert Active(f.loop.counts) <= {s.stream};
    if s.stream in s.lingering && s.stream in s.viewers && EufyName(s.stream) {
      assert s.stream in Active(f.loop.counts);
    }
  }

  function Rewarming(a: Move): seq<Move> {
    [Head, Head] + [FetchOk, a]
  }

  lemma PreemptedThenFetching(s: System)
    requires Warmed(s) && IsRunning(s.warm) && s.gate.marker && s.loop.AtHead?
    ensures var m := After(s, [Head, Head]);
      && m.loop.Fetching? && m.warm.stream == None && m.lingering == s.lingering + {s.stream}
      && m.viewers == s.viewers && m.stream == s.stream
  {
    AfterTwo(s, Head, Head);
  }

  /**
   * Preempted, and back: from a session held by the warmer alone, the controller takes the
   * marker, cancels its consumer, fetches before go2rtc has dropped it, and warms it again.
   */
  lemma LingeringConsumerRewarms(s: System, now: real, lease: real)
    requires Session(s) && Warmed(s) && IsRunning(s.warm) && s.gate.marker && s.loop.AtHead?
    requires EufyName(s.stream) && s.stream in s.viewers && s.lingering == {}
    requires forall n | n in s.viewers :: s.viewers[n] == 0
    ensures var a := Act(Some(s.stream), now, now, lease);
      && After(s, [Head, Head]).warm.stream == None
      && Honest(Next(After(s, [Head, Head]), FetchOk), a)
      && Warmed(After(s, Rewarming(a)))
  {
    var a := Act(Some(s.stream), now, now, lease);
    PreemptedThenFetching(s);
    var m := After(s, [Head, Head]);
    var f := Next(m, FetchOk);
    assert Active(f.loop.counts) <= {s.stream};
    assert s.stream in Active(f.loop.counts);
    RewarmedIffLingering(m, a);
    AfterConcat(s, [Head, Head], [FetchOk, a]);
    AfterTwo(m, FetchOk, a);
  }

  function Hinting(w: nat): seq<Move> {
    [GateMove(Gate.Poll(w, {})), GateMove(Gate.TryLock(w))] + [GateMove(Gate.Rest(w))]
  }

  lemma AfterHinting(s: System, w: nat)
    ensures After(s, Hinting(w)) ==
      Next(Next(Next(s, GateMove(Gate.Poll(w, {}))), GateMove(Gate.TryLock(w))), GateMove(Gate.Rest(w)))
  {
    var a, b, c := GateMove(Gate.Poll(w, {})), GateMove(Gate.TryLock(w)), GateMove(Gate.Rest(w));
    AfterConcat(s, [a, b], [c]);
    AfterTwo(s, a, b);
    AfterOne(Next(Next(s, a), b), c);
  }

  lemma SessionGoesOn(s: System, st: Gate.Step)
    requires Session(s) && !st.WarmTakes? && st != Gate.Kill(s.holder) && Gate.Next(s.gate, st).lock == s.gate.lock
    ensures Next(s, GateMove(st)) == s.(gate := Gate.Next(s.gate, st)) && Session(Next(s, GateMove(st)))
  {
    GateKeepsSession(s, st);
  }

  /** A waiter whose hint is due polls, is refused, and touches the marker. */
  lemma HintInGate(g: Gate.State, w: nat, t: Ticket, last: nat)
    requires w in g.sups && g.sups[w] == Gate.Supervisor(Gate.Waiting(t), false, last)
    requires g.lock.Some? && g.now - last >= Gate.SECOND
    ensures var g1 := Gate.Next(g, Gate.Poll(w, {}));
      var g2 := Gate.Next(g1, Gate.TryLock(w));
      var g3 := Gate.Next(g2, Gate.Rest(w));
      g1.lock == g.lock && g2.lock == g.lock && g3.lock == g.lock && g3.marker
  {
    GateRefinement.PollShown(g, w, t, last, {});
    var g1 := Gate.Next(g, Gate.Poll(w, {}));
    GateRefinement.TryShown(g1, w, t, LiveQueue(g.dir, g.procs, {}), last);
    GateRefinement.RestShown(Gate.Next(g1, Gate.TryLock(w)), w, t, last);
  }

  lemma HintMarks(s: System, w: nat, t: Ticket, last: nat)
    requires Session(s) && w != s.holder && w in s.gate.sups && s.gate.now - last >= Gate.SECOND
    requires s.gate.sups[w] == Gate.Supervisor(Gate.Waiting(t), false, last)
    ensures var e := After(s, Hinting(w)); e == s.(gate := e.gate) && e.gate.marker && Session(e)
  {
    HintInGate(s.gate, w, t, last);
    SessionGoesOn(s, Gate.Poll(w, {}));
    var s1 := Next(s, GateMove(Gate.Poll(w, {})));
    SessionGoesOn(s1, Gate.TryLock(w));
    SessionGoesOn(Next(s1, GateMove(Gate.TryLock(w))), Gate.Rest(w));
    AfterHinting(s, w);
  }

  /**
   * The whole run, from a quiet gate and an idle controller: served for a viewer, then for the
   * warmer alone, hinted at by the next supervisor, preempted, and warmed again.
   */
  lemma RewarmedFromQuiet(g: Gate.State, p: nat, q: nat, gate: nat, stream: string, now: real, at: real, lease: real)
    requires GateInvariant.Inv(g) && GateLimits.Quiet(g, p, q) && g.now >= Gate.SECOND && EufyName(stream)
    ensures Warmed(After(Idle(g, p, stream),
      Arising(p, q, gate, stream, now, at, lease) + (Hinting(q) + Rewarming(Act(Some(stream), now, now, lease)))))
  {
    var e := Gate.After(g, GateLimits.Grant(p, gate, {}));
    var s := Scene(Gate.Next(e, Gate.Arrive(q, gate, true)), p, stream, now, at);
    SituationArises(g, p, q, gate, stream, now, at, lease);
    ArisingRuns(g, p, q, gate, stream, now, at, lease);
    GateLimits.GrantRuns(g, p, gate, {});
    GateLimits.ArrivesAs(e, q, gate);
    HintMarks(s, q, GateLimits.TicketAt(e, q, gate), 0);
    LingeringConsumerRewarms(After(s, Hinting(q)), now, lease);
    AfterConcat(Idle(g, p, stream), Arising(p, q, gate, stream, now, at, lease),
                Hinting(q) + Rewarming(Act(Some(stream), now, now, lease)));
    AfterConcat(s, Hinting(q), Rewarming(Act(Some(stream), now, now, lease)));
  }
}
