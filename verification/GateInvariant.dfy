/** What every step of the session gate keeps. */
module GateInvariant {
  import opened Wrappers
  import opened Text
  import opened Tickets
  import opened TicketQueue
  import opened SessionGate
  import opened GateProtocol

  /** A live supervisor's ticket names it, and with the start time it really has (or none). */
  ghost predicate OwnTicket(s: State, p: nat, t: Ticket)
    requires p in s.procs
  {
    && t.pid == p
    && t.stamp <= s.now
    && Parse(Name(t)) == Some(Owner(p, t.start))
    && (t.start == "0" || t.start == Digits(s.procs[p]))
  }

  /** The flock has an owner exactly while some supervisor is past a successful try. */
  ghost predicate LockInv(s: State) {
    && (forall p | p in s.sups :: Owns(At(s, p)) <==> s.lock == Some(p))
    && (s.lock.Some? ==> s.lock.value in s.sups)
  }

  ghost predicate TicketInv(s: State) {
    && (forall p | p in s.sups :: p in s.procs)
    && (forall p | p in s.sups && HasTicket(At(s, p)) :: OwnTicket(s, p, At(s, p).ticket))
    && (forall p | p in s.sups && Published(At(s, p)) :: Name(At(s, p).ticket) in s.dir)
  }

  ghost predicate IsTicketOf(s: State, p: nat, n: string) {
    p in s.sups && Published(At(s, p)) && Name(At(s, p).ticket) == n
  }

  /** A ticket that names a live process by its start time belongs to a gate inside `acquire`. */
  ghost predicate ClaimInv(s: State) {
    forall n | n in s.dir && Claims(s.procs, n) :: IsTicketOf(s, Parse(n).value.pid, n)
  }

  ghost predicate Inv(s: State) {
    Rooted(s) && s.now < CLOCK_LIMIT && LockInv(s) && TicketInv(s) && ClaimInv(s)
  }

  lemma InitInv(s: State)
    requires Init(s)
    ensures Inv(s)
  {
  }

  lemma NoStartIsZero(k: nat)
    requires k > 0
    ensures Digits(k) != "0"
  {
    assert Digits(0) == "0";
    if Digits(k) == "0" { DigitsInjective(k, 0); }
  }

  /** A ticket just computed satisfies `OwnTicket`, and its name is historic. */
  lemma FreshTicket(s: State, p: nat, gate: nat, known: bool)
    requires Rooted(s) && p in s.procs
    ensures var t := Ticket(s.now, p, OwnStart(s, p, known), gate);
      OwnTicket(s, p, t) && Historic(s.ever, Name(t))
  {
    var t := Ticket(s.now, p, OwnStart(s, p, known), gate);
    assert "0" == Digits(0);
    ParsesBack(t);
    forall k: nat | t.start == Digits(k) && k > 0 ensures (p, k) in s.ever {
      NoStartIsZero(k);
      DigitsInjective(k, s.procs[p]);
    }
  }

  /** Two gates never share a ticket name. */
  lemma NamesDiffer(s: State, p: nat, q: nat)
    requires TicketInv(s) && p != q && HasTicket(At(s, p)) && HasTicket(At(s, q))
    ensures Name(At(s, p).ticket) != Name(At(s, q).ticket)
  {
  }

  /** Pruning never removes the ticket of a live gate. */
  lemma LiveTicketKept(s: State, p: nat, blind: set<nat>)
    requires TicketInv(s) && HasTicket(At(s, p))
    ensures !Dropped(Name(At(s, p).ticket), s.procs, blind)
  {
  }

  /** The name of a live gate's ticket is historic. */
  lemma OwnIsHistoric(s: State, p: nat)
    requires Inv(s) && HasTicket(At(s, p))
    ensures Historic(s.ever, Name(At(s, p).ticket))
  {
    var t := At(s, p).ticket;
    forall k: nat | t.start == Digits(k) && k > 0 ensures (p, k) in s.ever {
      NoStartIsZero(k);
      DigitsInjective(k, s.procs[p]);
    }
  }

  /** Nothing that the ticket files depend on has changed. */
  ghost predicate KeepsFiles(s: State, s': State) {
    && s'.procs == s.procs && s'.ever == s.ever && s'.dir == s.dir && s'.now >= s.now
    && s'.sups.Keys == s.sups.Keys
    && forall q | q in s.sups ::
      && (HasTicket(At(s', q)) ==> HasTicket(At(s, q)) && At(s', q).ticket == At(s, q).ticket)
      && Published(At(s', q)) == Published(At(s, q))
  }

  /**
   * The files stay in order when the process table and the directory do, and every gate
   * keeps its ticket or, before publishing, has none.
   */
  lemma SameFiles(s: State, s': State)
    requires TicketInv(s) && ClaimInv(s) && Rooted(s)
    requires KeepsFiles(s, s')
    ensures TicketInv(s') && ClaimInv(s') && Rooted(s')
  {
    forall n | n in s'.dir && Claims(s'.procs, n) ensures IsTicketOf(s', Parse(n).value.pid, n) {
      assert IsTicketOf(s, Parse(n).value.pid, n);
    }
  }

  lemma StampTickets(s: State, p: nat, gate: nat, known: bool)
    requires Rooted(s) && LockInv(s) && TicketInv(s) && p in s.sups && At(s, p).Idle?
    ensures TicketInv(StampTicket(s, p, gate, known)) && LockInv(StampTicket(s, p, gate, known))
  {
    FreshTicket(s, p, gate, known);
  }

  lemma StampInv(s: State, p: nat, gate: nat, known: bool)
    requires Inv(s) && p in s.sups && At(s, p).Idle?
    ensures Inv(StampTicket(s, p, gate, known))
  {
    StampTickets(s, p, gate, known);
    var s' := StampTicket(s, p, gate, known);
    forall n | n in s'.dir && Claims(s'.procs, n) ensures IsTicketOf(s', Parse(n).value.pid, n) {
      assert IsTicketOf(s, Parse(n).value.pid, n);
    }
  }

  lemma PublishTickets(s: State, p: nat)
    requires LockInv(s) && TicketInv(s) && At(s, p).Stamped?
    ensures LockInv(PublishTicket(s, p)) && TicketInv(PublishTicket(s, p))
  {
  }

  lemma PublishRooted(s: State, p: nat)
    requires Inv(s) && At(s, p).Stamped?
    ensures Rooted(PublishTicket(s, p))
  {
    OwnIsHistoric(s, p);
  }

  lemma PublishClaims(s: State, p: nat)
    requires TicketInv(s) && ClaimInv(s) && At(s, p).Stamped?
    ensures ClaimInv(PublishTicket(s, p))
  {
    var s' := PublishTicket(s, p);
    forall n | n in s'.dir && Claims(s'.procs, n) ensures IsTicketOf(s', Parse(n).value.pid, n) {
      if n in s.dir {
        assert IsTicketOf(s, Parse(n).value.pid, n);
      } else {
        assert n == Name(At(s, p).ticket);
      }
    }
  }

  lemma PublishInv(s: State, p: nat)
    requires Inv(s) && At(s, p).Stamped?
    ensures Inv(PublishTicket(s, p))
  {
    PublishRooted(s, p);
    PublishTickets(s, p);
    PublishClaims(s, p);
  }

  /** A new process, even one with a reused number, is nobody's ticket holder. */
  lemma SpawnClaims(s: State, p: nat, k: nat, n: string)
    requires Inv(s) && p !in s.procs && (p, k) !in s.ever && k > 0
    requires n in s.dir && Claims(s.procs[p := k], n)
    ensures Claims(s.procs, n)
  {
    assert Historic(s.ever, n);
  }

  lemma SpawnInv(s: State, p: nat, k: nat, supervisor: bool)
    requires Inv(s) && Enabled(s, Spawn(p, k, supervisor))
    ensures Inv(Next(s, Spawn(p, k, supervisor)))
  {
    var s' := Next(s, Spawn(p, k, supervisor));
    forall n | n in s'.dir && Claims(s'.procs, n) ensures IsTicketOf(s', Parse(n).value.pid, n) {
      SpawnClaims(s, p, k, n);
      assert IsTicketOf(s, Parse(n).value.pid, n);
    }
    assert LockInv(s');
    assert TicketInv(s');
  }

  lemma KillInv(s: State, p: nat)
    requires Inv(s)
    ensures Inv(Remove(s, p))
  {
    var s' := Remove(s, p);
    forall n | n in s'.dir && Claims(s'.procs, n) ensures IsTicketOf(s', Parse(n).value.pid, n) {
      assert Claims(s.procs, n);
    }
  }

  lemma UnlinkTickets(s: State, p: nat, ph: Phase)
    requires TicketInv(s) && HasTicket(At(s, p)) && !HasTicket(ph)
    ensures TicketInv(Unlink(s, p, ph))
  {
    var s' := Unlink(s, p, ph);
    assert s'.procs == s.procs && s'.now == s.now && s'.sups == s.sups[p := s.sups[p].(phase := ph)];
    forall q | q in s'.sups && Published(At(s', q)) ensures Name(At(s', q).ticket) in s'.dir {
      assert q != p && At(s', q) == At(s, q);
      NamesDiffer(s, p, q);
    }
  }

  /** Unlinking the gate's own ticket touches nobody else's. */
  lemma UnlinkInv(s: State, p: nat, ph: Phase)
    requires Inv(s) && HasTicket(At(s, p)) && !HasTicket(ph) && (Owns(ph) <==> Owns(At(s, p)))
    ensures Inv(Unlink(s, p, ph))
  {
    var s' := Unlink(s, p, ph);
    UnlinkTickets(s, p, ph);
    forall n | n in s'.dir && Claims(s'.procs, n) ensures IsTicketOf(s', Parse(n).value.pid, n) {
      assert Claims(s.procs, n);
    }
  }

  lemma GiveUpInv(s: State, p: nat)
    requires Inv(s) && (At(s, p).Stamped? || At(s, p).Waiting?)
    ensures s.(lock := Unlock(s.lock, p)) == s && Inv(Unlink(s, p, Idle))
  {
    UnlinkInv(s, p, Idle);
  }

  lemma ArriveInv(s: State, p: nat, gate: nat, known: bool)
    requires Inv(s) && p in s.sups && At(s, p).Idle?
    ensures Inv(PublishTicket(StampTicket(s, p, gate, known), p))
  {
    StampInv(s, p, gate, known);
    PublishInv(StampTicket(s, p, gate, known), p);
  }

  /** Files stay in order when a snapshot prunes the directory. */
  lemma PruneFiles(s: State, s': State, blind: set<nat>)
    requires TicketInv(s) && ClaimInv(s) && Rooted(s)
    requires s'.procs == s.procs && s'.ever == s.ever && s'.now == s.now
    requires s'.dir == LiveNames(s.dir, s.procs, blind) && s'.sups == s.sups
    ensures TicketInv(s') && ClaimInv(s') && Rooted(s')
  {
    forall q | q in s'.sups && Published(At(s', q)) ensures Name(At(s', q).ticket) in s'.dir {
      LiveTicketKept(s, q, blind);
    }
    forall n | n in s'.dir && Claims(s'.procs, n) ensures IsTicketOf(s', Parse(n).value.pid, n) {
      assert IsTicketOf(s, Parse(n).value.pid, n);
    }
  }

  lemma SnapshotFrame(s: State, m: State, p: nat, blind: set<nat>)
    requires LockInv(s) && At(s, p).Waiting? && m == s.(dir := LiveNames(s.dir, s.procs, blind))
    ensures LockInv(Snapshot(s, p, blind)) && KeepsFiles(m, Snapshot(s, p, blind))
  {
  }

  lemma SnapshotInv(s: State, p: nat, blind: set<nat>)
    requires Inv(s)
    ensures Inv(Snapshot(s, p, blind))
  {
    if At(s, p).Waiting? {
      var m := s.(dir := LiveNames(s.dir, s.procs, blind));
      PruneFiles(s, m, blind);
      SnapshotFrame(s, m, p, blind);
      SameFiles(m, Snapshot(s, p, blind));
    }
  }

  /** Steps that neither add nor remove files, processes or gates. */
  predicate Local(st: Step) {
    Asking(st) || Serving(st) || st.Stop? || st.OrphanEnds? || st.WarmTakes? || st.Tick?
  }

  predicate Asking(st: Step) {
    st.TryLock? || st.Rest? || st.ClearMarker?
  }

  predicate Serving(st: Step) {
    st.StartEngine? || st.FailStart? || st.EndEngine? || st.Release?
  }

  lemma LocalFiles(s: State, st: Step)
    requires Local(st)
    ensures KeepsFiles(s, Next(s, st))
  {
    if Asking(st) { AskingFiles(s, st); }
    if Serving(st) { ServingFiles(s, st); }
  }

  lemma AskingFiles(s: State, st: Step)
    requires Asking(st)
    ensures KeepsFiles(s, Next(s, st))
  {
  }

  lemma ServingFiles(s: State, st: Step)
    requires Serving(st)
    ensures KeepsFiles(s, Next(s, st))
  {
  }

  lemma LocalLock(s: State, st: Step)
    requires LockInv(s) && Local(st)
    ensures LockInv(Next(s, st))
  {
  }

  lemma LocalInv(s: State, st: Step)
    requires Inv(s) && Local(st)
    ensures Inv(Next(s, st))
  {
    LocalFiles(s, st);
    SameFiles(s, Next(s, st));
    LocalLock(s, st);
    ClockFits(s, st);
  }

  lemma ClockFits(s: State, st: Step)
    requires s.now < CLOCK_LIMIT
    ensures Next(s, st).now < CLOCK_LIMIT
  {
  }

  lemma KillStep(s: State, p: nat)
    requires Inv(s)
    ensures Inv(Next(s, Kill(p)))
  {
    if Enabled(s, Kill(p)) { KillInv(s, p); }
  }

  lemma StampStep(s: State, p: nat, gate: nat, known: bool)
    requires Inv(s)
    ensures Inv(Next(s, Stamp(p, gate, known)))
  {
    if Enabled(s, Stamp(p, gate, known)) { StampInv(s, p, gate, known); }
  }

  lemma PublishStep(s: State, p: nat)
    requires Inv(s)
    ensures Inv(Next(s, Publish(p)))
  {
    if Enabled(s, Publish(p)) { PublishInv(s, p); }
  }

  lemma ArriveStep(s: State, p: nat, gate: nat, known: bool)
    requires Inv(s)
    ensures Inv(Next(s, Arrive(p, gate, known)))
  {
    if Enabled(s, Arrive(p, gate, known)) { ArriveInv(s, p, gate, known); }
  }

  lemma PollStep(s: State, p: nat, blind: set<nat>)
    requires Inv(s)
    ensures Inv(Next(s, Poll(p, blind)))
  {
    if Enabled(s, Poll(p, blind)) { SnapshotInv(s, p, blind); }
  }

  lemma GiveUpStep(s: State, p: nat)
    requires Inv(s)
    ensures Inv(Next(s, GiveUp(p)))
  {
    if Enabled(s, GiveUp(p)) { GiveUpInv(s, p); }
  }

  lemma DropStep(s: State, p: nat)
    requires Inv(s)
    ensures Inv(Next(s, DropTicket(p)))
  {
    if Enabled(s, DropTicket(p)) {
      DropGives(s, p);
      UnlinkInv(s, p, Holding);
    }
  }

  lemma DropGives(s: State, p: nat)
    requires At(s, p).Cleared?
    ensures Next(s, DropTicket(p)) == Unlink(s, p, Holding)
  {
  }

  lemma SpawnStep(s: State, p: nat, k: nat, supervisor: bool)
    requires Inv(s)
    ensures Inv(Next(s, Spawn(p, k, supervisor)))
  {
    if Enabled(s, Spawn(p, k, supervisor)) { SpawnInv(s, p, k, supervisor); }
  }

  /** The invariant survives every step. */
  lemma StepInv(s: State, st: Step)
    requires Inv(s)
    ensures Inv(Next(s, st))
  {
    match st
    case Spawn(p, k, supervisor) => SpawnStep(s, p, k, supervisor);
    case Kill(p) => KillStep(s, p);
    case Stamp(p, gate, known) => StampStep(s, p, gate, known);
    case Publish(p) => PublishStep(s, p);
    case Arrive(p, gate, known) => ArriveStep(s, p, gate, known);
    case Poll(p, blind) => PollStep(s, p, blind);
    case GiveUp(p) => GiveUpStep(s, p);
    case DropTicket(p) => DropStep(s, p);
    case _ => LocalInv(s, st);
  }

  lemma {:induction false} RunInv(s: State, run: seq<Step>)
    requires Inv(s)
    ensures Inv(After(s, run))
    decreases |run|
  {
    if run != [] {
      StepInv(s, run[0]);
      RunInv(Next(s, run[0]), run[1..]);
    }
  }
}
