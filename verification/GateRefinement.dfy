/**
 * The methods of SessionGate, run one after the other as `acquire` runs them, make exactly the
 * steps of the protocol.
 */
module GateRefinement {
  import opened Wrappers
  import opened Tickets
  import opened TicketQueue
  import opened SessionGate
  import opened GateProtocol
  import opened GateTheorems
  import opened GateLimits

  /** The shared files are as the protocol has them. */
  ghost predicate Shows(host: Host, s: State)
    reads host
  {
    host.procs == s.procs && host.queueDir == s.dir && host.lock == s.lock && host.marker == s.marker
  }

  ghost function TurnSteps(p: nat, blind: set<nat>, acquired: bool): seq<Step> {
    [Poll(p, blind), TryLock(p)] + if acquired then [ClearMarker(p), DropTicket(p)] else [Rest(p)]
  }

  lemma PollShown(s: State, p: nat, t: Ticket, last: nat, blind: set<nat>)
    requires p in s.sups && s.sups[p] == Supervisor(Waiting(t), false, last)
    ensures var q := LiveQueue(s.dir, s.procs, blind);
      Next(s, Poll(p, blind)) ==
      s.(dir := LiveNames(s.dir, s.procs, blind), sups := s.sups[p := Supervisor(Polled(t, q), false, last)])
  {
  }

  lemma TryShown(s: State, p: nat, t: Ticket, q: seq<string>, last: nat)
    requires p in s.sups && s.sups[p] == Supervisor(Polled(t, q), false, last)
    ensures var wins := (q == [] || q[0] == Name(t)) && s.lock == None;
      Next(s, TryLock(p)) ==
      if wins then s.(lock := Some(p), sups := s.sups[p := Supervisor(Locked(t), false, last)])
      else s.(sups := s.sups[p := Supervisor(GateProtocol.Phase.Refused(t), false, last)])
  {
  }

  lemma EntryShown(s: State, p: nat, t: Ticket, last: nat)
    requires p in s.sups && s.sups[p] == Supervisor(Locked(t), false, last)
    ensures Next(Next(s, ClearMarker(p)), DropTicket(p)) ==
      s.(marker := false, dir := s.dir - {Name(t)}, sups := s.sups[p := Supervisor(Holding, false, last)])
  {
    var m := Next(s, ClearMarker(p));
    assert m == s.(marker := false, sups := s.sups[p := Supervisor(Cleared(t), false, last)]);
    assert s.sups[p := Supervisor(Cleared(t), false, last)][p := Supervisor(Holding, false, last)] ==
      s.sups[p := Supervisor(Holding, false, last)];
  }

  lemma RestShown(s: State, p: nat, t: Ticket, last: nat)
    requires p in s.sups && s.sups[p] == Supervisor(GateProtocol.Phase.Refused(t), false, last)
    ensures var due := s.now - last >= SECOND;
      Next(s, Rest(p)) ==
      s.(marker := s.marker || due, sups := s.sups[p := Supervisor(Waiting(t), false, if due then s.now else last)])
  {
  }

  lemma AfterTurn(s: State, p: nat, blind: set<nat>, acquired: bool)
    ensures var tried := Next(Next(s, Poll(p, blind)), TryLock(p));
      After(s, TurnSteps(p, blind, acquired)) ==
      if acquired then Next(Next(tried, ClearMarker(p)), DropTicket(p)) else Next(tried, Rest(p))
  {
    var tried := After(s, [Poll(p, blind), TryLock(p)]);
    AfterTwo(s, Poll(p, blind), TryLock(p));
    if acquired {
      AfterConcat(s, [Poll(p, blind), TryLock(p)], [ClearMarker(p), DropTicket(p)]);
      AfterTwo(tried, ClearMarker(p), DropTicket(p));
    } else {
      AfterConcat(s, [Poll(p, blind), TryLock(p)], [Rest(p)]);
      AfterOne(tried, Rest(p));
    }
  }

  /** The start of `acquire`, up to the stamp. */
  method Enter(g: Gate, now: nat, known: bool, ghost s: State) returns (t: Ticket)
    requires Shows(g.host, s) && s.now == now && g.pid in s.sups && At(s, g.pid).Idle?
    modifies g
    ensures g.open && Shows(g.host, Next(s, Stamp(g.pid, g.id, known)))
    ensures At(Next(s, Stamp(g.pid, g.id, known)), g.pid) == Stamped(t)
  {
    t := g.Enter(now, known);
  }

  /** Writing the ticket is the step that publishes it. */
  method Announce(g: Gate, t: Ticket, ghost s: State)
    requires Shows(g.host, s) && g.open && At(s, g.pid) == Stamped(t)
    modifies g.host
    ensures g.open && Shows(g.host, Next(s, Publish(g.pid)))
    ensures At(Next(s, Publish(g.pid)), g.pid) == Waiting(t)
  {
    g.WriteTicket(Name(t));
  }

  /** The end of a turn that got the flock. */
  method Granted(g: Gate, t: Ticket, last: nat, ghost s: State) returns (ghost s': State)
    requires Shows(g.host, s) && g.pid in s.sups && s.sups[g.pid] == Supervisor(Locked(t), false, last)
    modifies g, g.host
    ensures s' == Next(Next(s, ClearMarker(g.pid)), DropTicket(g.pid)) && Shows(g.host, s')
    ensures g.open == old(g.open) && g.host.lock == old(g.host.lock) && At(s', g.pid).Holding?
  {
    EntryShown(s, g.pid, t, last);
    g.host.marker := false;
    g.Leave(Name(t), true);
    s' := Next(Next(s, ClearMarker(g.pid)), DropTicket(g.pid));
  }

  /** The end of a turn that did not. */
  method Refused(g: Gate, t: Ticket, now: nat, last: nat, ghost s: State) returns (last': nat, ghost s': State)
    requires Shows(g.host, s) && s.now == now && g.pid in s.sups
    requires s.sups[g.pid] == Supervisor(GateProtocol.Phase.Refused(t), false, last)
    modifies g.host
    ensures s' == Next(s, Rest(g.pid)) && Shows(g.host, s')
    ensures g.pid in s'.sups && s'.sups[g.pid] == Supervisor(Waiting(t), false, last')
  {
    RestShown(s, g.pid, t, last);
    last' := g.Hint(now, last, SECOND);
    s' := Next(s, Rest(g.pid));
  }

  /** One turn of the polling loop of `acquire`. */
  method Turn(g: Gate, t: Ticket, now: nat, last: nat, listing: seq<string>, blind: set<nat>, ghost s: State)
    returns (acquired: bool, last': nat, ghost s': State)
    requires Shows(g.host, s) && s.now == now && IsSorted(listing, g.host.queueDir) && g.open
    requires g.pid in s.sups && s.sups[g.pid] == Supervisor(Waiting(t), false, last)
    modifies g, g.host
    ensures Shows(g.host, s') && s' == After(s, TurnSteps(g.pid, blind, acquired))
    ensures g.open
    ensures acquired ==> At(s', g.pid).Holding? && g.host.lock == Some(g.pid)
    ensures !acquired ==> g.pid in s'.sups && s'.sups[g.pid] == Supervisor(Waiting(t), false, last')
  {
    last' := last;
    var queue := g.Queue(listing, blind);
    ghost var polled := Next(s, Poll(g.pid, blind));
    PollShown(s, g.pid, t, last, blind);
    acquired := g.TryTake(Name(t), queue);
    ghost var tried := Next(polled, TryLock(g.pid));
    TryShown(polled, g.pid, t, queue, last);
    AfterTurn(s, g.pid, blind, acquired);
    if acquired {
      s' := Granted(g, t, last, tried);
    } else {
      last', s' := Refused(g, t, now, last, tried);
    }
  }

  /** Leaving the loop without the session: the `finally` is the step that gives up. */
  method Abandon(g: Gate, t: Ticket, ghost s: State)
    requires Shows(g.host, s) && g.open && At(s, g.pid) == Waiting(t)
    modifies g, g.host
    ensures !g.open && Shows(g.host, Next(s, GiveUp(g.pid)))
  {
    g.Leave(Name(t), false);
  }

  /** `release` after the delay is the step that ends the session. */
  method GiveBack(g: Gate, ghost s: State)
    requires Shows(g.host, s) && g.open && Enabled(s, GateProtocol.Step.Release(g.pid))
    modifies g, g.host
    ensures !g.open && Shows(g.host, Next(s, GateProtocol.Step.Release(g.pid)))
  {
    g.Release();
  }
}
