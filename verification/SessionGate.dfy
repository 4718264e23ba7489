/** bridge/eufy_run.py, class SessionGate: the methods that touch the shared files. */
module SessionGate {
  import opened Wrappers
  import opened Text
  import opened Tickets
  import opened TicketQueue

  /** What the processes on the machine share: the process table and three paths under /data. */
  class Host {
    var procs: map<nat, nat>
    var queueDir: set<string>
    var lock: Option<nat>
    var marker: bool

    constructor ()
      ensures procs == map[] && queueDir == {} && lock == None && !marker
    {
      procs, queueDir, lock, marker := map[], {}, None, false;
    }
  }

  /** Unlocking a descriptor that holds no lock changes nothing. */
  function Unlock(lock: Option<nat>, pid: nat): Option<nat> {
    if lock == Some(pid) then None else lock
  }

  class Gate {
    const host: Host
    const pid: nat
    const id: nat
    var open: bool

    constructor (host: Host, pid: nat, id: nat)
      ensures this.host == host && this.pid == pid && this.id == id && !open
    {
      this.host, this.pid, this.id, open := host, pid, id, false;
    }

    /**
     * The first lines of `acquire`: open the lock file, then compute the ticket. `known` says
     * whether /proc shows the process its own start time.
     */
    method Enter(now: nat, known: bool) returns (ticket: Ticket)
      modifies this`open
      ensures open
      ensures ticket == Ticket(now, pid, if known && pid in host.procs then Digits(host.procs[pid]) else "0", id)
    {
      open := true;
      var start := "0";
      if known && pid in host.procs {
        start := Digits(host.procs[pid]);
      }
      ticket := Ticket(now, pid, start, id);
    }

    /** `ticket.write_text`: an access of its own, after the stamp. */
    method WriteTicket(ticket: string)
      modifies host`queueDir
      ensures host.queueDir == old(host.queueDir) + {ticket}
    {
      host.queueDir := host.queueDir + {ticket};
    }

    /**
     * `_queue`. `listing` is the sorted glob; the loop unlinks unreadable names and
     * tickets of dead processes and keeps the others in order.
     */
    method Queue(listing: seq<string>, blind: set<nat>) returns (tickets: seq<string>)
      requires IsSorted(listing, host.queueDir)
      modifies host`queueDir
      ensures tickets == LiveQueue(old(host.queueDir), host.procs, blind)
      ensures host.queueDir == LiveNames(old(host.queueDir), host.procs, blind)
    {
      tickets := [];
      ghost var before := host.queueDir;
      for i := 0 to |listing|
        invariant Ascending(tickets)
        invariant forall n :: n in tickets <==> n in listing[..i] && !Dropped(n, host.procs, blind)
        invariant host.queueDir == set n | n in before && (n in listing[..i] ==> !Dropped(n, host.procs, blind))
      {
        var ticket := listing[i];
        assert listing[..i + 1] == listing[..i] + [ticket];
        match Parse(ticket) {
          case None =>
            host.queueDir := host.queueDir - {ticket};
          case Some(owner) =>
            var stale := owner.pid !in host.procs;
            if !stale && owner.pid !in blind {
              stale := owner.start != "0" && Digits(host.procs[owner.pid]) != owner.start;
            }
            if stale {
              host.queueDir := host.queueDir - {ticket};
            } else {
              forall k | 0 <= k < |tickets| ensures LexLess(tickets[k], ticket) {
                assert tickets[k] in listing[..i];
              }
              tickets := tickets + [ticket];
            }
        }
      }
      assert listing[..|listing|] == listing;
      assert forall n :: n in before <==> n in listing by {
        assert Elements(listing) == before;
        assert forall n :: n in listing <==> n in Elements(listing);
      }
      SortedIsUnique(tickets, LiveQueue(before, host.procs, blind), LiveNames(before, host.procs, blind));
    }

    /** One try of the polling loop: only the head of the queue asks for the flock. */
    method TryTake(ticket: string, queue: seq<string>) returns (acquired: bool)
      requires open
      modifies host`lock
      ensures acquired <==> (queue == [] || queue[0] == ticket) && old(host.lock) == None
      ensures host.lock == if acquired then Some(pid) else old(host.lock)
    {
      acquired := false;
      if |queue| == 0 || queue[0] == ticket {
        if host.lock == None {
          host.lock := Some(pid);
          acquired := true;
        }
      }
    }

    /** `request_preempt`: at most one touch a second, measured on the monotonic clock. */
    method Hint(now: nat, last: nat, every: nat) returns (last': nat)
      modifies host`marker
      ensures host.marker == (old(host.marker) || now - last >= every)
      ensures last' == if now - last >= every then now else last
    {
      last' := last;
      if now - last >= every {
        host.marker := true;
        last' := now;
      }
    }

    /** The `finally` of `acquire`. */
    method Leave(ticket: string, acquired: bool)
      modifies this`open, host`queueDir, host`lock
      ensures host.queueDir == old(host.queueDir) - {ticket}
      ensures acquired ==> host.lock == old(host.lock) && open == old(open)
      ensures !acquired ==> !open && host.lock == (if old(open) then Unlock(old(host.lock), pid) else old(host.lock))
    {
      host.queueDir := host.queueDir - {ticket};
      if !acquired {
        Release();
      }
    }

    /** `release`: unlock and close the handle, if there is one. */
    method Release()
      modifies this`open, host`lock
      ensures !open
      ensures host.lock == if old(open) then Unlock(old(host.lock), pid) else old(host.lock)
    {
      if !open {
        return;
      }
      if host.lock == Some(pid) {
        host.lock := None;
      }
      open := false;
    }
  }
}
