/** The directory snapshot `_queue` takes: which tickets it drops, which it returns, in what order. */
module TicketQueue {
  import opened Text
  import opened Tickets

  ghost predicate Ascending(q: seq<string>) {
    forall i, j | 0 <= i < j < |q| :: LexLess(q[i], q[j])
  }

  ghost function Elements(q: seq<string>): set<string> {
    set n | n in q
  }

  /** `sorted(...)` of a directory listing, described by what it must be. */
  ghost predicate IsSorted(q: seq<string>, names: set<string>) {
    Ascending(q) && Elements(q) == names
  }

  ghost predicate IsLeast(m: string, names: set<string>) {
    m in names && forall n | n in names && n != m :: LexLess(m, n)
  }

  lemma {:induction false} LeastExists(names: set<string>)
    requires names != {}
    ensures exists m :: IsLeast(m, names)
    decreases names
  {
    var x :| x in names;
    if names == {x} {
      assert IsLeast(x, names);
    } else {
      LeastExists(names - {x});
      var m :| IsLeast(m, names - {x});
      LexTrichotomy(x, m);
      if LexLess(m, x) {
        assert IsLeast(m, names);
      } else {
        forall n | n in names && n != x ensures LexLess(x, n) {
          if n != m { LexTransitive(x, m, n); }
        }
        assert IsLeast(x, names);
      }
    }
  }

  ghost function Least(names: set<string>): (m: string)
    requires names != {}
    ensures IsLeast(m, names)
  {
    LeastExists(names);
    var m :| IsLeast(m, names); m
  }

  ghost function Sorted(names: set<string>): (q: seq<string>)
    ensures IsSorted(q, names)
    decreases |names|
  {
    if names == {} then [] else
    var m := Least(names);
    var rest := Sorted(names - {m});
    SortedStep(m, rest, names);
    [m] + rest
  }

  lemma SortedStep(m: string, rest: seq<string>, names: set<string>)
    requires IsLeast(m, names) && IsSorted(rest, names - {m})
    ensures IsSorted([m] + rest, names)
  {
    var q := [m] + rest;
    forall i, j | 0 <= i < j < |q| ensures LexLess(q[i], q[j]) {
      if i == 0 { assert rest[j - 1] in Elements(rest); }
    }
    forall n ensures n in Elements(q) <==> n in names {
      assert n in q <==> n == m || n in rest;
      assert n in rest <==> n in Elements(rest);
    }
  }

  /** There is only one ascending listing of a set, so `IsSorted` pins the order completely. */
  lemma {:induction false} SortedIsUnique(p: seq<string>, q: seq<string>, names: set<string>)
    requires IsSorted(p, names) && IsSorted(q, names)
    ensures p == q
    decreases |p|
  {
    if p == [] {
      assert forall k | 0 <= k < |q| :: q[k] in Elements(q);
    } else {
      assert p[0] in Elements(p);
      assert p[0] in q;
      assert q[0] in Elements(q);
      assert q[0] in p;
      LexTrichotomy(p[0], q[0]);
      assert p[0] == q[0];
      RestOfSorted(p, names);
      RestOfSorted(q, names);
      SortedIsUnique(p[1..], q[1..], names - {p[0]});
    }
  }

  lemma RestOfSorted(p: seq<string>, names: set<string>)
    requires IsSorted(p, names) && p != []
    ensures IsSorted(p[1..], names - {p[0]})
  {
    forall i | 1 <= i < |p| ensures p[i] != p[0] {
      LexTrichotomy(p[0], p[i]);
    }
    forall n ensures n in Elements(p[1..]) <==> n in names - {p[0]} {
      assert p == [p[0]] + p[1..];
      assert n in p <==> n in Elements(p);
    }
  }

  // ---------------------------------------------------------------- liveness of a ticket

  /**
   * Whether `_queue` unlinks the file. `procs` maps live process numbers to kernel start
   * times; `blind` are the processes whose start cannot be read now (no /proc entry, or
   * signalling them is not permitted).
   */
  predicate Dropped(name: string, procs: map<nat, nat>, blind: set<nat>) {
    match Parse(name)
    case None => true
    case Some(o) =>
      o.pid !in procs ||
      (o.start != "0" && o.pid !in blind && Digits(procs[o.pid]) != o.start)
  }

  ghost function LiveNames(dir: set<string>, procs: map<nat, nat>, blind: set<nat>): set<string> {
    set n | n in dir && !Dropped(n, procs, blind)
  }

  /** What `_queue` returns. */
  ghost function LiveQueue(dir: set<string>, procs: map<nat, nat>, blind: set<nat>): (q: seq<string>)
    ensures IsSorted(q, LiveNames(dir, procs, blind))
  {
    Sorted(LiveNames(dir, procs, blind))
  }

  /** The head of the queue is the one surviving name that sorts before all others. */
  lemma HeadOfQueue(dir: set<string>, procs: map<nat, nat>, blind: set<nat>, t: string)
    requires t in dir && !Dropped(t, procs, blind)
    ensures var q := LiveQueue(dir, procs, blind);
      && q != []
      && (q[0] == t <==> forall n | n in dir && LexLess(n, t) :: Dropped(n, procs, blind))
  {
    var q := LiveQueue(dir, procs, blind);
    assert t in Elements(q);
    var k :| 0 <= k < |q| && q[k] == t;
    if q[0] == t {
      forall n | n in dir && LexLess(n, t) ensures Dropped(n, procs, blind) {
        if !Dropped(n, procs, blind) {
          assert n in Elements(q);
          var i :| 0 <= i < |q| && q[i] == n;
          LexTrichotomy(n, t);
        }
      }
    } else {
      assert LexLess(q[0], t);
      assert q[0] in Elements(q);
    }
  }
}
