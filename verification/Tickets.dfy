/** Ticket file names of the session gate: how they are built, parsed back and ordered. */
module Tickets {
  import opened Wrappers
  import opened Text

  /** `time.monotonic_ns()` is a signed 64-bit count. */
  const CLOCK_LIMIT: nat := 0x8000_0000_0000_0000
  const STAMP_WIDTH: nat := 20

  /** One arrival at the gate; `start` is what /proc said about the process then. */
  datatype Ticket = Ticket(stamp: nat, pid: nat, start: string, gate: nat)

  /** What the file name says about its owner. */
  datatype Owner = Owner(pid: nat, start: string)

  /** Field 22 of /proc/PID/stat, or "0" when it could not be read. */
  predicate StartText(s: string) {
    s != "" && forall c | c in s :: IsDigit(c)
  }

  function HexDigit(d: nat): (c: char)
    requires d < 16
    ensures c != '-'
  {
    if d < 10 then Digit(d) else ['a', 'b', 'c', 'd', 'e', 'f'][d - 10]
  }

  function Hex(n: nat): (s: string)
    ensures '-' !in s
  {
    if n < 16 then [HexDigit(n)] else Hex(n / 16) + [HexDigit(n % 16)]
  }

  function Name(t: Ticket): string {
    Padded(t.stamp, STAMP_WIDTH) + ['-'] + (Digits(t.pid) + ['-'] + (t.start + ['-'] + (Hex(t.gate) + ".ticket")))
  }

  /** What `_queue` reads back: four fields, the second one a number. */
  function Parse(name: string): Option<Owner> {
    var parts := Split(name, '-', 3);
    if |parts| == 4 && StartText(parts[1]) then Some(Owner(Value(parts[1]), parts[2])) else None
  }

  lemma {:induction false} NoDashInZeros(n: nat)
    ensures '-' !in Zeros(n)
  {
    if n > 0 { NoDashInZeros(n - 1); }
  }

  lemma NoDashInStamp(n: nat)
    ensures '-' !in Padded(n, STAMP_WIDTH)
  {
    if |Digits(n)| < STAMP_WIDTH { NoDashInZeros(STAMP_WIDTH - |Digits(n)|); }
  }

  /** Every generated name parses, and to its own process. */
  lemma ParsesBack(t: Ticket)
    requires StartText(t.start)
    ensures Parse(Name(t)) == Some(Owner(t.pid, t.start))
  {
    NoDashInStamp(t.stamp);
    assert '-' !in Digits(t.pid) && '-' !in t.start;
    SplitFour(Padded(t.stamp, STAMP_WIDTH), Digits(t.pid), t.start, Hex(t.gate) + ".ticket", '-');
    ValueOfDigits(t.pid);
  }

  lemma StampFits(n: nat)
    requires n < CLOCK_LIMIT
    ensures n < Pow10(STAMP_WIDTH)
  {
    assert Pow10(4) == 10_000;
    assert Pow10(8) == 100_000_000;
    assert Pow10(12) == 1_000_000_000_000;
    assert Pow10(16) == 10_000_000_000_000_000;
    assert Pow10(20) == 100_000_000_000_000_000_000;
  }

  /** Arrival order is name order: the zero padding makes string comparison numeric. */
  lemma PaddedStampsSort(a: Ticket, b: Ticket)
    requires a.stamp < b.stamp < Pow10(STAMP_WIDTH)
    ensures LexLess(Name(a), Name(b))
  {
    PaddedIsPlaces(a.stamp, STAMP_WIDTH);
    PaddedIsPlaces(b.stamp, STAMP_WIDTH);
    PlacesOrder(a.stamp, b.stamp, STAMP_WIDTH);
    LexPrefix(Padded(a.stamp, STAMP_WIDTH), Padded(b.stamp, STAMP_WIDTH),
              Name(a)[|Padded(a.stamp, STAMP_WIDTH)|..], Name(b)[|Padded(b.stamp, STAMP_WIDTH)|..]);
    assert Name(a) == Padded(a.stamp, STAMP_WIDTH) + Name(a)[|Padded(a.stamp, STAMP_WIDTH)|..];
    assert Name(b) == Padded(b.stamp, STAMP_WIDTH) + Name(b)[|Padded(b.stamp, STAMP_WIDTH)|..];
  }

  /** ... and every value the clock can take fits. */
  lemma EarlierStampSortsFirst(a: Ticket, b: Ticket)
    requires a.stamp < b.stamp < CLOCK_LIMIT
    ensures LexLess(Name(a), Name(b))
  {
    StampFits(b.stamp);
    PaddedStampsSort(a, b);
  }

  lemma NameOrderFollowsStamps(a: Ticket, b: Ticket)
    requires a.stamp < CLOCK_LIMIT && b.stamp < CLOCK_LIMIT
    requires LexLess(Name(a), Name(b)) || Name(a) == Name(b)
    ensures a.stamp <= b.stamp
  {
    if b.stamp < a.stamp {
      EarlierStampSortsFirst(b, a);
      LexTrichotomy(Name(a), Name(b));
    }
  }

  lemma {:induction false} FirstDigits(w: nat)
    ensures Digits(Pow10(w))[0] == '1'
    ensures w > 0 ==> Digits(Pow10(w) - 1)[0] == '9' && |Digits(Pow10(w))| > w && |Digits(Pow10(w) - 1)| >= w
  {
    if w > 0 {
      FirstDigits(w - 1);
      assert Pow10(w) / 10 == Pow10(w - 1);
      if w > 1 {
        assert (Pow10(w) - 1) / 10 == Pow10(w - 1) - 1;
      }
    }
  }

  /** The width is exactly enough: one stamp further and names sort against arrival order. */
  lemma TwentyPlacesAreTheLimit(a: Ticket, b: Ticket)
    requires a.stamp == Pow10(STAMP_WIDTH) - 1 && b.stamp == Pow10(STAMP_WIDTH)
    ensures LexLess(Name(b), Name(a))
  {
    FirstDigits(STAMP_WIDTH);
    assert Name(a)[0] == Padded(a.stamp, STAMP_WIDTH)[0];
    assert Name(b)[0] == Padded(b.stamp, STAMP_WIDTH)[0];
  }
}
