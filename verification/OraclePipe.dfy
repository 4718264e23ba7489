/**
 * The pipe from the engine to the framing oracle: newline-framed JSON written by
 * bridge/eufy_stream.py (`Oracle._write`), cut into lines by bridge/sctp_oracle.js (`serve`).
 */
module OraclePipe {
  import opened Wrappers

  // ---------------------------------------------------------------- lines

  function NewlineFrom(text: string, i: nat): (n: nat)
    requires i <= |text|
    ensures i <= n <= |text|
    decreases |text| - i
  {
    if i == |text| || text[i] == '\n' then i else NewlineFrom(text, i + 1)
  }

  /** `text.indexOf("\n")`, or the length when there is none. */
  function LineEnd(text: string): (n: nat)
    ensures n <= |text|
  {
    NewlineFrom(text, 0)
  }

  lemma {:induction false} NewlineStops(text: string, i: nat)
    requires i <= |text|
    ensures var n := NewlineFrom(text, i);
      (forall k | i <= k < n :: text[k] != '\n') && (n < |text| ==> text[n] == '\n')
    decreases |text| - i
  {
    if i < |text| && text[i] != '\n' { NewlineStops(text, i + 1); }
  }

  /** The complete lines of a text. */
  function CompleteLines(text: string): seq<string>
    decreases |text|
  {
    if LineEnd(text) == |text| then [] else [text[..LineEnd(text)]] + CompleteLines(text[LineEnd(text) + 1..])
  }

  /** What follows the last newline. */
  function Rest(text: string): string
    decreases |text|
  {
    if LineEnd(text) == |text| then text else Rest(text[LineEnd(text) + 1..])
  }

  lemma LineEndUnique(text: string, n: nat)
    requires n <= |text| && (forall k | 0 <= k < n :: text[k] != '\n') && (n < |text| ==> text[n] == '\n')
    ensures LineEnd(text) == n
  {
    NewlineStops(text, 0);
    var e := LineEnd(text);
    assert !(e < n) && !(n < e);
  }

  /** A text that starts with a complete line. */
  lemma FirstLine(a: string, b: string)
    requires LineEnd(a) < |a|
    ensures var n := LineEnd(a);
      && CompleteLines(a + b) == [a[..n]] + CompleteLines(a[n + 1..] + b)
      && Rest(a + b) == Rest(a[n + 1..] + b)
  {
    var n, all := LineEnd(a), a + b;
    NewlineStops(a, 0);
    assert all[..n] == a[..n];
    assert all[n] == a[n];
    LineEndUnique(all, n);
    assert all[n + 1..] == a[n + 1..] + b;
  }

  /** Reading on after the last newline gives the same lines as reading everything at once. */
  lemma {:induction false} LinesConcat(a: string, b: string)
    ensures CompleteLines(a + b) == CompleteLines(a) + CompleteLines(Rest(a) + b)
    decreases |a|
  {
    var n := LineEnd(a);
    if n < |a| {
      FirstLine(a, b);
      LinesConcat(a[n + 1..], b);
      OneMoreLine(a[..n], CompleteLines(a[n + 1..]), CompleteLines(Rest(a[n + 1..]) + b));
    }
  }

  lemma OneMoreLine(line: string, some: seq<string>, more: seq<string>)
    ensures [line] + (some + more) == ([line] + some) + more
  {
  }

  lemma {:induction false} RestConcat(a: string, b: string)
    ensures Rest(a + b) == Rest(Rest(a) + b)
    decreases |a|
  {
    var n := LineEnd(a);
    if n < |a| {
      FirstLine(a, b);
      RestConcat(a[n + 1..], b);
    }
  }

  lemma LineThenText(line: string, text: string)
    requires '\n' !in line
    ensures CompleteLines(line + "\n" + text) == [line] + CompleteLines(text)
    ensures Rest(line + "\n" + text) == Rest(text)
  {
    var all := line + "\n" + text;
    assert all[..|line|] == line && all[|line| + 1..] == text;
    LineEndUnique(all, |line|);
  }

  // ---------------------------------------------------------------- operations

  /** The objects `push_send` and `push_recv` write. */
  datatype Op = Send(link: nat, b64: string) | Recv(b64: string)

  /** What the reader does with a message: a frame for a channel, or a packet. */
  datatype Effect = Frame(channel: nat, b64: string) | Packet(b64: string)

  /** `link2channel`. */
  function Channel(link: nat): nat {
    match link
    case 1 => 0
    case 2 => 3
    case 3 => 2
    case 4 => 4
    case 5 => 5
    case 6 => 5
    case _ => 6
  }

  /** `channel2link`. */
  function Link(channel: nat): nat {
    match channel
    case 0 => 1
    case 1 => 5
    case 2 => 3
    case 3 => 2
    case 4 => 4
    case 5 => 5
    case 6 => 99
    case _ => 0
  }

  /** Exactly the receivable links survive the two tables; SendLive comes back as Live. */
  lemma LinkTables(link: nat)
    ensures Link(Channel(link)) == link <==> link in {1, 2, 3, 4, 5, 99}
    ensures Channel(Link(link)) == link <==> link in {0, 2, 3, 4, 5, 6}
  {
  }

  /** `msg.link || LINK.Cmd`: a zero link counts as missing. */
  function Dispatch(op: Op): Effect {
    match op
    case Send(link, b64) => Frame(Channel(if link == 0 then 1 else link), b64)
    case Recv(b64) => Packet(b64)
  }

  /** JSON as both sides use it: one line per object, and reading gives back what was written. */
  datatype Json = Json(text: Op -> string, parse: string -> Option<Op>)

  ghost predicate RoundTrips(j: Json) {
    forall op :: '\n' !in j.text(op) && !Blank(j.text(op)) && j.parse(j.text(op)) == Some(op)
  }

  /** `!line.trim()`. */
  predicate Blank(line: string) {
    forall c | c in line :: c == ' ' || c == '\t' || c == '\r'
  }

  /** What one line makes the reader do: blank and unreadable lines are skipped. */
  function Effects(lines: seq<string>, j: Json): seq<Effect>
    decreases |lines|
  {
    if lines == [] then []
    else (if Blank(lines[0]) || j.parse(lines[0]).None? then [] else [Dispatch(j.parse(lines[0]).value)]) + Effects(lines[1..], j)
  }

  lemma {:induction false} EffectsConcat(a: seq<string>, b: seq<string>, j: Json)
    ensures Effects(a + b, j) == Effects(a, j) + Effects(b, j)
    decreases |a|
  {
    if a == [] {
      assert a + b == b;
    } else {
      assert (a + b)[1..] == a[1..] + b;
      EffectsConcat(a[1..], b, j);
    }
  }

  /** A blank line, or one that cannot be read, makes no difference anywhere in the stream. */
  lemma JunkIsSkipped(a: seq<string>, junk: string, b: seq<string>, j: Json)
    requires j.parse(junk) == None || forall c | c in junk :: c in " \t\r"
    ensures Effects(a + [junk] + b, j) == Effects(a + b, j)
  {
    EffectsConcat(a + [junk], b, j);
    EffectsConcat(a, [junk], j);
    EffectsConcat(a, b, j);
    EffectsOne(junk, j);
    assert Effects(a, j) + [] == Effects(a, j);
  }

  // ---------------------------------------------------------------- the two ends

  /** The engine's end; `open` is false while there is no oracle process. */
  class Writer {
    const json: Json
    var open: bool
    var written: string
    ghost var ops: seq<Op>

    ghost predicate Valid()
      reads this
    {
      written == Written(ops, json)
    }

    constructor (json: Json)
      ensures Valid() && this.json == json && ops == [] && !open && written == ""
    {
      this.json, open, written, ops := json, false, "", [];
    }

    /** The oracle process has been started. */
    method Start()
      requires Valid()
      modifies this`open
      ensures Valid() && open
    {
      open := true;
    }

    method Write(op: Op)
      requires Valid()
      modifies this`written, this`ops
      ensures Valid() && ops == if open then old(ops) + [op] else old(ops)
      ensures written == if open then old(written) + json.text(op) + "\n" else old(written)
    {
      if open {
        WrittenSnoc(ops, op, json);
        written := written + (json.text(op) + "\n");
        ops := ops + [op];
      }
    }
  }

  function Written(ops: seq<Op>, j: Json): string
    decreases |ops|
  {
    if ops == [] then "" else j.text(ops[0]) + "\n" + Written(ops[1..], j)
  }

  lemma {:induction false} WrittenSnoc(ops: seq<Op>, op: Op, j: Json)
    ensures Written(ops + [op], j) == Written(ops, j) + (j.text(op) + "\n")
    decreases |ops|
  {
    if ops == [] {
      assert ([] + [op])[1..] == [];
      assert Written([op], j) == j.text(op) + "\n" + Written([op][1..], j);
    } else {
      assert (ops + [op])[1..] == ops[1..] + [op];
      WrittenSnoc(ops[1..], op, j);
      assert j.text(ops[0]) + "\n" + (Written(ops[1..], j) + (j.text(op) + "\n")) ==
        (j.text(ops[0]) + "\n" + Written(ops[1..], j)) + (j.text(op) + "\n");
    }
  }

  /** The oracle's end: the text not yet cut, and what has been done so far. */
  class Reader {
    const json: Json
    var input: string
    var done: seq<Effect>

    constructor (json: Json)
      ensures this.json == json && input == "" && done == []
    {
      this.json, input, done := json, "", [];
    }

    /** The handler of one chunk. */
    method OnData(chunk: string)
      modifies this
      ensures input == Rest(old(input) + chunk)
      ensures done == old(done) + Effects(CompleteLines(old(input) + chunk), json)
    {
      input := input + chunk;
      ghost var rest := Rest(input);
      ghost var total := Total(done, input, json);
      var nl := LineEnd(input);
      while nl < |input|
        invariant nl == LineEnd(input)
        invariant Rest(input) == rest && Total(done, input, json) == total
        decreases |input|
      {
        NextLine(done, input, json);
        var line := input[..nl];
        input := input[nl + 1..];
        nl := LineEnd(input);
        OnLine(line);
      }
      NoLineLeft(done, input, json);
    }

    /** One line: skipped when blank or unreadable, else dispatched. */
    method OnLine(line: string)
      modifies this`done
      ensures done == old(done) + Effects([line], json)
    {
      EffectsOne(line, json);
      if !Blank(line) {
        var msg := json.parse(line);
        if msg.Some? {
          done := done + [Dispatch(msg.value)];
        }
      }
    }
  }

  /** What will have been done once the complete lines of the text are dealt with. */
  function Total(done: seq<Effect>, text: string, j: Json): seq<Effect> {
    done + Effects(CompleteLines(text), j)
  }

  lemma NoLineLeft(done: seq<Effect>, text: string, j: Json)
    requires LineEnd(text) == |text|
    ensures Total(done, text, j) == done && Rest(text) == text
  {
  }

  /** Dealing with the first line of a text and then with the rest of it. */
  lemma NextLine(done: seq<Effect>, text: string, j: Json)
    requires LineEnd(text) < |text|
    ensures var nl := LineEnd(text);
      var line, later := text[..nl], text[nl + 1..];
      Rest(text) == Rest(later) && Total(done, text, j) == Total(done + Effects([line], j), later, j)
  {
    var nl := LineEnd(text);
    FirstLineOff(text);
    RestGoesOn(text);
    LineThenLines(done, text[..nl], CompleteLines(text[nl + 1..]), j);
  }

  lemma FirstLineOff(text: string)
    requires LineEnd(text) < |text|
    ensures CompleteLines(text) == [text[..LineEnd(text)]] + CompleteLines(text[LineEnd(text) + 1..])
  {
  }

  lemma RestGoesOn(text: string)
    requires LineEnd(text) < |text|
    ensures Rest(text) == Rest(text[LineEnd(text) + 1..])
  {
  }

  lemma LineThenLines(done: seq<Effect>, line: string, lines: seq<string>, j: Json)
    ensures done + Effects([line] + lines, j) == done + Effects([line], j) + Effects(lines, j)
  {
    EffectsConcat([line], lines, j);
  }

  lemma EffectsOne(line: string, j: Json)
    ensures Effects([line], j) == if Blank(line) || j.parse(line).None? then [] else [Dispatch(j.parse(line).value)]
  {
    assert [line][1..] == [];
  }

  // ---------------------------------------------------------------- conservation

  function Concat(chunks: seq<string>): string
    decreases |chunks|
  {
    if chunks == [] then "" else chunks[0] + Concat(chunks[1..])
  }

  /** The reader after a sequence of chunks, as `OnData` moves it. */
  function Fed(input: string, chunks: seq<string>, j: Json): (string, seq<Effect>)
    decreases |chunks|
  {
    if chunks == [] then (input, [])
    else
      var text := input + chunks[0];
      var (rest, later) := Fed(Rest(text), chunks[1..], j);
      (rest, Effects(CompleteLines(text), j) + later)
  }

  lemma EffectsInTwo(text: string, tail: string, j: Json)
    ensures Effects(CompleteLines(text + tail), j) ==
      Effects(CompleteLines(text), j) + Effects(CompleteLines(Rest(text) + tail), j)
    ensures Rest(text + tail) == Rest(Rest(text) + tail)
  {
    LinesConcat(text, tail);
    RestConcat(text, tail);
    EffectsConcat(CompleteLines(text), CompleteLines(Rest(text) + tail), j);
  }

  /** How the bytes are cut into chunks does not matter. */
  lemma {:induction false} ChunkingIsIrrelevant(input: string, chunks: seq<string>, j: Json)
    requires Rest(input) == input && CompleteLines(input) == []
    ensures Fed(input, chunks, j) == (Rest(input + Concat(chunks)), Effects(CompleteLines(input + Concat(chunks)), j))
    decreases |chunks|
  {
    if chunks == [] {
      assert input + "" == input;
    } else {
      var text := input + chunks[0];
      var tail := Concat(chunks[1..]);
      RestHasNoLine(text);
      ChunkingIsIrrelevant(Rest(text), chunks[1..], j);
      EffectsInTwo(text, tail, j);
      var (rest, later) := Fed(Rest(text), chunks[1..], j);
      assert Fed(input, chunks, j) == (rest, Effects(CompleteLines(text), j) + later);
      assert input + Concat(chunks) == text + tail;
    }
  }

  lemma {:induction false} RestHasNoLine(text: string)
    ensures CompleteLines(Rest(text)) == [] && Rest(Rest(text)) == Rest(text)
    decreases |text|
  {
    var n := LineEnd(text);
    if n < |text| { RestHasNoLine(text[n + 1..]); }
  }

  function Dispatched(ops: seq<Op>): seq<Effect> {
    seq(|ops|, i requires 0 <= i < |ops| => Dispatch(ops[i]))
  }

  lemma OneOp(op: Op, j: Json)
    requires RoundTrips(j)
    ensures '\n' !in j.text(op) && Effects([j.text(op)], j) == [Dispatch(op)]
  {
    EffectsOne(j.text(op), j);
  }

  lemma {:induction false} WrittenLines(ops: seq<Op>, j: Json)
    requires RoundTrips(j)
    ensures Effects(CompleteLines(Written(ops, j)), j) == Dispatched(ops) && Rest(Written(ops, j)) == ""
    decreases |ops|
  {
    if ops != [] {
      var line, later := j.text(ops[0]), Written(ops[1..], j);
      WrittenLines(ops[1..], j);
      OneOp(ops[0], j);
      LineThenText(line, later);
      EffectsConcat([line], CompleteLines(later), j);
      assert Dispatched(ops) == [Dispatch(ops[0])] + Dispatched(ops[1..]);
    }
  }

  /**
   * The operations dispatched are those written, in order and once each, however the stream is
   * cut into chunks; nothing is left over.
   */
  lemma PipeConserves(ops: seq<Op>, chunks: seq<string>, j: Json)
    requires RoundTrips(j) && Concat(chunks) == Written(ops, j)
    ensures Fed("", chunks, j) == ("", Dispatched(ops))
  {
    ChunkingIsIrrelevant("", chunks, j);
    WrittenLines(ops, j);
    assert "" + Concat(chunks) == Concat(chunks);
  }

  /** The stream's `data` events, one after the other. */
  method FeedAll(r: Reader, chunks: seq<string>)
    modifies r
    ensures (r.input, r.done) == FedAfter(old(r.done), old(r.input), chunks, r.json)
  {
    ghost var total := FedAfter(r.done, r.input, chunks, r.json);
    assert chunks[0..] == chunks;
    for i := 0 to |chunks|
      invariant FedAfter(r.done, r.input, chunks[i..], r.json) == total
    {
      FedHead(r.done, r.input, chunks[i..], r.json);
      assert chunks[i..][1..] == chunks[i + 1..];
      r.OnData(chunks[i]);
    }
    FedNothing(r.done, r.input, r.json);
  }

  /** The reader's text and effects after more chunks, on top of those before. */
  function FedAfter(done: seq<Effect>, input: string, chunks: seq<string>, j: Json): (string, seq<Effect>) {
    var (rest, later) := Fed(input, chunks, j);
    (rest, done + later)
  }

  lemma FedNothing(done: seq<Effect>, input: string, j: Json)
    ensures FedAfter(done, input, [], j) == (input, done)
  {
    assert done + [] == done;
  }

  lemma FedHead(done: seq<Effect>, input: string, chunks: seq<string>, j: Json)
    requires chunks != []
    ensures var text := input + chunks[0];
      FedAfter(done, input, chunks, j) == FedAfter(done + Effects(CompleteLines(text), j), Rest(text), chunks[1..], j)
  {
    var text := input + chunks[0];
    var (rest, later) := Fed(Rest(text), chunks[1..], j);
    assert done + (Effects(CompleteLines(text), j) + later) == done + Effects(CompleteLines(text), j) + later;
  }

  /** End to end: a reader fed what a writer wrote, in any chunks, has done just the writer's operations. */
  method Transfer(w: Writer, r: Reader, chunks: seq<string>)
    requires w.Valid() && RoundTrips(w.json) && r.json == w.json && r.input == "" && r.done == []
    requires Concat(chunks) == w.written
    modifies r
    ensures r.input == "" && r.done == Dispatched(w.ops)
  {
    PipeConserves(w.ops, chunks, w.json);
    FeedAll(r, chunks);
    assert [] + Dispatched(w.ops) == Dispatched(w.ops);
  }

  /** While more is on its way, what has been dispatched is a prefix of what was written. */
  lemma PipeNeverAhead(ops: seq<Op>, chunks: seq<string>, rest: string, j: Json)
    requires RoundTrips(j) && Concat(chunks) + rest == Written(ops, j)
    ensures var done := Fed("", chunks, j).1; |done| <= |ops| && done == Dispatched(ops)[..|done|]
  {
    ChunkingIsIrrelevant("", chunks, j);
    WrittenLines(ops, j);
    var text := Concat(chunks);
    assert "" + text == text;
    EffectsInTwo(text, rest, j);
    assert |Dispatched(ops)| == |ops|;
  }

  /** The channels the engine named. */
  function Meant(ops: seq<Op>): seq<Effect> {
    seq(|ops|, i requires 0 <= i < |ops| =>
      match ops[i]
      case Send(link, b64) => Frame(Channel(link), b64)
      case Recv(b64) => Packet(b64))
  }

  /** Through the whole pipe every frame keeps the channel its link names exactly when no link is zero. */
  lemma PipeKeepsLinks(ops: seq<Op>, chunks: seq<string>, j: Json)
    requires RoundTrips(j) && Concat(chunks) == Written(ops, j)
    ensures Fed("", chunks, j).1 == Meant(ops) <==> forall op | op in ops && op.Send? :: op.link != 0
  {
    PipeConserves(ops, chunks, j);
    if Dispatched(ops) == Meant(ops) {
      forall i | 0 <= i < |ops| && ops[i].Send? ensures ops[i].link != 0 {
        assert Dispatched(ops)[i] == Meant(ops)[i];
      }
    } else {
      var i :| 0 <= i < |ops| && Dispatched(ops)[i] != Meant(ops)[i];
      assert ops[i] in ops;
    }
  }

  /** All the engine sends are commands on link 1: each reaches the command channel. */
  lemma CommandsArrive(ops: seq<Op>, chunks: seq<string>, j: Json)
    requires RoundTrips(j) && Concat(chunks) == Written(ops, j)
    requires forall op | op in ops && op.Send? :: op.link == 1
    ensures Fed("", chunks, j).1 == Meant(ops)
    ensures forall i | 0 <= i < |ops| && ops[i].Send? :: Fed("", chunks, j).1[i] == Frame(0, ops[i].b64)
  {
    PipeKeepsLinks(ops, chunks, j);
    forall i | 0 <= i < |ops| && ops[i].Send? ensures Meant(ops)[i] == Frame(0, ops[i].b64) {
      assert ops[i] in ops;
    }
  }
}
