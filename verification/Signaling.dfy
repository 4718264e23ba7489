/** bridge/eufy_stream.py: the signaling messages, one answer and the trickled candidates. */
module Signaling {
  import opened Wrappers

  /** Which await of the offer branch raises, if any. */
  datatype Glitch = Smooth | RemoteFails | AnswerFails | TrickleFails

  /** A signaling message, by the branch of `handle` that it takes. */
  datatype Message =
    | Broken                        // not parsed, or a send fails: the exception ends the loop
    | Other                         // join acknowledgement, call status, anything else
    | InvalidOffer
    | Offer(glitch: Glitch)
    | Candidate(text: string)

  datatype Peer = Peer(
    running: bool,                  // the loop over the socket still hands out messages
    answered: bool,
    remoteSet: bool,
    pending: seq<string>,
    attempted: seq<string>,         // candidates given to the peer connection, in order
    answers: nat,                   // answers that went out
    nvrIp: Option<string>,
    fatal: bool
  )

  const START: Peer := Peer(true, false, false, [], [], 0, None, false)

  /** The first LAN host address among the candidates. */
  function FirstHost(cands: seq<string>, host: string -> Option<string>): Option<string>
    decreases |cands|
  {
    if cands == [] then None
    else if host(cands[0]).Some? then host(cands[0])
    else FirstHost(cands[1..], host)
  }

  /** `host` is the address `add_cand` accepts from a candidate line, if there is one. */
  function Tried(p: Peer, cands: seq<string>, host: string -> Option<string>): Peer {
    p.(attempted := p.attempted + cands,
       nvrIp := if p.nvrIp.Some? then p.nvrIp else FirstHost(cands, host))
  }

  /** `handle`; once the loop has ended no message is looked at. */
  function Handled(p: Peer, m: Message, host: string -> Option<string>): Peer {
    if !p.running then p
    else match m
      case Broken => p.(running := false)
      case Other => p
      case InvalidOffer => p.(fatal := true)
      case Candidate(text) =>
        if p.answered && p.remoteSet then Tried(p, [text], host) else p.(pending := p.pending + [text])
      case Offer(glitch) =>
        if p.answered then p
        else match glitch
          case RemoteFails => p.(answered := true, running := false)
          case AnswerFails => p.(answered := true, remoteSet := true, running := false)
          case TrickleFails => p.(answered := true, remoteSet := true, answers := p.answers + 1, running := false)
          case Smooth =>
            Tried(p, p.pending, host).(answered := true, remoteSet := true, answers := p.answers + 1, pending := [])
  }

  class Connection {
    var running: bool
    var answered: bool
    var remoteSet: bool
    var pending: seq<string>
    var attempted: seq<string>
    var answers: nat
    var nvrIp: Option<string>
    var fatal: bool

    function State(): Peer
      reads this
    {
      Peer(running, answered, remoteSet, pending, attempted, answers, nvrIp, fatal)
    }

    constructor ()
      ensures State() == START
    {
      running, answered, remoteSet, fatal := true, false, false, false;
      pending, attempted, answers, nvrIp := [], [], 0, None;
    }

    /** `add_cand`: whatever the candidate, an error in it is only logged. */
    method AddCand(cand: string, host: string -> Option<string>)
      modifies this
      ensures State() == Tried(old(State()), [cand], host)
    {
      assert FirstHost([cand][1..], host) == None;
      if host(cand).Some? && nvrIp == None {
        nvrIp := host(cand);
      }
      attempted := attempted + [cand];
    }

    method Handle(m: Message, host: string -> Option<string>)
      requires running
      modifies this
      ensures State() == Handled(old(State()), m, host)
    {
      match m
      case Broken => running := false;
      case Other =>
      case InvalidOffer => fatal := true;
      case Candidate(text) =>
        if !answered || !remoteSet {
          pending := pending + [text];
        } else {
          AddCand(text, host);
        }
      case Offer(glitch) =>
        if !answered {
          answered := true;
          if glitch.RemoteFails? { running := false; return; }
          remoteSet := true;
          if glitch.AnswerFails? { running := false; return; }
          answers := answers + 1;
          if glitch.TrickleFails? { running := false; return; }
          Flush(host);
        }
    }

    /** The loop over the buffered candidates. */
    method Flush(host: string -> Option<string>)
      modifies this
      ensures State() == Tried(old(State()), old(pending), host).(pending := [])
    {
      ghost var before := State();
      for i := 0 to |pending|
        invariant pending == before.pending
        invariant State() == Tried(before, pending[..i], host)
      {
        TriedSnoc(before, pending[..i], pending[i], host);
        assert pending[..i + 1] == pending[..i] + [pending[i]];
        AddCand(pending[i], host);
      }
      assert pending[..|pending|] == pending;
      pending := [];
    }
  }

  /** The address of the first candidate that has one. */
  lemma {:induction false} FirstHostIs(cands: seq<string>, host: string -> Option<string>)
    ensures var r := FirstHost(cands, host);
      if r == None then forall i | 0 <= i < |cands| :: host(cands[i]) == None
      else exists i :: 0 <= i < |cands| && host(cands[i]) == r && forall j | 0 <= j < i :: host(cands[j]) == None
    decreases |cands|
  {
    if cands != [] && host(cands[0]) == None {
      FirstHostIs(cands[1..], host);
      if FirstHost(cands, host) == None {
        assert forall i | 0 < i < |cands| :: cands[i] == cands[1..][i - 1];
      } else {
        var i :| 0 <= i < |cands[1..]| && host(cands[1..][i]) == FirstHost(cands, host) && forall j | 0 <= j < i :: host(cands[1..][j]) == None;
        assert cands[i + 1] == cands[1..][i] && forall j | 0 < j < i + 1 :: cands[j] == cands[1..][j - 1];
      }
    }
  }

  lemma {:induction false} FirstHostConcat(a: seq<string>, b: seq<string>, host: string -> Option<string>)
    ensures FirstHost(a + b, host) == if FirstHost(a, host).Some? then FirstHost(a, host) else FirstHost(b, host)
    decreases |a|
  {
    if a == [] {
      assert a + b == b;
    } else {
      assert (a + b)[1..] == a[1..] + b;
      FirstHostConcat(a[1..], b, host);
    }
  }

  lemma TriedSnoc(p: Peer, cands: seq<string>, c: string, host: string -> Option<string>)
    ensures Tried(Tried(p, cands, host), [c], host) == Tried(p, cands + [c], host)
  {
    FirstHostConcat(cands, [c], host);
    assert p.attempted + cands + [c] == p.attempted + (cands + [c]);
  }

  // ---------------------------------------------------------------- whole conversations

  function After(p: Peer, messages: seq<Message>, host: string -> Option<string>): Peer
    decreases |messages|
  {
    if messages == [] then p else After(Handled(p, messages[0], host), messages[1..], host)
  }

  predicate Ends(m: Message, answered: bool) {
    m.Broken? || (m.Offer? && !answered && m.glitch != Smooth)
  }

  /** The messages that the loop gets to see: up to the first that ends it. */
  function Seen(messages: seq<Message>, answered: bool): seq<Message>
    decreases |messages|
  {
    if messages == [] then []
    else [messages[0]] + if Ends(messages[0], answered) then [] else Seen(messages[1..], answered || messages[0].Offer?)
  }

  predicate Uncut(messages: seq<Message>, answered: bool)
    decreases |messages|
  {
    messages == [] || (!Ends(messages[0], answered) && Uncut(messages[1..], answered || messages[0].Offer?))
  }

  lemma {:induction false} UncutIsSeen(messages: seq<Message>, answered: bool)
    requires Uncut(messages, answered)
    ensures Seen(messages, answered) == messages
    ensures !answered && FirstOffer(messages).Some? ==> FirstOffer(messages) == Some(Smooth)
    decreases |messages|
  {
    if messages != [] { UncutIsSeen(messages[1..], answered || messages[0].Offer?); }
  }

  function Candidates(messages: seq<Message>): seq<string>
    decreases |messages|
  {
    if messages == [] then []
    else (if messages[0].Candidate? then [messages[0].text] else []) + Candidates(messages[1..])
  }

  /** The first usable offer. */
  function FirstOffer(messages: seq<Message>): Option<Glitch>
    decreases |messages|
  {
    if messages == [] then None
    else if messages[0].Offer? then Some(messages[0].glitch)
    else FirstOffer(messages[1..])
  }

  /** What holds between messages. */
  ghost predicate Ordered(p: Peer, host: string -> Option<string>) {
    && (p.running ==> p.answered == p.remoteSet)
    && (p.running && p.answered ==> p.pending == [])
    && (!p.answered ==> p.attempted == [])
    && p.answers <= 1
    && (p.answers == 1 ==> p.answered)
    && p.nvrIp == FirstHost(p.attempted, host)
  }

  lemma HandledKeepsOrder(p: Peer, m: Message, host: string -> Option<string>)
    requires Ordered(p, host) && (p.answered || p.answers == 0) && p.running
    ensures var q := Handled(p, m, host);
      Ordered(q, host) && (q.answered || q.answers == 0)
  {
    if m.Candidate? { FirstHostConcat(p.attempted, [m.text], host); }
    if m.Offer? { FirstHostConcat(p.attempted, p.pending, host); }
  }

  lemma SeenHead(messages: seq<Message>, answered: bool)
    requires messages != []
    ensures var m, seen := messages[0], Seen(messages, answered);
      var rest := if Ends(m, answered) then [] else Seen(messages[1..], answered || m.Offer?);
      && seen == [m] + rest
      && Candidates(seen) == (if m.Candidate? then [m.text] else []) + Candidates(rest)
      && FirstOffer(seen) == (if m.Offer? then Some(m.glitch) else FirstOffer(rest))
  {
    var rest := if Ends(messages[0], answered) then [] else Seen(messages[1..], answered || messages[0].Offer?);
    assert ([messages[0]] + rest)[1..] == rest;
  }

  lemma {:induction false} OrderKept(p: Peer, messages: seq<Message>, host: string -> Option<string>)
    requires Ordered(p, host) && p.running && (p.answered || p.answers == 0)
    ensures Ordered(After(p, messages, host), host)
    decreases |messages|
  {
    if messages != [] {
      var q := Handled(p, messages[0], host);
      HandledKeepsOrder(p, messages[0], host);
      if q.running {
        OrderKept(q, messages[1..], host);
      } else {
        EndedStays(q, messages[1..], host);
      }
    }
  }

  /** Every candidate received so far, attempted or not. */
  function Received(p: Peer): seq<string> {
    p.attempted + p.pending
  }

  lemma HandledReceives(p: Peer, m: Message, host: string -> Option<string>)
    requires p.running && (p.answered ==> p.pending == [] && p.remoteSet)
    ensures var q := Handled(p, m, host);
      && Received(q) == Received(p) + (if m.Candidate? then [m.text] else [])
      && (q.running <==> !Ends(m, p.answered))
      && (q.running ==> q.answered == (p.answered || m.Offer?) && (q.answered ==> q.pending == [] && q.remoteSet))
  {
  }

  lemma {:induction false} AllReceived(p: Peer, messages: seq<Message>, host: string -> Option<string>)
    requires p.running && (p.answered ==> p.pending == [] && p.remoteSet)
    ensures Received(After(p, messages, host)) == Received(p) + Candidates(Seen(messages, p.answered))
    decreases |messages|
  {
    if messages != [] {
      var q := Handled(p, messages[0], host);
      HandledReceives(p, messages[0], host);
      SeenHead(messages, p.answered);
      if q.running {
        AllReceived(q, messages[1..], host);
      } else {
        EndedStays(q, messages[1..], host);
      }
    }
  }

  lemma {:induction false} AnswerCounted(p: Peer, messages: seq<Message>, host: string -> Option<string>)
    requires p.running && p.answers == (if p.answered then 1 else 0)
    ensures var e, first := After(p, messages, host), FirstOffer(Seen(messages, p.answered));
      && e.answers == (if p.answered || first == Some(Smooth) || first == Some(TrickleFails) then 1 else 0)
      && (e.answered <==> p.answered || first.Some?)
      && (e.running <==> Uncut(messages, p.answered))
    decreases |messages|
  {
    if messages != [] {
      var m := messages[0];
      var q := Handled(p, m, host);
      SeenHead(messages, p.answered);
      if q.running {
        AnswerCounted(q, messages[1..], host);
      } else {
        EndedStays(q, messages[1..], host);
      }
    }
  }

  lemma {:induction false} EndedStays(p: Peer, messages: seq<Message>, host: string -> Option<string>)
    requires !p.running
    ensures After(p, messages, host) == p
    decreases |messages|
  {
    if messages != [] { EndedStays(p, messages[1..], host); }
  }

  /**
   * Whatever arrives, no candidate is lost, doubled or reordered: those attempted followed by
   * those pending are those received, even when an exception cuts the offer branch short.
   */
  lemma CandidatesConserved(messages: seq<Message>, host: string -> Option<string>)
    ensures var e := After(START, messages, host);
      && e.attempted + e.pending == Candidates(Seen(messages, false))
      && (e.running && e.answered ==> e.pending == [])
      && (!e.answered ==> e.attempted == [])
  {
    OrderKept(START, messages, host);
    AllReceived(START, messages, host);
  }

  /** However many offers arrive, one answer goes out: to the first, unless its handling failed before. */
  lemma OneAnswer(messages: seq<Message>, host: string -> Option<string>)
    ensures var e, first := After(START, messages, host), FirstOffer(Seen(messages, false));
      && e.answers == (if first == Some(Smooth) || first == Some(TrickleFails) then 1 else 0)
      && (e.running && first.Some? ==> e.answers == 1)
  {
    AnswerCounted(START, messages, host);
    if Uncut(messages, false) { UncutIsSeen(messages, false); }
  }

  /** The engine fails for good exactly when an offer that it looks at is unusable. */
  lemma {:induction false} FatalIff(p: Peer, messages: seq<Message>, host: string -> Option<string>)
    requires p.running
    ensures After(p, messages, host).fatal <==> p.fatal || InvalidOffer in Seen(messages, p.answered)
    decreases |messages|
  {
    if messages != [] {
      var q := Handled(p, messages[0], host);
      SeenHead(messages, p.answered);
      if q.running {
        FatalIff(q, messages[1..], host);
      } else {
        EndedStays(q, messages[1..], host);
      }
    }
  }

  /** Buffering does not change which host address is kept: it is the first one received. */
  lemma NvrAddress(messages: seq<Message>, host: string -> Option<string>)
    ensures var e := After(START, messages, host);
      e.running && e.answered ==> e.nvrIp == FirstHost(Candidates(messages), host)
  {
    OrderKept(START, messages, host);
    AllReceived(START, messages, host);
    AnswerCounted(START, messages, host);
    var e := After(START, messages, host);
    if e.running && e.answered {
      UncutIsSeen(messages, false);
      assert e.attempted + e.pending == e.attempted;
      assert START.attempted + START.pending + Candidates(messages) == Candidates(messages);
    }
  }
}
