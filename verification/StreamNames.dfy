/** bridge/gen_go2rtc.py: stable stream names and the collision loop that finds them. */
module StreamNames {
  import opened Wrappers
  import opened Text

  // ---------------------------------------------------------------- slug

  predicate Plain(c: char) {
    'a' <= c <= 'z' || '0' <= c <= '9'
  }

  predicate NameChar(c: char) {
    Plain(c) || c == '_'
  }

  /** `re.sub(r"[^a-z0-9]+", "_", s)`; `inRun` is whether the previous character was replaced. */
  function Squash(s: string, inRun: bool): (r: string)
    ensures forall c | c in r :: NameChar(c)
  {
    if s == "" then ""
    else if Plain(s[0]) then [s[0]] + Squash(s[1..], false)
    else if inRun then Squash(s[1..], true)
    else "_" + Squash(s[1..], true)
  }

  function StripLeft(s: string): (r: string)
    ensures |r| <= |s| && r == s[|s| - |r|..]
    ensures r != "" ==> r[0] != '_'
  {
    if s != "" && s[0] == '_' then StripLeft(s[1..]) else s
  }

  function StripRight(s: string): (r: string)
    ensures |r| <= |s| && r == s[..|r|]
    ensures r != "" ==> r[|r| - 1] != '_'
  {
    if s != "" && s[|s| - 1] == '_' then StripRight(s[..|s| - 1]) else s
  }

  /** `slug`. `lower` stands for `str.lower`. */
  function Slug(lower: string -> string, name: Option<string>, channel: nat): (r: string)
    ensures StreamName(r)
  {
    var text := if name.Some? && name.value != "" then name.value else "ch" + Digits(channel);
    var value := StripRight(StripLeft(Squash(lower(text), false)));
    DigitsAreNameChars(channel);
    "eufy_" + (if value != "" then value else "ch" + Digits(channel))
  }

  /** The pattern every stream name must match in full: `eufy_[a-z0-9_]+`. */
  predicate StreamName(s: string) {
    |s| > 5 && s[..5] == "eufy_" && forall c | c in s[5..] :: NameChar(c)
  }

  lemma DigitsAreNameChars(n: nat)
    ensures forall c | c in Digits(n) :: NameChar(c)
  {
  }

  lemma AppendKeepsName(s: string, t: string)
    requires StreamName(s) && forall c | c in t :: NameChar(c)
    ensures StreamName(s + t)
  {
    assert (s + t)[..5] == s[..5] && (s + t)[5..] == s[5..] + t;
  }

  // ---------------------------------------------------------------- the collision loop

  /** The names the loop tries, in order. */
  function Candidate(base: string, channel: nat, k: nat): string {
    if k == 0 then base
    else if k == 1 then base + ("_ch" + Digits(channel))
    else base + ("_ch" + Digits(channel)) + ("_" + Digits(k))
  }

  lemma CandidateIsName(base: string, channel: nat, k: nat)
    requires StreamName(base)
    ensures StreamName(Candidate(base, channel, k))
  {
    DigitsAreNameChars(channel);
    DigitsAreNameChars(k);
    AppendKeepsName(base, "_ch" + Digits(channel));
    AppendKeepsName(base + ("_ch" + Digits(channel)), "_" + Digits(k));
  }

  /** The counter makes the candidates pairwise different. */
  lemma CandidatesDiffer(base: string, channel: nat, i: nat, j: nat)
    requires i < j
    ensures Candidate(base, channel, i) != Candidate(base, channel, j)
  {
    if i >= 2 {
      var p := base + ("_ch" + Digits(channel));
      assert Candidate(base, channel, i)[|p|..] == "_" + Digits(i);
      assert Candidate(base, channel, j)[|p|..] == "_" + Digits(j);
      if Candidate(base, channel, i) == Candidate(base, channel, j) {
        assert ("_" + Digits(i))[1..] == Digits(i) && ("_" + Digits(j))[1..] == Digits(j);
        DigitsInjective(i, j);
      }
    }
  }

  ghost function Tried(base: string, channel: nat, k: nat): set<string> {
    set i: nat | i < k :: Candidate(base, channel, i)
  }

  lemma TriedGrows(base: string, channel: nat, k: nat)
    ensures Tried(base, channel, k + 1) == Tried(base, channel, k) + {Candidate(base, channel, k)}
    ensures Candidate(base, channel, k) !in Tried(base, channel, k)
  {
    var c := Candidate(base, channel, k);
    if c in Tried(base, channel, k) {
      var i: nat :| i < k && c == Candidate(base, channel, i);
      CandidatesDiffer(base, channel, i, k);
    }
  }

  lemma {:induction false} TriedSize(base: string, channel: nat, k: nat)
    ensures |Tried(base, channel, k)| == k
  {
    if k > 0 {
      TriedSize(base, channel, k - 1);
      TriedGrows(base, channel, k - 1);
    }
  }

  /** Pigeonhole: taken candidates cannot outnumber the taken names. */
  lemma CollisionsBounded(base: string, channel: nat, used: set<string>, k: nat)
    requires forall i: nat | i < k :: Candidate(base, channel, i) in used
    ensures k <= |used|
  {
    TriedSize(base, channel, k);
    SubsetSize(Tried(base, channel, k), used);
  }

  /** The least index whose candidate is free. */
  ghost predicate IsFresh(base: string, channel: nat, used: set<string>, k: nat) {
    Candidate(base, channel, k) !in used && forall i: nat | i < k :: Candidate(base, channel, i) in used
  }

  lemma FreshUnique(base: string, channel: nat, used: set<string>, i: nat, j: nat)
    requires IsFresh(base, channel, used, i) && IsFresh(base, channel, used, j)
    ensures i == j
  {
  }

  function FreshFrom(base: string, channel: nat, used: set<string>, k: nat): (r: nat)
    requires forall i: nat | i < k :: Candidate(base, channel, i) in used
    ensures IsFresh(base, channel, used, r) && r <= |used|
    decreases |used| + 1 - k
  {
    CollisionsBounded(base, channel, used, k);
    if Candidate(base, channel, k) in used then
      assert k + 1 <= |used| by { CollisionsBounded(base, channel, used, k + 1); }
      FreshFrom(base, channel, used, k + 1)
    else k
  }

  function FreshName(base: string, channel: nat, used: set<string>): (r: string)
    ensures r !in used
  {
    Candidate(base, channel, FreshFrom(base, channel, used, 0))
  }

  /** The collision loop of `assign_names`; `rounds` counts its iterations. */
  method PickName(base: string, channel: nat, used: set<string>) returns (candidate: string, ghost rounds: nat)
    requires StreamName(base)
    ensures candidate == FreshName(base, channel, used)
    ensures candidate !in used && StreamName(candidate)
    ensures rounds <= |used|
  {
    ghost var k := 0;
    candidate := base;
    if candidate in used {
      candidate := base + ("_ch" + Digits(channel));
      k := 1;
    }
    var counter: nat := 2;
    rounds := 0;
    while candidate in used
      invariant counter >= 2 && rounds == counter - 2
      invariant k == if counter > 2 then counter - 1 else if candidate == base && base !in used then 0 else 1
      invariant candidate == Candidate(base, channel, k)
      invariant forall i: nat | i < k :: Candidate(base, channel, i) in used
      decreases |used| - k
    {
      CollisionsBounded(base, channel, used, k + 1);
      candidate := base + ("_ch" + Digits(channel)) + ("_" + Digits(counter));
      k := counter;
      counter := counter + 1;
      rounds := rounds + 1;
    }
    CollisionsBounded(base, channel, used, k);
    CandidateIsName(base, channel, k);
    FreshUnique(base, channel, used, k, FreshFrom(base, channel, used, 0));
  }
}
