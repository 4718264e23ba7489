/** What `slug` keeps of a camera's name: its words, joined by single underscores. */
module SlugWords {
  import opened Wrappers
  import opened Text
  import opened StreamNames

  /** The maximal runs of plain characters, in order. */
  function Words(s: string): seq<string>
    ensures forall i | 0 <= i < |Words(s)| :: Words(s)[i] != ""
  {
    if s == "" then []
    else if !Plain(s[0]) then Words(s[1..])
    else if s[1..] == "" || !Plain(s[1]) then [[s[0]]] + Words(s[1..])
    else
      var rest := Words(s[1..]);
      if rest == [] then [[s[0]]] else [[s[0]] + rest[0]] + rest[1..]
  }

  function Join(words: seq<string>): string {
    if words == [] then ""
    else if |words| == 1 then words[0]
    else words[0] + "_" + Join(words[1..])
  }

  lemma {:induction false} PlainStartsWord(s: string)
    requires s != "" && Plain(s[0])
    ensures Words(s) != []
  {
  }

  /** What follows a plain character in the joined form. */
  function Tail(s: string): string {
    if s == "" then ""
    else if Plain(s[0]) then Join(Words(s))
    else if Words(s) == [] then ""
    else "_" + Join(Words(s))
  }

  lemma JoinPlain(s: string)
    requires s != "" && Plain(s[0])
    ensures Join(Words(s)) == [s[0]] + Tail(s[1..])
  {
    var rest := Words(s[1..]);
    if s[1..] != "" && Plain(s[1]) {
      PlainStartsWord(s[1..]);
      JoinLonger(s[0], rest);
    } else {
      JoinNew(s[0], rest);
    }
  }

  lemma JoinLonger(c: char, words: seq<string>)
    requires words != []
    ensures Join([[c] + words[0]] + words[1..]) == [c] + Join(words)
  {
    var longer := [[c] + words[0]] + words[1..];
    assert longer[0] == [c] + words[0] && longer[1..] == words[1..];
    if |words| > 1 {
      assert ([c] + words[0]) + "_" + Join(words[1..]) == [c] + (words[0] + "_" + Join(words[1..]));
    }
  }

  lemma JoinNew(c: char, words: seq<string>)
    ensures Join([[c]] + words) == [c] + if words == [] then "" else "_" + Join(words)
  {
    assert ([[c]] + words)[1..] == words;
    if words != [] {
      assert [c] + "_" + Join(words) == [c] + ("_" + Join(words));
    }
  }

  // ---------------------------------------------------------------- stripping

  lemma {:induction false} SquashNeverLeads(s: string)
    ensures Squash(s, true) != "" ==> Squash(s, true)[0] != '_'
    decreases |s|
  {
    if s != "" && !Plain(s[0]) { SquashNeverLeads(s[1..]); }
  }

  lemma StripLeftKeeps(s: string)
    requires s != "" ==> s[0] != '_'
    ensures StripLeft(s) == s
  {
  }

  /** Stripping the left end is starting inside a run of separators. */
  lemma StripLeftSquash(s: string)
    ensures StripLeft(Squash(s, false)) == Squash(s, true)
  {
    if s == "" || Plain(s[0]) {
      StripLeftKeeps(Squash(s, false));
    } else {
      SquashNeverLeads(s[1..]);
      var rest := Squash(s[1..], true);
      assert ("_" + rest)[1..] == rest;
      StripLeftKeeps(rest);
    }
  }

  lemma {:induction false} StripRightAfter(x: string, y: string)
    requires x != "" && x[|x| - 1] != '_'
    ensures StripRight(x + y) == x + StripRight(y)
    decreases |y|
  {
    if y == "" {
      assert x + y == x;
    } else if y[|y| - 1] == '_' {
      var z := y[..|y| - 1];
      assert (x + y)[..|x + y| - 1] == x + z && (x + y)[|x + y| - 1] == '_';
      StripRightAfter(x, z);
    }
  }

  lemma StripRightUnderscore(y: string)
    requires y != "" ==> y[0] != '_'
    ensures StripRight("_" + y) == if StripRight(y) == "" then "" else "_" + StripRight(y)
    ensures StripRight(y) == "" ==> y == ""
  {
    if y != "" {
      StripRightFirst(y);
      var all := "_" + y;
      StripRightLonger("_", y);
    } else {
      assert "_" + y == "_" && "_"[..0] == "";
    }
  }

  lemma {:induction false} StripRightFirst(y: string)
    requires y != "" && y[0] != '_'
    ensures StripRight(y) != ""
    decreases |y|
  {
    if y[|y| - 1] == '_' { StripRightFirst(y[..|y| - 1]); }
  }

  lemma {:induction false} StripRightLonger(x: string, y: string)
    requires StripRight(y) != ""
    ensures StripRight(x + y) == x + StripRight(y)
    decreases |y|
  {
    if y[|y| - 1] == '_' {
      var z := y[..|y| - 1];
      assert (x + y)[..|x + y| - 1] == x + z && (x + y)[|x + y| - 1] == '_';
      StripRightLonger(x, z);
    }
  }

  // ---------------------------------------------------------------- the slug

  lemma {:induction false} SquashIsJoin(s: string)
    ensures StripRight(Squash(s, true)) == Join(Words(s))
    ensures StripRight(Squash(s, false)) == Tail(s)
    decreases |s|
  {
    if s != "" {
      SquashIsJoin(s[1..]);
      if Plain(s[0]) {
        StripRightAfter([s[0]], Squash(s[1..], false));
        JoinPlain(s);
      } else {
        SquashNeverLeads(s[1..]);
        StripRightUnderscore(Squash(s[1..], true));
        JoinEmpty(Words(s[1..]));
      }
    }
  }

  lemma JoinEmpty(words: seq<string>)
    requires forall i | 0 <= i < |words| :: words[i] != ""
    ensures Join(words) == "" <==> words == []
  {
    if words != [] { assert words[0] != ""; }
  }

  /** The text a slug is made from: the name, or the channel when there is none. */
  function Source(name: Option<string>, channel: nat): string {
    if name.Some? && name.value != "" then name.value else "ch" + Digits(channel)
  }

  /**
   * The slug of a name is `eufy_` and the words of its lower-cased text, joined by single
   * underscores; a text without words falls back to the channel.
   */
  lemma SlugIsWords(lower: string -> string, name: Option<string>, channel: nat)
    ensures var words := Words(lower(Source(name, channel)));
      Slug(lower, name, channel) == "eufy_" + if words == [] then "ch" + Digits(channel) else Join(words)
  {
    var text := lower(Source(name, channel));
    StripLeftSquash(text);
    SquashIsJoin(text);
    JoinEmpty(Words(text));
  }
}
