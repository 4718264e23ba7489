/** bridge/gen_go2rtc.py: assigning names, the persisted registry, and `generate` with its two writes. */
module StreamRegistry {
  import opened StreamNames
  import opened Manifest

  /** `camera_key`; `Foreign` is any other key a registry file may hold. */
  datatype CameraKey = BySerial(station: string, sn: string) | ByChannel(station: string, channel: nat) | Foreign(text: string)

  function KeyOf(station: string, c: Camera): CameraKey {
    if HasSerial(c) then BySerial(station, c.sn.value) else ByChannel(station, c.channel)
  }

  /** What makes two listed cameras of one station the same: the serial, or without any the channel. */
  predicate SameCamera(c: Camera, d: Camera) {
    (HasSerial(c) && HasSerial(d) && c.sn == d.sn) || (!HasSerial(c) && !HasSerial(d) && c.channel == d.channel)
  }

  /** The key identifies just that, across manifests. */
  lemma SameKeyIff(station: string, c: Camera, other: string, d: Camera)
    ensures KeyOf(station, c) == KeyOf(other, d) <==> station == other && SameCamera(c, d)
  {
  }

  /** `validate_registry`, on the `names` object. */
  ghost predicate ValidRegistry(names: map<CameraKey, string>) {
    (forall k | k in names :: StreamName(names[k])) &&
    (forall j, k | j in names && k in names && names[j] == names[k] :: j == k)
  }

  /** Accepted cameras have pairwise different keys. */
  lemma KeysDiffer(station: string, cameras: seq<Camera>, i: nat, j: nat)
    requires ValidCameras(cameras) && i < j < |cameras|
    ensures KeyOf(station, cameras[i]) != KeyOf(station, cameras[j])
  {
  }

  // ---------------------------------------------------------------- order

  ghost predicate Ascending(cameras: seq<Camera>) {
    forall i, j | 0 <= i < j < |cameras| :: cameras[i].channel < cameras[j].channel
  }

  function Insert(c: Camera, sorted: seq<Camera>): (r: seq<Camera>)
    ensures multiset(r) == multiset(sorted) + multiset{c}
  {
    if sorted == [] then [c]
    else if c.channel < sorted[0].channel then [c] + sorted
    else
      assert sorted == [sorted[0]] + sorted[1..];
      [sorted[0]] + Insert(c, sorted[1..])
  }

  /** `sorted(cameras, key=channel)`. */
  function Sorted(cameras: seq<Camera>): (r: seq<Camera>)
    ensures multiset(r) == multiset(cameras)
  {
    if cameras == [] then []
    else
      assert cameras == [cameras[0]] + cameras[1..];
      Insert(cameras[0], Sorted(cameras[1..]))
  }

  ghost predicate FreshChannel(c: Camera, cameras: seq<Camera>) {
    forall d | d in cameras :: d.channel != c.channel
  }

  lemma {:induction false} InsertAscending(c: Camera, sorted: seq<Camera>)
    requires Ascending(sorted) && FreshChannel(c, sorted)
    ensures Ascending(Insert(c, sorted))
  {
    if sorted != [] && c.channel >= sorted[0].channel {
      InsertAscending(c, sorted[1..]);
      var rest := Insert(c, sorted[1..]);
      assert sorted[0] in sorted;
      forall j | 0 <= j < |rest| ensures sorted[0].channel < rest[j].channel {
        assert rest[j] in multiset(rest);
        assert rest[j] == c || rest[j] in sorted[1..];
      }
    }
  }

  lemma {:induction false} SortedAscending(cameras: seq<Camera>)
    requires DistinctChannels(cameras)
    ensures Ascending(Sorted(cameras))
  {
    if cameras != [] {
      SortedAscending(cameras[1..]);
      forall d | d in Sorted(cameras[1..]) ensures d.channel != cameras[0].channel {
        assert d in multiset(Sorted(cameras[1..]));
        assert d in cameras[1..];
      }
      InsertAscending(cameras[0], Sorted(cameras[1..]));
    }
  }

  lemma TailContents(a: seq<Camera>)
    requires a != []
    ensures multiset(a[1..]) == multiset(a) - multiset{a[0]}
  {
    assert a == [a[0]] + a[1..];
  }

  lemma SameHead(a: seq<Camera>, b: seq<Camera>)
    requires Ascending(a) && Ascending(b) && multiset(a) == multiset(b) && a != []
    ensures b != [] && a[0] == b[0]
  {
    assert a[0] in multiset(a);
    assert a[0] in b;
    assert b[0] in multiset(b);
    assert b[0] in a;
  }

  /** Unique channels leave one ascending order. */
  lemma {:induction false} AscendingIsCanonical(a: seq<Camera>, b: seq<Camera>)
    requires Ascending(a) && Ascending(b) && multiset(a) == multiset(b)
    ensures a == b
    decreases |a|
  {
    if a != [] {
      SameHead(a, b);
      TailContents(a);
      TailContents(b);
      AscendingIsCanonical(a[1..], b[1..]);
      assert a == [a[0]] + a[1..] && b == [b[0]] + b[1..];
    } else if b != [] {
      SameHead(b, a);
    }
  }

  // ---------------------------------------------------------------- assignment

  /** One round of the loop: a known key keeps its name, a new one gets a free name. */
  function AssignOne(lower: string -> string, station: string, c: Camera, names: map<CameraKey, string>): map<CameraKey, string> {
    var key := KeyOf(station, c);
    if key in names then names
    else names[key := FreshName(Slug(lower, c.name, c.channel), c.channel, names.Values)]
  }

  function AssignAll(lower: string -> string, station: string, cameras: seq<Camera>, names: map<CameraKey,
                     string>): map<CameraKey, string>
    decreases |cameras|
  {
    if cameras == [] then names
    else AssignAll(lower, station, cameras[1..], AssignOne(lower, station, cameras[0], names))
  }

  /** The name of every listed camera, from a registry that has them all. */
  function Named(station: string, cameras: seq<Camera>, names: map<CameraKey, string>): seq<(string, Camera)>
    requires forall c | c in cameras :: KeyOf(station, c) in names
  {
    seq(|cameras|, i requires 0 <= i < |cameras| => (names[KeyOf(station, cameras[i])], cameras[i]))
  }

  ghost predicate Extends(before: map<CameraKey, string>, after: map<CameraKey, string>) {
    forall k | k in before :: k in after && after[k] == before[k]
  }

  lemma FirstCandidate(base: string, channel: nat, used: set<string>, k: nat)
    requires IsFresh(base, channel, used, k) && base !in used
    ensures k == 0
  {
    assert Candidate(base, channel, 0) == base;
  }

  /** A camera not yet known gets its slug if that is free, else the first free one of the suffixed names. */
  lemma NewCameraNamed(lower: string -> string, station: string, c: Camera, names: map<CameraKey, string>) returns (k: nat)
    requires KeyOf(station, c) !in names
    ensures IsFresh(Slug(lower, c.name, c.channel), c.channel, names.Values, k)
    ensures AssignOne(lower, station, c, names) ==
      names[KeyOf(station, c) := Candidate(Slug(lower, c.name, c.channel), c.channel, k)]
    ensures Slug(lower, c.name, c.channel) !in names.Values ==> k == 0
  {
    var base := Slug(lower, c.name, c.channel);
    k := FreshFrom(base, c.channel, names.Values, 0);
    if base !in names.Values { FirstCandidate(base, c.channel, names.Values, k); }
  }

  lemma AssignOneKeeps(lower: string -> string, station: string, c: Camera, names: map<CameraKey, string>)
    requires ValidRegistry(names)
    ensures var r := AssignOne(lower, station, c, names);
      ValidRegistry(r) && Extends(names, r) && KeyOf(station, c) in r
  {
    var base := Slug(lower, c.name, c.channel);
    CandidateIsName(base, c.channel, FreshFrom(base, c.channel, names.Values, 0));
    if KeyOf(station, c) !in names {
      InsertKeeps(names, KeyOf(station, c), FreshName(base, c.channel, names.Values));
    }
  }

  lemma InsertKeeps(names: map<CameraKey, string>, key: CameraKey, v: string)
    requires ValidRegistry(names) && key !in names && StreamName(v) && v !in names.Values
    ensures ValidRegistry(names[key := v]) && Extends(names, names[key := v])
  {
    assert forall k | k in names :: names[k] in names.Values;
  }

  /** The registry stays injective and well formed, only grows, and renames nobody. */
  lemma {:induction false} AssignAllKeeps(lower: string -> string, station: string, cameras: seq<Camera>,
                                          names: map<CameraKey, string>)
    requires ValidRegistry(names)
    ensures var r := AssignAll(lower, station, cameras, names);
      && ValidRegistry(r) && Extends(names, r)
      && forall c | c in cameras :: KeyOf(station, c) in r
    decreases |cameras|
  {
    if cameras != [] {
      AssignOneKeeps(lower, station, cameras[0], names);
      AssignAllKeeps(lower, station, cameras[1..], AssignOne(lower, station, cameras[0], names));
      assert cameras == [cameras[0]] + cameras[1..];
    }
  }

  /** A second assignment over the first one's output changes nothing. */
  lemma {:induction false} NothingNew(lower: string -> string, station: string, cameras: seq<Camera>, names: map<CameraKey, string>)
    requires forall c | c in cameras :: KeyOf(station, c) in names
    ensures AssignAll(lower, station, cameras, names) == names
    decreases |cameras|
  {
    if cameras != [] {
      assert cameras[0] in cameras;
      NothingNew(lower, station, cameras[1..], names);
    }
  }

  function Assigned(lower: string -> string, m: Manifest, previous: map<CameraKey, string>): map<CameraKey, string> {
    AssignAll(lower, m.station, Sorted(m.cameras), previous)
  }

  /** Running the assignment twice on one manifest is running it once. */
  lemma AssignIdempotent(lower: string -> string, m: Manifest, previous: map<CameraKey, string>)
    requires ValidRegistry(previous)
    ensures var names := Assigned(lower, m, previous); Assigned(lower, m, names) == names
  {
    AssignAllKeeps(lower, m.station, Sorted(m.cameras), previous);
    NothingNew(lower, m.station, Sorted(m.cameras), Assigned(lower, m, previous));
  }

  /** The order in which discovery lists the cameras does not matter. */
  lemma AssignOrderFree(lower: string -> string, m: Manifest, n: Manifest, previous: map<CameraKey, string>)
    requires m.station == n.station && multiset(m.cameras) == multiset(n.cameras)
    requires ValidCameras(m.cameras) && ValidCameras(n.cameras)
    ensures Sorted(m.cameras) == Sorted(n.cameras)
    ensures Assigned(lower, m, previous) == Assigned(lower, n, previous)
  {
    SortedAscending(m.cameras);
    SortedAscending(n.cameras);
    AscendingIsCanonical(Sorted(m.cameras), Sorted(n.cameras));
  }

  /** No two cameras of a manifest share a stream name. */
  lemma NamesPairwiseDistinct(lower: string -> string, m: Manifest, previous: map<CameraKey, string>, i: nat, j: nat)
    requires ValidRegistry(previous) && ValidCameras(m.cameras) && i < j < |m.cameras|
    ensures var names := Assigned(lower, m, previous);
      var a, b := KeyOf(m.station, m.cameras[i]), KeyOf(m.station, m.cameras[j]);
      a in names && b in names && names[a] != names[b]
  {
    AssignAllKeeps(lower, m.station, Sorted(m.cameras), previous);
    KeysDiffer(m.station, m.cameras, i, j);
    assert m.cameras[i] in multiset(m.cameras) && m.cameras[j] in multiset(m.cameras);
    assert m.cameras[i] in Sorted(m.cameras) && m.cameras[j] in Sorted(m.cameras);
  }

  /** The loop body of `assign_names`; `used` is the set of all registry values. */
  method AssignCamera(lower: string -> string, station: string, c: Camera, names: map<CameraKey, string>, used: set<string>)
    returns (names': map<CameraKey, string>, used': set<string>)
    requires used == names.Values
    ensures names' == AssignOne(lower, station, c, names) && used' == names'.Values
  {
    var key := KeyOf(station, c);
    names', used' := names, used;
    if key !in names {
      var candidate, _ := PickName(Slug(lower, c.name, c.channel), c.channel, used);
      names' := names[key := candidate];
      used' := used + {candidate};
      ValuesAfterInsert(names, key, candidate);
    }
  }

  ghost predicate NamedSoFar(station: string, cameras: seq<Camera>, names: map<CameraKey, string>,
                             result: seq<(string, Camera)>, i: nat)
    requires i <= |cameras|
  {
    |result| == i && forall j | 0 <= j < i ::
      KeyOf(station, cameras[j]) in names && result[j] == (names[KeyOf(station, cameras[j])], cameras[j])
  }

  lemma NamedExtends(station: string, cameras: seq<Camera>, names: map<CameraKey, string>, more: map<CameraKey, string>,
                     result: seq<(string, Camera)>, i: nat)
    requires i < |cameras| && NamedSoFar(station, cameras, names, result, i)
    requires Extends(names, more) && KeyOf(station, cameras[i]) in more
    ensures NamedSoFar(station, cameras, more, result + [(more[KeyOf(station, cameras[i])], cameras[i])], i + 1)
  {
  }

  /** `assign_names`: the loop over the cameras in channel order. */
  method AssignNames(lower: string -> string, m: Manifest, previous: map<CameraKey, string>)
    returns (result: seq<(string, Camera)>, names: map<CameraKey, string>)
    requires ValidRegistry(previous)
    ensures names == Assigned(lower, m, previous)
    ensures ValidRegistry(names) && Extends(previous, names)
    ensures forall c | c in Sorted(m.cameras) :: KeyOf(m.station, c) in names
    ensures result == Named(m.station, Sorted(m.cameras), names)
  {
    var cameras := Sorted(m.cameras);
    names := previous;
    var used := names.Values;
    result := [];
    for i := 0 to |cameras|
      invariant used == names.Values && ValidRegistry(names)
      invariant AssignAll(lower, m.station, cameras[i..], names) == Assigned(lower, m, previous)
      invariant NamedSoFar(m.station, cameras, names, result, i)
    {
      AssignOneKeeps(lower, m.station, cameras[i], names);
      assert cameras[i..][0] == cameras[i] && cameras[i..][1..] == cameras[i + 1..];
      NamedExtends(m.station, cameras, names, AssignOne(lower, m.station, cameras[i], names), result, i);
      names, used := AssignCamera(lower, m.station, cameras[i], names, used);
      result := result + [(names[KeyOf(m.station, cameras[i])], cameras[i])];
    }
    AssignAllKeeps(lower, m.station, cameras, previous);
    NamedDone(m.station, cameras, names, result);
  }

  lemma NamedDone(station: string, cameras: seq<Camera>, names: map<CameraKey, string>, result: seq<(string, Camera)>)
    requires forall c | c in cameras :: KeyOf(station, c) in names
    requires NamedSoFar(station, cameras, names, result, |cameras|)
    ensures result == Named(station, cameras, names)
  {
  }

  lemma ValuesAfterInsert(names: map<CameraKey, string>, key: CameraKey, v: string)
    requires key !in names
    ensures names[key := v].Values == names.Values + {v}
  {
    var r := names[key := v];
    forall x ensures x in r.Values <==> x in names.Values + {v} {
      if x in names.Values {
        var k :| k in names && names[k] == x;
        assert k in r && r[k] == x;
      }
      if x == v { assert key in r && r[key] == x; }
    }
  }
}
