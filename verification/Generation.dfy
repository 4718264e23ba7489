/** bridge/gen_go2rtc.py, `generate`: two atomic writes, and what survives any sequence of runs. */
module Generation {
  import opened Wrappers
  import opened StreamNames
  import opened Manifest
  import Warmer
  import opened StreamRegistry

  /** The registry file; `Damaged` is anything that is not a version 1 object of string pairs. */
  datatype RegistryFile = Missing | Damaged | Names(names: map<CameraKey, string>)

  datatype Settings = Settings(api: int, rtsp: int, webrtc: int, startTimeout: int, username: string, password: string)

  predicate Port(p: int) {
    1 <= p <= 65535
  }

  predicate NoControl(s: string) {
    forall c | c in s :: c as int >= 32 && c as int != 127
  }

  /** The checks `render_config` makes before it renders anything. */
  predicate ValidSettings(s: Settings) {
    && Port(s.api) && Port(s.rtsp) && Port(s.webrtc)
    && s.api != s.rtsp && s.api != s.webrtc && s.rtsp != s.webrtc
    && 1 <= s.startTimeout <= 300
    && 1 <= |s.username| <= 64 && 16 <= |s.password| <= 256 && NoControl(s.username + s.password)
  }

  /** What the rendered file says: the online streams and the settings. */
  datatype Config = Config(streams: seq<(string, nat)>, settings: Settings)

  datatype Files = Files(registry: RegistryFile, config: Option<Config>)

  function Enabled(named: seq<(string, Camera)>, disabled: set<nat>): seq<(string, Camera)> {
    if named == [] then []
    else if named[0].1.channel in disabled then Enabled(named[1..], disabled)
    else [named[0]] + Enabled(named[1..], disabled)
  }

  function Online(named: seq<(string, Camera)>): seq<(string, nat)> {
    if named == [] then []
    else if named[0].1.status == Some(0) then Online(named[1..])
    else [(named[0].0, named[0].1.channel)] + Online(named[1..])
  }

  lemma {:induction false} EnabledIff(named: seq<(string, Camera)>, disabled: set<nat>, x: (string, Camera))
    ensures x in Enabled(named, disabled) <==> x in named && x.1.channel !in disabled
    decreases |named|
  {
    if named != [] {
      EnabledIff(named[1..], disabled, x);
      assert x in named <==> x == named[0] || x in named[1..];
    }
  }

  lemma {:induction false} OnlineIff(named: seq<(string, Camera)>, n: string, ch: nat)
    ensures (n, ch) in Online(named) <==> exists c :: (n, c) in named && c.channel == ch && c.status != Some(0)
    decreases |named|
  {
    if named != [] {
      OnlineIff(named[1..], n, ch);
      assert forall x :: x in named <==> x == named[0] || x in named[1..];
      if named[0].0 == n && named[0].1.channel == ch && named[0].1.status != Some(0) {
        assert (n, named[0].1) in named;
      }
    }
  }

  ghost predicate ByChannel(named: seq<(string, Camera)>) {
    forall i, j | 0 <= i < j < |named| :: named[i].1.channel < named[j].1.channel
  }

  lemma {:induction false} EnabledByChannel(named: seq<(string, Camera)>, disabled: set<nat>)
    requires ByChannel(named)
    ensures ByChannel(Enabled(named, disabled))
    decreases |named|
  {
    if named != [] {
      EnabledByChannel(named[1..], disabled);
      var rest := Enabled(named[1..], disabled);
      forall j | 0 <= j < |rest| ensures named[0].1.channel < rest[j].1.channel {
        EnabledIff(named[1..], disabled, rest[j]);
        var k :| 0 <= k < |named[1..]| && named[1..][k] == rest[j];
        assert named[k + 1] == rest[j];
      }
    }
  }

  lemma {:induction false} OnlineByChannel(named: seq<(string, Camera)>)
    requires ByChannel(named)
    ensures forall i, j | 0 <= i < j < |Online(named)| :: Online(named)[i].1 < Online(named)[j].1
    decreases |named|
  {
    if named != [] {
      OnlineByChannel(named[1..]);
      var rest := Online(named[1..]);
      forall j | 0 <= j < |rest| ensures named[0].1.channel < rest[j].1 {
        OnlineIff(named[1..], rest[j].0, rest[j].1);
        var c :| (rest[j].0, c) in named[1..] && c.channel == rest[j].1;
        var k :| 0 <= k < |named[1..]| && named[1..][k] == (rest[j].0, c);
        assert named[k + 1] == (rest[j].0, c);
      }
    }
  }

  // ---------------------------------------------------------------- what a run is to give

  /** The camera has the name, is not disabled, and counts as online. */
  predicate Streams(names: map<CameraKey, string>, station: string, disabled: set<nat>, n: string, c: Camera) {
    KeyOf(station, c) in names && names[KeyOf(station, c)] == n && c.channel !in disabled && c.status != Some(0)
  }

  /** Exactly the enabled online cameras of the manifest, each once, in channel order. */
  ghost predicate Lists(streams: seq<(string, nat)>, m: Manifest, names: map<CameraKey, string>, disabled: set<nat>) {
    && (forall n: string, ch: nat :: (n, ch) in streams <==>
          exists c :: c in m.cameras && c.channel == ch && Streams(names, m.station, disabled, n, c))
    && (forall i, j | 0 <= i < j < |streams| :: streams[i].1 < streams[j].1)
  }

  /** Exactly the enabled cameras, online or not, with their registered names, in channel order. */
  ghost predicate Returns(result: seq<(string, Camera)>, m: Manifest, names: map<CameraKey, string>, disabled: set<nat>) {
    && (forall n, c :: (n, c) in result <==>
          c in m.cameras && KeyOf(m.station, c) in names && names[KeyOf(m.station, c)] == n && c.channel !in disabled)
    && ByChannel(result)
  }

  lemma NamedIff(m: Manifest, names: map<CameraKey, string>, n: string, c: Camera)
    requires forall d | d in Sorted(m.cameras) :: KeyOf(m.station, d) in names
    ensures (n, c) in Named(m.station, Sorted(m.cameras), names) <==>
      c in m.cameras && KeyOf(m.station, c) in names && names[KeyOf(m.station, c)] == n
  {
    var named := Named(m.station, Sorted(m.cameras), names);
    assert c in m.cameras <==> c in multiset(m.cameras);
    assert c in Sorted(m.cameras) <==> c in multiset(Sorted(m.cameras));
    if c in m.cameras && names[KeyOf(m.station, c)] == n {
      var i :| 0 <= i < |Sorted(m.cameras)| && Sorted(m.cameras)[i] == c;
      assert named[i] == (n, c);
    }
  }

  lemma NamedByChannel(m: Manifest, names: map<CameraKey, string>)
    requires DistinctChannels(m.cameras) && forall d | d in Sorted(m.cameras) :: KeyOf(m.station, d) in names
    ensures ByChannel(Named(m.station, Sorted(m.cameras), names))
  {
    SortedAscending(m.cameras);
  }

  lemma ReturnsEnabled(m: Manifest, names: map<CameraKey, string>, disabled: set<nat>)
    requires DistinctChannels(m.cameras) && forall d | d in Sorted(m.cameras) :: KeyOf(m.station, d) in names
    ensures Returns(Enabled(Named(m.station, Sorted(m.cameras), names), disabled), m, names, disabled)
  {
    var named := Named(m.station, Sorted(m.cameras), names);
    NamedByChannel(m, names);
    EnabledByChannel(named, disabled);
    forall n, c ensures (n, c) in Enabled(named, disabled) <==>
      c in m.cameras && KeyOf(m.station, c) in names && names[KeyOf(m.station, c)] == n && c.channel !in disabled
    {
      EnabledIff(named, disabled, (n, c));
      NamedIff(m, names, n, c);
    }
  }

  lemma ListsOnline(result: seq<(string, Camera)>, m: Manifest, names: map<CameraKey, string>, disabled: set<nat>)
    requires Returns(result, m, names, disabled)
    ensures Lists(Online(result), m, names, disabled)
  {
    OnlineByChannel(result);
    forall n: string, ch: nat ensures (n, ch) in Online(result) <==>
      exists c :: c in m.cameras && c.channel == ch && Streams(names, m.station, disabled, n, c)
    {
      OnlineIff(result, n, ch);
      if (n, ch) in Online(result) {
        var c :| (n, c) in result && c.channel == ch && c.status != Some(0);
        assert Streams(names, m.station, disabled, n, c);
      }
      if c :| c in m.cameras && c.channel == ch && Streams(names, m.station, disabled, n, c) {
        assert (n, c) in result;
      }
    }
  }

  // ---------------------------------------------------------------- validate_registry

  lemma {:induction false} ValuesAtMost(names: map<CameraKey, string>)
    ensures |names.Values| <= |names|
    decreases |names|
  {
    if names != map[] {
      var k :| k in names;
      var rest := names - {k};
      ValuesAtMost(rest);
      assert rest.Keys == names.Keys - {k};
      assert names == rest[k := names[k]];
      ValuesAfterInsert(rest, k, names[k]);
    } else {
      assert names.Values == {};
    }
  }

  /** Comparing sizes is the duplicate test: equal exactly when no two keys share a name. */
  lemma {:induction false} SameSizeIffInjective(names: map<CameraKey, string>)
    ensures |names.Values| == |names| <==> forall j, k | j in names && k in names && names[j] == names[k] :: j == k
    decreases |names|
  {
    if names == map[] {
      assert names.Values == {};
    } else {
      var k :| k in names;
      var rest := names - {k};
      assert rest.Keys == names.Keys - {k};
      SameSizeIffInjective(rest);
      assert names == rest[k := names[k]];
      ValuesAfterInsert(rest, k, names[k]);
      if names[k] in rest.Values {
        var j :| j in rest && rest[j] == names[k];
        assert names.Values == rest.Values;
        ValuesAtMost(rest);
      } else {
        assert forall j | j in rest :: rest[j] in rest.Values;
      }
    }
  }

  /** `validate_registry`. */
  predicate Accepts(file: RegistryFile) {
    match file
    case Missing => true
    case Damaged => false
    case Names(names) => (forall k | k in names :: StreamName(names[k])) && |names.Values| == |names|
  }

  function Previous(file: RegistryFile): map<CameraKey, string> {
    if file.Names? then file.names else map[]
  }

  lemma AcceptedIsValid(file: RegistryFile)
    ensures Accepts(file) <==> !file.Damaged? && ValidRegistry(Previous(file))
  {
    SameSizeIffInjective(Previous(file));
  }

  // ---------------------------------------------------------------- generate

  /** What an uninterrupted run leaves, when it gets as far as writing. */
  ghost function Target(lower: string -> string, f: Files, m: Manifest, disabled: set<nat>, settings: Settings): Files
    requires Accepts(f.registry)
  {
    var names := Assigned(lower, m, Previous(f.registry));
    AcceptedIsValid(f.registry);
    AssignAllKeeps(lower, m.station, Sorted(m.cameras), Previous(f.registry));
    var named := Named(m.station, Sorted(m.cameras), names);
    Files(Names(names), Some(Config(Online(Enabled(named, disabled)), settings)))
  }

  /** One run on an accepted manifest, stopped after `writes` of its two atomic writes. */
  ghost function Run(lower: string -> string, f: Files, m: Manifest, disabled: set<nat>, settings: Settings, writes: nat): Files {
    if !Accepts(f.registry) || !ValidSettings(settings) || writes == 0 then f
    else
      var t := Target(lower, f, m, disabled, settings);
      if writes == 1 then f.(registry := t.registry) else t
  }

  /** The resolved paths of manifest, configuration and registry. */
  datatype Paths = Paths(manifest: string, output: string, registry: string)

  predicate Different(p: Paths) {
    p.manifest != p.output && p.manifest != p.registry && p.output != p.registry
  }

  datatype Failure = SamePaths | BadManifest(fault: Fault) | BadRegistry | BadSettings | Interrupted

  class Generator {
    var registry: RegistryFile
    var config: Option<Config>

    function OnDisk(): Files
      reads this
    {
      Files(registry, config)
    }

    constructor (f: Files)
      ensures OnDisk() == f
    {
      registry, config := f.registry, f.config;
    }

    /** `generate`; `writes` is how many atomic writes happen before the process stops. */
    method Generate(lower: string -> string, paths: Paths, raw: RawManifest, disabled: set<nat>, settings: Settings, writes: nat)
      returns (r: Result<seq<(string, Camera)>, Failure>)
      modifies this
      ensures r == Err(SamePaths) <==> !Different(paths)
      ensures !Different(paths) || (forall m :: !Denotes(raw, m)) ==> OnDisk() == old(OnDisk()) && r.Err?
      ensures Different(paths) ==> ((r.Err? && r.error.BadManifest?) <==> forall m :: !Denotes(raw, m))
      ensures Different(paths) ==>
        forall m | Denotes(raw, m) :: OnDisk() == Run(lower, old(OnDisk()), m, disabled, settings, writes)
      ensures Different(paths) ==> forall m | Denotes(raw, m) ::
        && (r.Err? && r.error.BadRegistry? <==> !Accepts(old(registry)))
        && (r.Err? && r.error.BadSettings? <==> Accepts(old(registry)) && !ValidSettings(settings))
        && (r.Ok? <==> Accepts(old(registry)) && ValidSettings(settings) && writes >= 2)
      ensures r.Ok? ==> registry.Names? && config.Some? && config.value.settings == settings
      ensures r.Ok? ==> forall m | Denotes(raw, m) ::
        && (forall c | c in m.cameras :: KeyOf(m.station, c) in registry.names)
        && Lists(config.value.streams, m, registry.names, disabled)
        && Returns(r.value, m, registry.names, disabled)
    {
      if paths.manifest == paths.output || paths.manifest == paths.registry || paths.output == paths.registry {
        return Err(SamePaths);
      }
      var parsed := Validate(raw);
      if parsed.Err? {
        return Err(BadManifest(parsed.error));
      }
      var m := parsed.value;
      DenotesOne(raw, m);
      if !Accepts(registry) {
        return Err(BadRegistry);
      }
      AcceptedIsValid(registry);
      var named, names := AssignNames(lower, m, Previous(registry));
      var enabled := Enabled(named, disabled);
      ReturnsEnabled(m, names, disabled);
      ListsOnline(enabled, m, names, disabled);
      AllNamed(m, names);
      if !ValidSettings(settings) {
        return Err(BadSettings);
      }
      var text := Config(Online(enabled), settings);
      if writes == 0 {
        return Err(Interrupted);
      }
      registry := Names(names);
      if writes == 1 {
        return Err(Interrupted);
      }
      config := Some(text);
      r := Ok(enabled);
    }
  }

  lemma AllNamed(m: Manifest, names: map<CameraKey, string>)
    requires forall c | c in Sorted(m.cameras) :: KeyOf(m.station, c) in names
    ensures forall c | c in m.cameras :: KeyOf(m.station, c) in names
  {
    forall c | c in m.cameras ensures c in Sorted(m.cameras) {
      assert c in multiset(m.cameras) && c in multiset(Sorted(m.cameras));
    }
  }

  lemma DenotesOne(raw: RawManifest, m: Manifest)
    requires Denotes(raw, m)
    ensures forall n | Denotes(raw, n) :: n == m
  {
    forall n | Denotes(raw, n) ensures n == m {
      forall i | 0 <= i < |m.cameras| ensures n.cameras[i] == m.cameras[i] {
        assert ReadCamera(raw.cameras.value[i]) == Ok(m.cameras[i]);
        assert ReadCamera(raw.cameras.value[i]) == Ok(n.cameras[i]);
      }
      assert n.cameras == m.cameras;
    }
  }

  // ---------------------------------------------------------------- crash consistency

  lemma FilledRegistry(lower: string -> string, f: Files, m: Manifest)
    requires Accepts(f.registry)
    ensures var names := Assigned(lower, m, Previous(f.registry));
      && Accepts(Names(names)) && ValidRegistry(names)
      && Extends(Previous(f.registry), names)
      && Assigned(lower, m, names) == names
  {
    AcceptedIsValid(f.registry);
    AssignAllKeeps(lower, m.station, Sorted(m.cameras), Previous(f.registry));
    AssignIdempotent(lower, m, Previous(f.registry));
    AcceptedIsValid(Names(Assigned(lower, m, Previous(f.registry))));
  }

  /** A run stopped at any point and repeated on the same manifest ends as if never stopped. */
  lemma RerunRepairs(lower: string -> string, f: Files, m: Manifest, disabled: set<nat>, settings: Settings, writes: nat)
    ensures var g := Run(lower, f, m, disabled, settings, writes);
      Run(lower, g, m, disabled, settings, 2) == Run(lower, f, m, disabled, settings, 2)
  {
    if Accepts(f.registry) {
      FilledRegistry(lower, f, m);
    }
  }

  // ---------------------------------------------------------------- any sequence of runs

  datatype Attempt = Attempt(m: Manifest, disabled: set<nat>, settings: Settings, writes: nat) | Refused

  ghost function AfterRuns(lower: string -> string, f: Files, runs: seq<Attempt>): Files
    decreases |runs|
  {
    if runs == [] then f
    else
      var g := if runs[0].Refused? then f
               else Run(lower, f, runs[0].m, runs[0].disabled, runs[0].settings, runs[0].writes);
      AfterRuns(lower, g, runs[1..])
  }

  lemma OneRunKeeps(lower: string -> string, f: Files, m: Manifest, disabled: set<nat>, settings: Settings, writes: nat)
    requires Accepts(f.registry)
    ensures var g := Run(lower, f, m, disabled, settings, writes);
      Accepts(g.registry) && Extends(Previous(f.registry), Previous(g.registry))
  {
    FilledRegistry(lower, f, m);
  }

  /**
   * Stream identity: over any sequence of runs, crashes and refused manifests, the registry is
   * accepted by the next run, stays injective and well formed, and no camera is ever renamed.
   */
  lemma {:induction false} StreamIdentity(lower: string -> string, f: Files, runs: seq<Attempt>)
    requires Accepts(f.registry)
    ensures var g := AfterRuns(lower, f, runs);
      && Accepts(g.registry) && ValidRegistry(Previous(g.registry))
      && Extends(Previous(f.registry), Previous(g.registry))
    decreases |runs|
  {
    AcceptedIsValid(f.registry);
    if runs != [] && runs[0].Refused? {
      StreamIdentity(lower, f, runs[1..]);
    } else if runs != [] {
      var a := runs[0];
      OneRunKeeps(lower, f, a.m, a.disabled, a.settings, a.writes);
      StreamIdentity(lower, Run(lower, f, a.m, a.disabled, a.settings, a.writes), runs[1..]);
    }
  }

  /** What `generate` writes into the configuration, for every accepted manifest. */
  lemma ConfigurationIsExact(lower: string -> string, f: Files, m: Manifest, disabled: set<nat>, settings: Settings)
    requires Accepts(f.registry) && ValidSettings(settings) && DistinctChannels(m.cameras)
    ensures var g := Run(lower, f, m, disabled, settings, 2);
      && g.registry.Names? && g.config.Some? && g.config.value.settings == settings
      && (forall c | c in m.cameras :: KeyOf(m.station, c) in g.registry.names)
      && Lists(g.config.value.streams, m, g.registry.names, disabled)
  {
    AcceptedIsValid(f.registry);
    AssignAllKeeps(lower, m.station, Sorted(m.cameras), Previous(f.registry));
    var names := Assigned(lower, m, Previous(f.registry));
    AllNamed(m, names);
    ReturnsEnabled(m, names, disabled);
    ListsOnline(Enabled(Named(m.station, Sorted(m.cameras), names), disabled), m, names, disabled);
  }

  /** Every name the registry can hold is one whose consumers the warmer counts. */
  lemma StreamsAreCounted(file: RegistryFile, k: CameraKey)
    requires Accepts(file) && k in Previous(file)
    ensures Warmer.EufyName(Previous(file)[k])
  {
  }

  /** Every configured stream is a registered name. */
  ghost predicate Backed(f: Files) {
    f.config.Some? ==> forall x | x in f.config.value.streams :: x.0 in Previous(f.registry).Values
  }

  lemma ExtendsValues(a: map<CameraKey, string>, b: map<CameraKey, string>)
    requires Extends(a, b)
    ensures a.Values <= b.Values
  {
    forall v | v in a.Values ensures v in b.Values {
      var k :| k in a && a[k] == v;
      assert b[k] == v;
    }
  }

  lemma OneRunBacked(lower: string -> string, f: Files, a: Attempt)
    requires Accepts(f.registry) && Backed(f) && a.Attempt?
    ensures Backed(Run(lower, f, a.m, a.disabled, a.settings, a.writes))
  {
    var g := Run(lower, f, a.m, a.disabled, a.settings, a.writes);
    OneRunKeeps(lower, f, a.m, a.disabled, a.settings, a.writes);
    ExtendsValues(Previous(f.registry), Previous(g.registry));
    if g.config != f.config {
      AcceptedIsValid(f.registry);
      AssignAllKeeps(lower, a.m.station, Sorted(a.m.cameras), Previous(f.registry));
      var names := Assigned(lower, a.m, Previous(f.registry));
      var named := Named(a.m.station, Sorted(a.m.cameras), names);
      forall x | x in g.config.value.streams ensures x.0 in names.Values {
        OnlineIff(Enabled(named, a.disabled), x.0, x.1);
        var c :| (x.0, c) in Enabled(named, a.disabled);
        EnabledIff(named, a.disabled, (x.0, c));
        NamedIff(a.m, names, x.0, c);
      }
    }
  }

  /**
   * The registry is written first: over any runs, wherever they stop, the configuration never
   * names a stream that the registry does not know.
   */
  lemma {:induction false} AlwaysBacked(lower: string -> string, f: Files, runs: seq<Attempt>)
    requires Accepts(f.registry) && Backed(f)
    ensures Backed(AfterRuns(lower, f, runs))
    decreases |runs|
  {
    if runs != [] && runs[0].Refused? {
      AlwaysBacked(lower, f, runs[1..]);
    } else if runs != [] {
      var a := runs[0];
      OneRunBacked(lower, f, a);
      OneRunKeeps(lower, f, a.m, a.disabled, a.settings, a.writes);
      AlwaysBacked(lower, Run(lower, f, a.m, a.disabled, a.settings, a.writes), runs[1..]);
    }
  }

  // ---------------------------------------------------------------- identity of cameras

  /** The pairs of name and camera that a run on the manifest settles, from the files as they are. */
  ghost predicate Settles(lower: string -> string, f: Files, m: Manifest, n: string, c: Camera) {
    var names := Assigned(lower, m, Previous(f.registry));
    c in m.cameras && KeyOf(m.station, c) in names && names[KeyOf(m.station, c)] == n
  }

  lemma EveryCameraSettles(lower: string -> string, f: Files, m: Manifest, c: Camera)
    requires Accepts(f.registry) && c in m.cameras
    ensures exists n :: Settles(lower, f, m, n, c)
  {
    AcceptedIsValid(f.registry);
    AssignAllKeeps(lower, m.station, Sorted(m.cameras), Previous(f.registry));
    AllNamed(m, Assigned(lower, m, Previous(f.registry)));
    assert Settles(lower, f, m, Assigned(lower, m, Previous(f.registry))[KeyOf(m.station, c)], c);
  }

  /**
   * Once a run has written the registry, then after any further runs, crashes and refusals: a
   * camera of a later manifest gets the name of an earlier one exactly when they are the same
   * camera of the same station, whatever has become of channels and display names.
   */
  lemma SameNameIffSameCamera(lower: string -> string, f: Files, a: Attempt, runs: seq<Attempt>, g: Files, later: Manifest,
                              n: string, c: Camera, o: string, d: Camera)
    requires Accepts(f.registry) && a.Attempt? && a.writes >= 1 && ValidSettings(a.settings)
    requires g == AfterRuns(lower, Run(lower, f, a.m, a.disabled, a.settings, a.writes), runs)
    requires Settles(lower, f, a.m, n, c) && Settles(lower, g, later, o, d)
    ensures n == o <==> a.m.station == later.station && SameCamera(c, d)
  {
    var first := Run(lower, f, a.m, a.disabled, a.settings, a.writes);
    OneRunKeeps(lower, f, a.m, a.disabled, a.settings, a.writes);
    StreamIdentity(lower, first, runs);
    FilledRegistry(lower, g, later);
    SameKeyIff(a.m.station, c, later.station, d);
    var names := Assigned(lower, later, Previous(g.registry));
    assert names[KeyOf(a.m.station, c)] == n;
  }
}
