/** bridge/gen_go2rtc.py, `validate_manifest`: discovery state as parsed JSON. */
module Manifest {
  import opened Wrappers

  /** A JSON value; `Other` is a float, list or object. A missing key reads as null. */
  datatype Json = Null | Bool(b: bool) | Int(i: int) | Str(s: string) | Other

  datatype RawCamera = NotAnObject | Raw(channel: Json, name: Json, sn: Json, status: Json)

  /** `cameras` is None when it is missing or not a list; a missing `nvr_sn` reads as "". */
  datatype RawManifest = NotAManifest | RawManifest(nvrSn: Json, cameras: Option<seq<RawCamera>>)

  datatype Camera = Camera(channel: nat, name: Option<string>, sn: Option<string>, status: Option<nat>)

  datatype Manifest = Manifest(station: string, cameras: seq<Camera>)

  datatype Fault =
    | NoCameraList | BadStation | NotObject | BadChannel | DuplicateChannel
    | BadName | BadSerial | DuplicateSerial | BadStatus

  predicate HasSerial(c: Camera) {
    c.sn.Some? && c.sn.value != ""
  }

  /** The one status rule: null, or 0 or 1 as a number or a string. */
  function ReadStatus(j: Json): Option<Option<nat>> {
    match j
    case Null => Some(None)
    case Int(i) => if i == 0 || i == 1 then Some(Some(i)) else None
    case Str(s) => if s == "0" then Some(Some(0)) else if s == "1" then Some(Some(1)) else None
    case _ => None
  }

  /** A status is 0 or 1, as a number or spelt out; null stays null, and a boolean is refused. */
  lemma StatusMeaning(j: Json, v: nat)
    ensures ReadStatus(j) == Some(Some(v)) <==> v <= 1 && (j == Int(v) || j == Str(if v == 0 then "0" else "1"))
    ensures ReadStatus(j) == Some(None) <==> j == Null
  {
    assert "0" != "1";
  }

  /** What one list item has to be for the camera `c` to come out. */
  lemma CameraMeaning(item: RawCamera, c: Camera)
    ensures ReadCamera(item) == Ok(c) <==>
      && item.Raw? && item.channel == Int(c.channel) && c.channel <= 255
      && (if c.name.Some? then item.name == Str(c.name.value) else item.name == Null)
      && (if c.sn.Some? then item.sn == Str(c.sn.value) else item.sn == Null)
      && ReadStatus(item.status) == Some(c.status)
  {
  }

  function Text(j: Json): Option<string> {
    if j.Str? then Some(j.s) else None
  }

  /** What one list item means on its own, leaving duplicates aside. */
  function ReadCamera(item: RawCamera): Result<Camera, Fault> {
    if item.NotAnObject? then Err(NotObject)
    else if !item.channel.Int? || !(0 <= item.channel.i <= 255) then Err(BadChannel)
    else if !item.name.Null? && !item.name.Str? then Err(BadName)
    else if !item.sn.Null? && !item.sn.Str? then Err(BadSerial)
    else match ReadStatus(item.status)
      case None => Err(BadStatus)
      case Some(status) => Ok(Camera(item.channel.i, Text(item.name), Text(item.sn), status))
  }

  ghost predicate DistinctChannels(cameras: seq<Camera>) {
    forall i, j | 0 <= i < j < |cameras| :: cameras[i].channel != cameras[j].channel
  }

  ghost predicate DistinctSerials(cameras: seq<Camera>) {
    forall i, j | 0 <= i < j < |cameras| && HasSerial(cameras[i]) && HasSerial(cameras[j]) ::
      cameras[i].sn != cameras[j].sn
  }

  ghost predicate ValidCameras(cameras: seq<Camera>) {
    DistinctChannels(cameras) && DistinctSerials(cameras) &&
    forall c | c in cameras :: c.channel <= 255 && (c.status.Some? ==> c.status.value <= 1)
  }

  /** The manifest every accepted input denotes. */
  ghost predicate Denotes(raw: RawManifest, m: Manifest) {
    && raw.RawManifest? && raw.cameras.Some? && raw.nvrSn == Str(m.station)
    && |m.cameras| == |raw.cameras.value|
    && (forall i | 0 <= i < |m.cameras| :: ReadCamera(raw.cameras.value[i]) == Ok(m.cameras[i]))
    && DistinctChannels(m.cameras) && DistinctSerials(m.cameras)
  }

  /** The first items have been read, and their channels and serials collected. */
  ghost predicate Collected(items: seq<RawCamera>, cameras: seq<Camera>, channels: set<nat>, serials: set<string>) {
    && |cameras| <= |items|
    && (forall i | 0 <= i < |cameras| :: ReadCamera(items[i]) == Ok(cameras[i]))
    && (forall n :: n in channels <==> exists i :: 0 <= i < |cameras| && cameras[i].channel == n)
    && (forall t :: t in serials <==> exists i :: 0 <= i < |cameras| && HasSerial(cameras[i]) && cameras[i].sn == Some(t))
    && DistinctChannels(cameras) && DistinctSerials(cameras)
  }

  lemma CollectOne(items: seq<RawCamera>, cameras: seq<Camera>, channels: set<nat>, serials: set<string>, c: Camera)
    requires Collected(items, cameras, channels, serials) && |cameras| < |items|
    requires ReadCamera(items[|cameras|]) == Ok(c)
    requires c.channel !in channels && (HasSerial(c) ==> c.sn.value !in serials)
    ensures Collected(items, cameras + [c], channels + {c.channel}, if HasSerial(c) then serials + {c.sn.value} else serials)
  {
    var all := cameras + [c];
    assert all[|cameras|] == c && forall i | 0 <= i < |cameras| :: all[i] == cameras[i];
  }

  /** `validate_manifest`: accepts exactly the inputs that denote a manifest, and returns it. */
  method Validate(raw: RawManifest) returns (r: Result<Manifest, Fault>)
    ensures r.Ok? ==> Denotes(raw, r.value) && ValidCameras(r.value.cameras)
    ensures r.Err? ==> forall m :: !Denotes(raw, m)
  {
    if raw.NotAManifest? || raw.cameras.None? {
      return Err(NoCameraList);
    }
    if !raw.nvrSn.Str? {
      return Err(BadStation);
    }
    var items := raw.cameras.value;
    var channels: set<nat> := {};
    var serials: set<string> := {};
    var cameras: seq<Camera> := [];
    for k := 0 to |items|
      invariant |cameras| == k && Collected(items, cameras, channels, serials)
    {
      var item := items[k];
      ItemRefused(raw, k);
      if item.NotAnObject? {
        return Err(NotObject);
      }
      if !item.channel.Int? || !(0 <= item.channel.i <= 255) {
        return Err(BadChannel);
      }
      var channel: nat := item.channel.i;
      if channel in channels {
        var i :| 0 <= i < k && cameras[i].channel == channel;
        ClashRefused(raw, i, k);
        return Err(DuplicateChannel);
      }
      ghost var earlier := serials;
      channels := channels + {channel};
      if !item.name.Null? && !item.name.Str? {
        return Err(BadName);
      }
      if !item.sn.Null? && !item.sn.Str? {
        return Err(BadSerial);
      }
      var serial := Text(item.sn);
      if serial.Some? && serial.value != "" {
        if serial.value in serials {
          var i :| 0 <= i < k && HasSerial(cameras[i]) && cameras[i].sn == serial;
          ClashRefused(raw, i, k);
          return Err(DuplicateSerial);
        }
        serials := serials + {serial.value};
      }
      match ReadStatus(item.status) {
        case None =>
          return Err(BadStatus);
        case Some(status) =>
          CollectOne(items, cameras, channels - {channel}, earlier, Camera(channel, Text(item.name), serial, status));
          assert channels - {channel} + {channel} == channels;
          cameras := cameras + [Camera(channel, Text(item.name), serial, status)];
      }
    }
    r := Ok(Manifest(raw.nvrSn.s, cameras));
  }

  /** An item that cannot be read on its own spoils the manifest. */
  lemma ItemRefused(raw: RawManifest, k: nat)
    requires raw.RawManifest? && raw.cameras.Some? && k < |raw.cameras.value|
    ensures ReadCamera(raw.cameras.value[k]).Err? ==> forall m :: !Denotes(raw, m)
  {
  }

  /** Two items with one channel, or one non-empty serial, cannot both be accepted. */
  lemma ClashRefused(raw: RawManifest, i: nat, k: nat)
    requires raw.RawManifest? && raw.cameras.Some? && i < k < |raw.cameras.value|
    requires raw.cameras.value[i].Raw? && raw.cameras.value[k].Raw?
    requires raw.cameras.value[i].channel == raw.cameras.value[k].channel ||
             (raw.cameras.value[i].sn == raw.cameras.value[k].sn && raw.cameras.value[i].sn.Str? && raw.cameras.value[i].sn.s != "")
    ensures forall m :: !Denotes(raw, m)
  {
    forall m ensures !Denotes(raw, m) {
      if Denotes(raw, m) {
        assert false;
      }
    }
  }
}
