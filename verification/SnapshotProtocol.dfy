/**
 * All requests and refresh tasks of one SnapshotCache. Every step is one await-free segment;
 * between two segments of a task any other task may run.
 */
module SnapshotProtocol {
  import opened Wrappers
  import opened SnapshotStore
  import opened SnapshotCache

  /** A foreground `async_get` that did not answer at once. */
  datatype Request =
    | AwaitingLock(key: Key)
    | Capturing(key: Key, since: real, prior: Option<Entry>)

  /** A background refresh task. */
  datatype Refresh =
    | Queued(key: Key)                                 // created, or waiting for the lock
    | Refreshing(key: Key, since: real, prior: Entry)  // suspended inside `capture()`
    | TimedOut(key: Key)                               // in the handler, waiting for the lock
    | Ended(key: Key)                                  // done callback pending

  datatype Holder = Nobody | ByRequest(id: nat) | ByRefresh(task: nat)

  /** An image that a capture for `key` delivered and `_remember` stored at `at`. */
  datatype Stored = Stored(key: Key, image: Image, at: real)

  datatype State = State(
    lim: Limits,
    now: real,
    store: Store,
    lock: Holder,
    requests: map<nat, Request>,
    refreshes: map<nat, Refresh>,
    stored: set<Stored>,           // history: every successful capture
    touched: map<Key, nat>,        // history: when each key was last moved to the end
    moves: nat
  )

  datatype Step =
    | Get(id: nat, key: Key)                    // `async_get` up to its first await
    | GetLocked(id: nat)                        // lock acquired, up to `capture()` or the return
    | GetCaptured(id: nat, out: Outcome)        // capture returned or raised
    | GetCancelled(id: nat)                     // deadline or cancellation, anywhere
    | RefreshLocked(task: nat)
    | RefreshCaptured(task: nat, out: Outcome)
    | RefreshTimeout(task: nat)                 // deadline, waiting or capturing
    | RefreshRecovers(task: nat)
    | RefreshCancelled(task: nat)               // a cancelled task's next resumption
    | RefreshCallback(task: nat)
    | Discard(key: Key)
    | Clear
    | Tick(d: real)

  /** What the caller of `async_get` receives in this step, if anything. */
  datatype Reply = NoReply | FromCache(key: Key, image: Image) | FromCapture(key: Key, image: Image) | Error(key: Key)

  predicate Live(r: Refresh) {
    !r.Ended?
  }

  predicate Enabled(s: State, st: Step) {
    match st
    case Get(id, _) => id !in s.requests
    case GetLocked(id) => s.lock.Nobody? && id in s.requests && s.requests[id].AwaitingLock?
    case GetCaptured(id, _) => id in s.requests && s.requests[id].Capturing?
    case GetCancelled(id) => id in s.requests
    case RefreshLocked(t) => s.lock.Nobody? && t in s.refreshes && s.refreshes[t].Queued? && t !in s.store.cancelled
    case RefreshCaptured(t, _) => t in s.refreshes && s.refreshes[t].Refreshing? && t !in s.store.cancelled
    case RefreshTimeout(t) =>
      t in s.refreshes && (s.refreshes[t].Queued? || s.refreshes[t].Refreshing?) && t !in s.store.cancelled
    case RefreshRecovers(t) => s.lock.Nobody? && t in s.refreshes && s.refreshes[t].TimedOut? && t !in s.store.cancelled
    case RefreshCancelled(t) => t in s.refreshes && Live(s.refreshes[t]) && t in s.store.cancelled
    case RefreshCallback(t) => t in s.refreshes && s.refreshes[t].Ended?
    case Discard(_) => true
    case Clear => true
    case Tick(d) => d >= 0.0
  }

  // ---------------------------------------------------------------- effects

  function Touch(s: State, k: Key): State {
    s.(touched := s.touched[k := s.moves], moves := s.moves + 1)
  }

  /** `_cached` with the refresh task it may create. */
  function Look(s: State, k: Key): State {
    var r := Cached(s.store, k, s.now);
    var m := s.(store := r.after,
                refreshes := if r.started.Some? then s.refreshes[r.started.value := Queued(k)] else s.refreshes);
    if r.hit then Touch(m, k) else m
  }

  function Hit(s: State, k: Key): bool {
    Cached(s.store, k, s.now).hit
  }

  function Find(c: Cache, k: Key): Option<Entry> {
    if k in c.vals then Some(c.vals[k]) else None
  }

  function Unlocked(s: State, h: Holder): State {
    if s.lock == h then s.(lock := Nobody) else s
  }

  function Record(s: State, k: Key, out: Outcome): set<Stored> {
    if out.Captured? && Usable(out.image) then s.stored + {Stored(k, out.image, s.now)} else s.stored
  }

  function EndGet(s: State, id: nat, r: Request, out: Outcome): State
    requires r.Capturing?
  {
    Touch(s.(store := ForegroundDone(s.store, s.lim, r.key, r.prior, r.since, out, s.now),
             stored := Record(s, r.key, out), lock := Nobody, requests := s.requests - {id}), r.key)
  }

  function EndRefresh(s: State, t: nat, r: Refresh, out: Outcome): State
    requires r.Refreshing?
  {
    Touch(s.(store := RefreshDoneWith(s.store, s.lim, r.key, r.prior, r.since, out, s.now),
             stored := Record(s, r.key, out), lock := Nobody, refreshes := s.refreshes[t := Ended(r.key)]), r.key)
  }

  function TakeLock(s: State, id: nat, k: Key): State {
    var m := Look(s, k);
    if Hit(s, k) then m.(requests := m.requests - {id})
    else m.(lock := ByRequest(id), requests := m.requests[id := Capturing(k, s.now, Find(m.store.cache, k))])
  }

  function TakeRefreshLock(s: State, t: nat, k: Key): State {
    if Needed(s.store.cache, k, s.now)
    then s.(lock := ByRefresh(t), refreshes := s.refreshes[t := Refreshing(k, s.now, s.store.cache.vals[k])])
    else s.(refreshes := s.refreshes[t := Ended(k)])
  }

  function Recover(s: State, t: nat, k: Key): State {
    var m := s.(store := Recovered(s.store, s.lim, k, s.now), refreshes := s.refreshes[t := Ended(k)]);
    if k in s.store.cache.vals && s.store.cache.vals[k].staleUntil > s.now then Touch(m, k) else m
  }

  /** A step that is not enabled changes nothing. */
  function Next(s: State, st: Step): State {
    if !Enabled(s, st) then s else
    match st
    case Get(id, k) =>
      var m := Look(s, k);
      if Hit(s, k) then m else m.(requests := m.requests[id := AwaitingLock(k)])
    case GetLocked(id) => TakeLock(s, id, s.requests[id].key)
    case GetCaptured(id, out) => EndGet(s, id, s.requests[id], out)
    case GetCancelled(id) => Unlocked(s.(requests := s.requests - {id}), ByRequest(id))
    case RefreshLocked(t) => TakeRefreshLock(s, t, s.refreshes[t].key)
    case RefreshCaptured(t, out) => EndRefresh(s, t, s.refreshes[t], out)
    case RefreshTimeout(t) =>
      Unlocked(s.(refreshes := s.refreshes[t := TimedOut(s.refreshes[t].key)]), ByRefresh(t))
    case RefreshRecovers(t) => Recover(s, t, s.refreshes[t].key)
    case RefreshCancelled(t) =>
      Unlocked(s.(refreshes := s.refreshes[t := Ended(s.refreshes[t].key)]), ByRefresh(t))
    case RefreshCallback(t) =>
      s.(store := Finished(s.store, s.refreshes[t].key, t), refreshes := s.refreshes - {t})
    case Discard(k) => s.(store := Discarded(s.store, k))
    case Clear => s.(store := Cleared(s.store))
    case Tick(d) => s.(now := s.now + d)
  }

  function ReplyTo(s: State, st: Step): Reply {
    if !Enabled(s, st) then NoReply else
    match st
    case Get(_, k) => if Hit(s, k) then FromCache(k, Cached(s.store, k, s.now).image) else NoReply
    case GetLocked(id) =>
      var k := s.requests[id].key;
      if Hit(s, k) then FromCache(k, Cached(s.store, k, s.now).image) else NoReply
    case GetCaptured(id, out) =>
      var r := s.requests[id];
      if (out.Raised? || out.image.None?) && r.prior.Some? && Usable(r.prior.value.image)
      then FromCache(r.key, r.prior.value.image)
      else if out.Raised? then Error(r.key)
      else FromCapture(r.key, out.image)
    case _ => NoReply
  }

  predicate Init(s: State) {
    && ValidLimits(s.lim) && s.store == Store(Cache([], map[]), map[], {}, 0) && s.lock == Nobody
    && s.requests == map[] && s.refreshes == map[] && s.stored == {} && s.touched == map[]
  }

  function After(s: State, run: seq<Step>): State
    decreases |run|
  {
    if run == [] then s else After(Next(s, run[0]), run[1..])
  }
}
