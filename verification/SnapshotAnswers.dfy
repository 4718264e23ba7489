/** What the snapshot cache answers, and what each write leaves behind. */
module SnapshotAnswers {
  import opened Wrappers
  import opened SnapshotStore
  import opened SnapshotCache
  import opened SnapshotProtocol
  import opened SnapshotInvariant
  import opened SnapshotLimits

  // ---------------------------------------------------------------- a lookup

  predicate Asks(st: Step) {
    st.Get? || st.GetLocked?
  }

  function Asked(s: State, st: Step): Key
    requires Enabled(s, st) && Asks(st)
  {
    if st.Get? then st.key else s.requests[st.id].key
  }

  /** There is an entry for the key that has not expired. */
  predicate Presentable(s: State, k: Key) {
    k in s.store.cache.vals && s.store.cache.vals[k].staleUntil > s.now
  }

  /** An entry without image never goes stale, so an unexpired one is fresh or has an image. */
  lemma FreshOrUsable(s: State, k: Key)
    requires EntryInv(s) && Presentable(s, k)
    ensures s.store.cache.vals[k].freshUntil > s.now || Usable(s.store.cache.vals[k].image)
  {
    assert EntryOk(s.lim, s.stored, s.now, k, s.store.cache.vals[k]);
  }

  /**
   * The answer: a request is answered from the cache exactly when an unexpired entry is there,
   * fresh or stale, and then with the image of that entry, also when this is a remembered failure.
   * (A cooldown may outlast the expiry of its entry; expired entries are purged first.)
   */
  lemma AnswerIsTheEntry(s: State, st: Step)
    requires Inv(s) && Enabled(s, st) && Asks(st)
    ensures var k := Asked(s, st);
      ReplyTo(s, st) == if Presentable(s, k) then FromCache(k, s.store.cache.vals[k].image) else NoReply
  {
    var k := Asked(s, st);
    if Presentable(s, k) { FreshOrUsable(s, k); }
  }

  /** A lookup leaves the unexpired entries as they were. */
  lemma LookupKeeps(s: State, st: Step)
    requires Enabled(s, st) && Asks(st)
    ensures var m := Next(s, st);
      && (forall j :: j in m.store.cache.vals <==> Presentable(s, j))
      && (forall j | j in m.store.cache.vals :: m.store.cache.vals[j] == s.store.cache.vals[j])
  {
    GetKeepsEntry(s, st, Asked(s, st));
    CachedVals(s.store, Asked(s, st), s.now);
  }

  /** ... and moves the key it has answered to the end. */
  lemma LookupTouches(s: State, st: Step)
    requires Inv(s) && Enabled(s, st) && Asks(st) && Presentable(s, Asked(s, st))
    ensures var order := Next(s, st).store.cache.order; order != [] && order[|order| - 1] == Asked(s, st)
  {
    FreshOrUsable(s, Asked(s, st));
    GetKeepsEntry(s, st, Asked(s, st));
    CachedVals(s.store, Asked(s, st), s.now);
  }

  /** A stale answer has a refresh of its key under way afterwards; nothing else starts one. */
  lemma StaleAnswerRefreshes(s: State, st: Step)
    requires Inv(s) && Enabled(s, st) && Asks(st)
    ensures var k, m := Asked(s, st), Next(s, st);
      if Presentable(s, k) && s.store.cache.vals[k].freshUntil <= s.now && k !in s.store.registered then
        && s.store.next !in s.refreshes && m.refreshes == s.refreshes[s.store.next := Queued(k)]
        && m.store.registered == s.store.registered[k := s.store.next]
      else m.refreshes == s.refreshes && m.store.registered == s.store.registered
  {
    var k := Asked(s, st);
    if Presentable(s, k) { FreshOrUsable(s, k); }
  }

  /**
   * A request is answered once: with its reply it is gone, and without one it goes on, first to
   * the lock and from there, holding it, to its own capture.
   */
  lemma RequestsGoOn(s: State, st: Step)
    requires Inv(s) && Enabled(s, st) && (Asks(st) || st.GetCaptured?)
    ensures var m := Next(s, st);
      && (ReplyTo(s, st).NoReply? <==> st.id in m.requests)
      && (forall i | i != st.id :: i in m.requests <==> i in s.requests)
      && (forall i | i != st.id && i in s.requests :: m.requests[i] == s.requests[i])
      && (st.Get? && st.id in m.requests ==> m.requests[st.id] == AwaitingLock(st.key) && m.lock == s.lock)
      && (st.GetLocked? && st.id in m.requests ==>
            m.requests[st.id] == Capturing(s.requests[st.id].key, s.now, None) && m.lock == ByRequest(st.id))
      && (st.GetLocked? && st.id !in m.requests ==> m.lock == Nobody)
  {
    if Asks(st) { AnswerIsTheEntry(s, st); }
    if st.GetLocked? && !Presentable(s, Asked(s, st)) { MissMeansAbsent(s, Asked(s, st)); }
  }

  /** A deadline or a cancellation takes the request away, and the lock if it held it, and nothing else. */
  lemma CancelLeaves(s: State, id: nat)
    requires Inv(s) && Enabled(s, GetCancelled(id))
    ensures var m := Next(s, GetCancelled(id));
      && m.requests == s.requests - {id} && m.refreshes == s.refreshes && m.store == s.store
      && m.lock == (if s.requests[id].Capturing? then Nobody else s.lock)
  {
  }

  /**
   * The life of a refresh task: with the lock it captures or ends, its capture ends it, its
   * deadline sends it to wait for the lock once more and from there it ends, a cancellation ends
   * it anywhere, and its callback removes it. Each but the first leaves the lock free if it was
   * the task's.
   */
  lemma RefreshesGoOn(s: State, st: Step)
    requires Inv(s) && Enabled(s, st)
    requires st.RefreshLocked? || st.RefreshCaptured? || st.RefreshTimeout? || st.RefreshRecovers? || st.RefreshCancelled? || st.RefreshCallback?
    ensures var t, m := st.task, Next(s, st);
      var k := s.refreshes[t].key;
      && (st.RefreshLocked? ==> t in m.refreshes && (m.refreshes[t].Refreshing? || m.refreshes[t] == Ended(k)))
      && (st.RefreshLocked? ==> m.lock == if m.refreshes[t].Refreshing? then ByRefresh(t) else Nobody)
      && (st.RefreshCaptured? || st.RefreshRecovers? || st.RefreshCancelled? ==> t in m.refreshes && m.refreshes[t] == Ended(k))
      && (st.RefreshTimeout? ==> t in m.refreshes && m.refreshes[t] == TimedOut(k))
      && (st.RefreshCallback? ==> t !in m.refreshes)
      && (!st.RefreshLocked? ==> m.lock == if s.lock == ByRefresh(t) then Nobody else s.lock)
      && (forall u | u != t :: u in m.refreshes <==> u in s.refreshes)
      && (forall u | u != t && u in s.refreshes :: m.refreshes[u] == s.refreshes[u])
      && m.requests == s.requests
  {
  }

  // ---------------------------------------------------------------- a write

  /** The key of the capture that ends in the step. */
  function KeyOf(s: State, st: Step): Key
    requires Enabled(s, st) && (st.GetCaptured? || st.RefreshCaptured?)
  {
    if st.GetCaptured? then s.requests[st.id].key else s.refreshes[st.task].key
  }

  function Delivered(st: Step): Image
    requires st.GetCaptured? || st.RefreshCaptured?
  {
    if st.out.Captured? then st.out.image else None
  }

  /** How long what a capture brought counts as fresh: a failure is remembered only briefly. */
  function FreshFor(lim: Limits, image: Image): real {
    if Usable(image) then lim.ttl else lim.failureTtl
  }

  function PresentableFor(lim: Limits, image: Image): real {
    if Usable(image) then lim.staleTtl else lim.failureTtl
  }

  /** The entry that the end of a storing capture leaves. */
  lemma StoreLeaves(s: State, st: Step)
    requires Inv(s) && Stores(s, st)
    ensures var k, m, image := KeyOf(s, st), Next(s, st), Delivered(st);
      && k in m.store.cache.vals
      && m.store.cache.vals[k].image == image
      && m.store.cache.vals[k].freshUntil - s.now == FreshFor(s.lim, image)
      && m.store.cache.vals[k].staleUntil - s.now == PresentableFor(s.lim, image)
      && m.lock == Nobody && m.now == s.now
  {
    StoresRemembers(s, st, KeyOf(s, st), Delivered(st));
    RememberBounded(s.store.cache, s.lim, KeyOf(s, st), Delivered(st), s.now);
  }

  /** A refresh that fails keeps image and expiry, and rests from when it began to capture. */
  lemma FailedRefreshLeaves(s: State, st: Step)
    requires Enabled(s, st) && st.RefreshCaptured? && !Stores(s, st)
    ensures var r, m := s.refreshes[st.task], Next(s, st);
      && m.store.cache.vals == s.store.cache.vals[r.key := r.prior.(freshUntil := r.since + s.lim.failureTtl)]
      && m.lock == Nobody && m.now == s.now
  {
  }

  /** The handler of a timed-out refresh does the same to an entry that is still there, from now. */
  lemma RecoveryLeaves(s: State, t: nat)
    requires Inv(s) && Enabled(s, RefreshRecovers(t))
    ensures var k, m := s.refreshes[t].key, Next(s, RefreshRecovers(t));
      m.store.cache.vals == if Presentable(s, k)
        then s.store.cache.vals[k := s.store.cache.vals[k].(freshUntil := s.now + s.lim.failureTtl)]
        else s.store.cache.vals
  {
  }

  /** Discarding forgets one key and cancels its refresh, and touches no other. */
  lemma DiscardLeaves(s: State, k: Key)
    ensures var m := Next(s, Discard(k));
      && m.store.cache.vals == s.store.cache.vals - {k}
      && m.store.registered == s.store.registered - {k}
      && (forall t :: t in m.store.cancelled <==>
            t in s.store.cancelled || (k in s.store.registered && s.store.registered[k] == t))
      && m.requests == s.requests && m.refreshes == s.refreshes
  {
  }

  lemma ClearLeaves(s: State)
    ensures var m := Next(s, Clear);
      && m.store.cache.vals == map[] && m.store.registered == map[]
      && (forall t :: t in m.store.cancelled <==>
            t in s.store.cancelled || exists k :: k in s.store.registered && s.store.registered[k] == t)
      && m.requests == s.requests && m.refreshes == s.refreshes
  {
    var m := Next(s, Clear);
    forall t ensures t in m.store.cancelled <==>
      t in s.store.cancelled || exists k :: k in s.store.registered && s.store.registered[k] == t
    {
      ValuesListed(s.store.registered);
    }
  }

  // ---------------------------------------------------------------- over runs

  lemma CutNotIsKept(s: State, st: Step, k: Key, due: real)
    requires Inv(s) && Held(s, k, due) && s.now < due && !Cuts(s, st, k, due) && Next(s, st).now < due
    ensures k in Next(s, st).store.cache.vals
    ensures Next(s, st).store.cache.vals[k].image == s.store.cache.vals[k].image
  {
    HeldStep(s, st, k, due);
    if Enabled(s, st) {
      if Asks(st) {
        LookupKeeps(s, st);
      } else if st.GetCaptured? || st.RefreshCaptured? {
        CaptureWrites(s, st, KeyOf(s, st), k);
      } else {
        OthersKeepImages(s, st, k);
      }
    }
  }

  lemma OthersKeepImages(s: State, st: Step, k: Key)
    requires !Asks(st) && !st.GetCaptured? && !st.RefreshCaptured?
    requires k in s.store.cache.vals && k in Next(s, st).store.cache.vals
    ensures Next(s, st).store.cache.vals[k].image == s.store.cache.vals[k].image
  {
  }

  lemma {:induction false} TimeNeverReturns(s: State, run: seq<Step>)
    ensures After(s, run).now >= s.now
    decreases |run|
  {
    if run != [] {
      TimeAdvances(s, run[0]);
      TimeNeverReturns(Next(s, run[0]), run[1..]);
    }
  }

  lemma {:induction false} ImageKept(s: State, run: seq<Step>, k: Key, due: real)
    requires Inv(s) && Held(s, k, due) && Uncut(s, run, k, due) && After(s, run).now < due
    ensures s.now < due && k in s.store.cache.vals
    ensures var e := After(s, run);
      Inv(e) && Held(e, k, due) && e.store.cache.vals[k].image == s.store.cache.vals[k].image
    decreases |run|
  {
    TimeNeverReturns(s, run);
    if run != [] {
      TimeNeverReturns(Next(s, run[0]), run[1..]);
      StepInv(s, run[0]);
      HeldStep(s, run[0], k, due);
      CutNotIsKept(s, run[0], k, due);
      ImageKept(Next(s, run[0]), run[1..], k, due);
    }
  }

  /** While an image is held, every request for its key is answered with it. */
  lemma ServedWhileHeld(m: State, run: seq<Step>, k: Key, due: real, e: State, ask: Step)
    requires Inv(m) && Held(m, k, due) && Uncut(m, run, k, due)
    requires e == After(m, run) && e.now < due && Enabled(e, ask) && Asks(ask) && Asked(e, ask) == k
    ensures m.now < due && k in m.store.cache.vals
    ensures ReplyTo(e, ask) == FromCache(k, m.store.cache.vals[k].image) && !InCapture(e, k)
  {
    ImageKept(m, run, k, due);
    AnswerIsTheEntry(e, ask);
  }

  lemma StoredIsHeld(s: State, st: Step, due: real)
    requires Inv(s) && Stores(s, st) && due == s.now + FreshFor(s.lim, Delivered(st))
    ensures Inv(Next(s, st)) && Held(Next(s, st), KeyOf(s, st), due)
  {
    StepInv(s, st);
    StoreLeaves(s, st);
    NobodyCaptures(Next(s, st), KeyOf(s, st));
  }

  /**
   * What a capture brought is what is answered: over every uncut run, each request for the key
   * before it ceases to be fresh gets the delivered image, or the remembered failure.
   */
  lemma DeliveredIsServed(s: State, st: Step, m: State, run: seq<Step>, due: real, e: State, ask: Step)
    requires Inv(s) && Stores(s, st) && m == Next(s, st) && due == s.now + FreshFor(s.lim, Delivered(st))
    requires Uncut(m, run, KeyOf(s, st), due) && e == After(m, run) && e.now < due
    requires Enabled(e, ask) && Asks(ask) && Asked(e, ask) == KeyOf(s, st)
    ensures ReplyTo(e, ask) == FromCache(KeyOf(s, st), Delivered(st))
  {
    StoredIsHeld(s, st, due);
    StoreLeaves(s, st);
    ServedWhileHeld(m, run, KeyOf(s, st), due, e, ask);
  }

  lemma FailedIsHeld(s: State, st: Step, due: real)
    requires Inv(s) && Enabled(s, st) && st.RefreshCaptured? && !Stores(s, st)
    requires due <= s.refreshes[st.task].since + s.lim.failureTtl && due <= s.refreshes[st.task].prior.staleUntil
    ensures Inv(Next(s, st)) && Held(Next(s, st), KeyOf(s, st), due)
  {
    StepInv(s, st);
    FailedRefreshLeaves(s, st);
    NobodyCaptures(Next(s, st), KeyOf(s, st));
  }

  /**
   * After a failed refresh the old image is answered, and nothing captures the key, until
   * `failure_ttl` after that refresh began or until the image expires.
   */
  lemma FailedRefreshRests(s: State, st: Step, m: State, run: seq<Step>, due: real, e: State, ask: Step)
    requires Inv(s) && Enabled(s, st) && st.RefreshCaptured? && !Stores(s, st) && m == Next(s, st)
    requires due <= s.refreshes[st.task].since + s.lim.failureTtl && due <= s.refreshes[st.task].prior.staleUntil
    requires Uncut(m, run, KeyOf(s, st), due) && e == After(m, run) && e.now < due
    requires Enabled(e, ask) && Asks(ask) && Asked(e, ask) == KeyOf(s, st)
    ensures ReplyTo(e, ask) == FromCache(KeyOf(s, st), s.refreshes[st.task].prior.image) && !InCapture(e, KeyOf(s, st))
  {
    FailedIsHeld(s, st, due);
    FailedRefreshLeaves(s, st);
    ServedWhileHeld(m, run, KeyOf(s, st), due, e, ask);
  }
}
