/** custom_components/eufy_nvr/snapshot.py: the cached images as an insertion-ordered map. */
module SnapshotStore {
  import opened Wrappers

  /** Any hashable value, such as one camera's image size. */
  datatype Key = Key(id: nat)

  newtype Byte = x: int | 0 <= x < 256
  type Image = Option<seq<Byte>>

  /** Python truth of `bytes | None`. */
  predicate Usable(image: Image) {
    image.Some? && image.value != []
  }

  /** The instants until which the image counts as fresh and as presentable. */
  datatype Entry = Entry(freshUntil: real, staleUntil: real, image: Image)

  datatype Limits = Limits(ttl: real, timeout: real, maxEntries: nat, failureTtl: real, staleTtl: real)

  predicate ValidLimits(lim: Limits) {
    lim.ttl > 0.0 && lim.timeout > 0.0 && lim.maxEntries >= 1 && lim.failureTtl >= 0.0 && lim.staleTtl >= lim.ttl
  }

  /** `OrderedDict`: the keys from least to most recently moved, and what they map to. */
  datatype Cache = Cache(order: seq<Key>, vals: map<Key, Entry>)

  ghost predicate Distinct(order: seq<Key>) {
    forall i, j | 0 <= i < j < |order| :: order[i] != order[j]
  }

  ghost predicate Wf(c: Cache) {
    Distinct(c.order) && forall k :: k in c.order <==> k in c.vals
  }

  function Without(order: seq<Key>, gone: set<Key>): (r: seq<Key>)
    ensures forall k :: k in r <==> k in order && k !in gone
    ensures |r| <= |order|
  {
    if order == [] then []
    else if order[0] in gone then Without(order[1..], gone)
    else [order[0]] + Without(order[1..], gone)
  }

  lemma {:induction false} WithoutDistinct(order: seq<Key>, gone: set<Key>)
    requires Distinct(order)
    ensures Distinct(Without(order, gone))
  {
    if order != [] {
      WithoutDistinct(order[1..], gone);
      assert order[0] !in order[1..];
    }
  }

  lemma {:induction false} WithoutTwice(order: seq<Key>, a: set<Key>, b: set<Key>)
    ensures Without(Without(order, a), b) == Without(order, a + b)
  {
    if order != [] {
      WithoutTwice(order[1..], a, b);
    }
  }

  lemma {:induction false} WithoutNothing(order: seq<Key>, gone: set<Key>)
    requires forall k | k in order :: k !in gone
    ensures Without(order, gone) == order
  {
    if order != [] {
      assert order[0] in order && forall k | k in order[1..] :: k in order;
      WithoutNothing(order[1..], gone);
    }
  }

  lemma PopNothing(c: Cache)
    ensures PopFront(c, 0) == c
  {
    assert c.vals - Members(c.order[..0]) == c.vals;
  }

  lemma PopOneMore(c: Cache, n: nat)
    requires n < |c.order|
    ensures |PopFront(c, n).order| == |c.order| - n
    ensures Popped(PopFront(c, n)) == PopFront(c, n + 1)
  {
    assert c.order[..n + 1] == c.order[..n] + [c.order[n]];
    assert Members(c.order[..n + 1]) == Members(c.order[..n]) + {c.order[n]};
  }

  lemma RemoveNothing(c: Cache)
    ensures Remove(c, {}) == c && Members([]) == {}
  {
    WithoutNothing(c.order, {});
    assert c.vals - {} == c.vals;
  }

  lemma RemoveOneMore(c: Cache, keys: seq<Key>, i: nat)
    requires i < |keys|
    ensures Remove(Remove(c, Members(keys[..i])), {keys[i]}) == Remove(c, Members(keys[..i + 1]))
  {
    assert keys[..i + 1] == keys[..i] + [keys[i]];
    assert Members(keys[..i + 1]) == Members(keys[..i]) + {keys[i]};
    WithoutTwice(c.order, Members(keys[..i]), {keys[i]});
    assert (c.vals - Members(keys[..i])) - {keys[i]} == c.vals - Members(keys[..i + 1]);
  }

  /** Removing a key that is there shortens the order by one. */
  lemma {:induction false} WithoutOne(order: seq<Key>, k: Key)
    requires Distinct(order) && k in order
    ensures |Without(order, {k})| == |order| - 1
  {
    if order[0] == k {
      assert k !in order[1..];
      WithoutNothing(order[1..], {k});
    } else {
      WithoutOne(order[1..], k);
    }
  }

  // ---------------------------------------------------------------- dictionary operations

  function Remove(c: Cache, gone: set<Key>): Cache {
    Cache(Without(c.order, gone), c.vals - gone)
  }

  function Put(c: Cache, k: Key, e: Entry): Cache {
    Cache(if k in c.vals then c.order else c.order + [k], c.vals[k := e])
  }

  function MoveToEnd(c: Cache, k: Key): Cache {
    c.(order := Without(c.order, {k}) + [k])
  }

  /** `cache[k] = e; cache.move_to_end(k)`. */
  function SetLast(c: Cache, k: Key, e: Entry): Cache {
    MoveToEnd(Put(c, k, e), k)
  }

  function Expired(c: Cache, now: real): set<Key> {
    set k | k in c.vals && c.vals[k].staleUntil <= now
  }

  function Purge(c: Cache, now: real): Cache {
    Remove(c, Expired(c, now))
  }

  function Members(keys: seq<Key>): set<Key> {
    set k | k in keys
  }

  /** `popitem(last=False)`. */
  function Popped(c: Cache): Cache
    requires c.order != []
  {
    Cache(c.order[1..], c.vals - {c.order[0]})
  }

  /** ... `n` times. */
  function PopFront(c: Cache, n: nat): Cache
    requires n <= |c.order|
  {
    Cache(c.order[n..], c.vals - Members(c.order[..n]))
  }

  function Surplus(c: Cache, max: nat): nat {
    if |c.order| <= max then 0 else |c.order| - max
  }

  /** The oldest entries go until at most `max` remain. */
  function Evict(c: Cache, max: nat): Cache {
    PopFront(c, Surplus(c, max))
  }

  /** The entry `_remember` writes. */
  function NewEntry(lim: Limits, image: Image, now: real): Entry {
    if Usable(image) then Entry(now + lim.ttl, now + lim.staleTtl, image)
    else Entry(now + lim.failureTtl, now + lim.failureTtl, image)
  }

  function Remember(c: Cache, lim: Limits, k: Key, image: Image, now: real): Cache {
    Evict(SetLast(c, k, NewEntry(lim, image, now)), lim.maxEntries)
  }

  /** The failure paths: same image and expiry, a short cooldown counted from `since`. */
  function CoolDown(c: Cache, lim: Limits, k: Key, prior: Entry, since: real): Cache {
    SetLast(c, k, Entry(since + lim.failureTtl, prior.staleUntil, prior.image))
  }

  // ---------------------------------------------------------------- well-formedness

  lemma RemoveWf(c: Cache, gone: set<Key>)
    requires Wf(c)
    ensures Wf(Remove(c, gone)) && |Remove(c, gone).order| <= |c.order|
  {
    WithoutDistinct(c.order, gone);
  }

  lemma PutAtEnd(c: Cache, k: Key, e: Entry)
    requires Wf(c)
    ensures var r := SetLast(c, k, e);
      && Wf(r) && r.vals == c.vals[k := e]
      && r.order == Without(c.order, {k}) + [k]
      && |r.order| == if k in c.vals then |c.order| else |c.order| + 1
  {
    WithoutDistinct(c.order, {k});
    if k in c.vals {
      WithoutOne(c.order, k);
    } else {
      WithoutNothing(c.order, {k});
      assert Without(c.order + [k], {k}) == Without(c.order, {k}) by {
        WithoutAppended(c.order, k);
      }
    }
  }

  lemma {:induction false} WithoutAppended(order: seq<Key>, k: Key)
    ensures Without(order + [k], {k}) == Without(order, {k})
  {
    if order != [] {
      assert (order + [k])[1..] == order[1..] + [k];
      WithoutAppended(order[1..], k);
    }
  }

  lemma TouchWf(c: Cache, k: Key)
    requires Wf(c) && k in c.vals
    ensures Wf(MoveToEnd(c, k)) && |MoveToEnd(c, k).order| == |c.order|
  {
    WithoutDistinct(c.order, {k});
    WithoutOne(c.order, k);
  }

  lemma EvictWf(c: Cache, max: nat)
    requires Wf(c)
    ensures Wf(Evict(c, max)) && |Evict(c, max).order| <= max
  {
    var n := Surplus(c, max);
    assert c.order == c.order[..n] + c.order[n..];
    TakeDropDisjoint(c.order, n);
  }

  lemma TakeDropDisjoint(order: seq<Key>, n: nat)
    requires Distinct(order) && n <= |order|
    ensures forall k | k in order[n..] :: k !in order[..n]
  {
    forall j | n <= j < |order| ensures order[j] !in order[..n] {
      assert forall i | 0 <= i < n :: order[..n][i] == order[i];
    }
  }

  /** Remembering keeps the bound and never drops the key just stored. */
  lemma RememberBounded(c: Cache, lim: Limits, k: Key, image: Image, now: real)
    requires Wf(c) && lim.maxEntries >= 1
    ensures var r := Remember(c, lim, k, image, now);
      && Wf(r) && |r.order| <= lim.maxEntries
      && k in r.vals && r.vals[k] == NewEntry(lim, image, now)
      && r.order != [] && r.order[|r.order| - 1] == k
      && (forall j | j in r.vals && j != k :: j in c.vals && r.vals[j] == c.vals[j])
  {
    var e := NewEntry(lim, image, now);
    PutAtEnd(c, k, e);
    var m := SetLast(c, k, e);
    EvictWf(m, lim.maxEntries);
    var r := Evict(m, lim.maxEntries);
    assert r.order[|r.order| - 1] == m.order[|m.order| - 1] == k;
  }
}
