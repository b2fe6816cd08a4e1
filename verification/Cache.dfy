/** The analytics cache: a map bounded to 1000 entries with a time to live, statistics, and eviction
    of the oldest tenth; and the unbounded map with a time to live that it simulates. */
module Cache {
  import opened Results

  const MAX_CACHE_ENTRIES := 1000
  const EVICTION_COUNT := MAX_CACHE_ENTRIES / 10

  /** `data` is None for a cached null. */
  datatype Entry<V> = Entry(data: Option<V>, expiry: int, createdAt: int)

  /** `order` lists the keys in the iteration order of the map. The statistics follow. */
  datatype Store<V> = Store(order: seq<string>, entries: map<string, Entry<V>>,
                            hits: nat, misses: nat, size: nat, totalEvictions: nat)

  function Empty<V>(): (r: Store<V>)
    ensures Valid(r)
  {
    EmptyOrdered<V>();
    Store([], map[], 0, 0, 0, 0)
  }

  // ---------- removing keys ----------

  /** The keys outside `gone`, in order. */
  function Without(order: seq<string>, gone: set<string>): seq<string> {
    if order == [] then []
    else (if order[0] in gone then [] else [order[0]]) + Without(order[1..], gone)
  }

  function Remove<V>(s: Store<V>, gone: set<string>): Store<V> {
    s.(order := Without(s.order, gone), entries := s.entries - gone)
  }

  // ---------- sorting by age ----------

  function Insert<V>(key: string, sorted: seq<string>, entries: map<string, Entry<V>>): seq<string>
    requires key in entries && forall k :: k in sorted ==> k in entries
  {
    if sorted == [] then [key]
    else if entries[key].createdAt <= entries[sorted[0]].createdAt then [key] + sorted
    else [sorted[0]] + Insert(key, sorted[1..], entries)
  }

  function Elems(keys: seq<string>): set<string> {
    set k | k in keys
  }

  predicate NoRepeats(keys: seq<string>) {
    |Elems(keys)| == |keys|
  }

  lemma ElemsCons(key: string, keys: seq<string>)
    ensures Elems([key] + keys) == {key} + Elems(keys)
  {
  }

  /** The stable sort by creation time. */
  function SortByAge<V>(order: seq<string>, entries: map<string, Entry<V>>): (r: seq<string>)
    requires Elems(order) <= entries.Keys
    ensures Elems(r) == Elems(order) && |r| == |order|
  {
    if order == [] then []
    else
      var sorted := SortByAge(order[1..], entries);
      InsertKeeps(order[0], sorted, entries);
      assert Elems(order) == Elems(order[1..]) + {order[0]};
      Insert(order[0], sorted, entries)
  }

  lemma {:induction false} InsertKeeps<V>(key: string, sorted: seq<string>, entries: map<string, Entry<V>>)
    requires key in entries && forall k :: k in sorted ==> k in entries
    ensures Elems(Insert(key, sorted, entries)) == Elems(sorted) + {key}
    ensures |Insert(key, sorted, entries)| == |sorted| + 1
  {
    hide Elems;
    ElemsCons(key, sorted);
    if sorted == [] {
      assert [key] + sorted == [key];
    } else {
      InsertKeeps(key, sorted[1..], entries);
      assert sorted == [sorted[0]] + sorted[1..];
      ElemsCons(sorted[0], sorted[1..]);
      ElemsCons(sorted[0], Insert(key, sorted[1..], entries));
    }
  }

  ghost predicate Ascending<V>(sorted: seq<string>, entries: map<string, Entry<V>>)
    requires Elems(sorted) <= entries.Keys
  {
    sorted != [] ==>
      && (forall k :: k in Elems(sorted) ==> entries[sorted[0]].createdAt <= entries[k].createdAt)
      && Ascending(sorted[1..], entries)
  }

  lemma {:induction false} InsertAscending<V>(key: string, sorted: seq<string>, entries: map<string, Entry<V>>)
    requires key in entries && Elems(sorted) <= entries.Keys && Ascending(sorted, entries)
    ensures Elems(Insert(key, sorted, entries)) <= entries.Keys
    ensures Ascending(Insert(key, sorted, entries), entries)
  {
    InsertKeeps(key, sorted, entries);
    var r := Insert(key, sorted, entries);
    if sorted == [] {
      assert r == [key] && r[1..] == [];
    } else if entries[key].createdAt <= entries[sorted[0]].createdAt {
      assert r[1..] == sorted;
    } else {
      InsertAscending(key, sorted[1..], entries);
      assert r[1..] == Insert(key, sorted[1..], entries);
    }
  }

  lemma {:induction false} SortAscending<V>(order: seq<string>, entries: map<string, Entry<V>>)
    requires Elems(order) <= entries.Keys
    ensures Ascending(SortByAge(order, entries), entries)
  {
    if order != [] {
      SortAscending(order[1..], entries);
      InsertAscending(order[0], SortByAge(order[1..], entries), entries);
    }
  }

  lemma {:induction false} PrefixOlder<V>(sorted: seq<string>, entries: map<string, Entry<V>>, n: nat)
    requires Elems(sorted) <= entries.Keys && Ascending(sorted, entries) && n <= |sorted|
    ensures forall v, k :: v in Elems(sorted[..n]) && k in Elems(sorted[n..]) ==> entries[v].createdAt <= entries[k].createdAt
  {
    if n > 0 {
      PrefixOlder(sorted[1..], entries, n - 1);
      assert sorted[1..][..n - 1] == sorted[1..n] && sorted[1..][n - 1..] == sorted[n..];
      assert Elems(sorted[..n]) == Elems(sorted[1..n]) + {sorted[0]};
    }
  }

  /** The keys `evictOldestEntries(count)` deletes. */
  function Oldest<V>(s: Store<V>, count: nat): set<string>
    requires Ordered(s.order, s.entries)
  {
    var sorted := SortByAge(s.order, s.entries);
    Elems(sorted[..if count < |sorted| then count else |sorted|])
  }

  // ---------- the operations ----------

  /** The order lists every key once. */
  ghost predicate Ordered<V>(order: seq<string>, entries: map<string, Entry<V>>) {
    Elems(order) == entries.Keys && NoRepeats(order)
  }

  function GetStep<V>(s: Store<V>, key: string, now: int): (Store<V>, Option<V>) {
    if key !in s.entries then (s.(misses := s.misses + 1), None)
    else if now > s.entries[key].expiry then
      var t := Remove(s, {key});
      (t.(misses := s.misses + 1, size := |t.entries|), None)
    else (s.(hits := s.hits + 1), s.entries[key].data)
  }

  function EvictStep<V>(s: Store<V>, count: nat): Store<V>
    requires Ordered(s.order, s.entries)
  {
    var gone := Oldest(s, count);
    var t := Remove(s, gone);
    t.(totalEvictions := s.totalEvictions + |gone|, size := |t.entries|)
  }

  predicate MustEvict<V>(s: Store<V>, key: string) {
    |s.entries| >= MAX_CACHE_ENTRIES && key !in s.entries
  }

  function Put<V>(s: Store<V>, key: string, entry: Entry<V>): Store<V> {
    s.(order := if key in s.entries then s.order else s.order + [key],
       entries := s.entries[key := entry],
       size := |s.entries[key := entry]|)
  }

  function SetStep<V>(s: Store<V>, key: string, data: Option<V>, ttl: int, now: int): Store<V>
    requires Ordered(s.order, s.entries)
  {
    Put(if MustEvict(s, key) then EvictStep(s, EVICTION_COUNT) else s, key, Entry(data, now + ttl, now))
  }

  function DeleteStep<V>(s: Store<V>, key: string): (Store<V>, bool) {
    if key !in s.entries then (s, false)
    else
      var t := Remove(s, {key});
      (t.(size := |t.entries|), true)
  }

  function Matching<V>(s: Store<V>, matches: string -> bool): set<string> {
    set k | k in s.entries && matches(k)
  }

  /** `matches` is the test of the regular expression. */
  function InvalidateStep<V>(s: Store<V>, matches: string -> bool): (Store<V>, nat) {
    var gone := Matching(s, matches);
    var t := Remove(s, gone);
    (t.(size := |t.entries|, totalEvictions := s.totalEvictions + |gone|), |gone|)
  }

  function ClearStep<V>(s: Store<V>): Store<V> {
    s.(order := [], entries := map[], size := 0, totalEvictions := s.totalEvictions + |s.entries|)
  }

  function Expired<V>(s: Store<V>, now: int): set<string> {
    set k | k in s.entries && now > s.entries[k].expiry
  }

  function CleanupStep<V>(s: Store<V>, now: int): Store<V> {
    var gone := Expired(s, now);
    var t := Remove(s, gone);
    if |gone| > 0 then t.(size := |t.entries|, totalEvictions := s.totalEvictions + |gone|) else t
  }

  // ---------- the order and the bound ----------

  ghost predicate Valid<V>(s: Store<V>) {
    Ordered(s.order, s.entries) && |s.entries| <= MAX_CACHE_ENTRIES && s.size == |s.entries|
  }

  lemma {:induction false} ElemsSize(keys: seq<string>)
    ensures |Elems(keys)| <= |keys|
  {
    if keys != [] {
      ElemsSize(keys[1..]);
      assert Elems(keys) == Elems(keys[1..]) + {keys[0]};
    }
  }

  lemma NoRepeatsCons(key: string, keys: seq<string>)
    ensures NoRepeats([key] + keys) <==> NoRepeats(keys) && key !in keys
  {
    ElemsCons(key, keys);
    ElemsSize(keys);
  }

  lemma {:induction false} WithoutKeys(order: seq<string>, gone: set<string>)
    ensures forall k :: k in Without(order, gone) <==> k in order && k !in gone
    ensures NoRepeats(order) ==> NoRepeats(Without(order, gone))
  {
    hide NoRepeats;
    if order != [] {
      var head, tail := order[0], order[1..];
      WithoutKeys(tail, gone);
      assert order == [head] + tail;
      NoRepeatsCons(head, tail);
      NoRepeatsCons(head, Without(tail, gone));
      assert Without(order, gone) == if head in gone then Without(tail, gone) else [head] + Without(tail, gone);
    } else {
      assert Without(order, gone) == order;
    }
  }

  lemma RemoveOrdered<V>(s: Store<V>, gone: set<string>)
    requires Ordered(s.order, s.entries)
    ensures Ordered(Remove(s, gone).order, Remove(s, gone).entries)
    ensures gone <= s.entries.Keys ==> |Remove(s, gone).entries| + |gone| == |s.entries|
  {
    hide Without, NoRepeats;
    WithoutKeys(s.order, gone);
    RemoveSize(s.entries, gone);
  }

  lemma RemoveSize<V>(entries: map<string, Entry<V>>, gone: set<string>)
    ensures (entries - gone).Keys == entries.Keys - gone
    ensures gone <= entries.Keys ==> |entries - gone| + |gone| == |entries|
  {
    var left := entries - gone;
    assert |entries.Keys| == |entries| && |left.Keys| == |left|;
    if gone <= entries.Keys {
      assert entries.Keys == left.Keys + gone;
    }
  }

  /** Eviction takes exactly `count` keys, or all, and none of them is newer than a key that stays. */
  lemma OldestShape<V>(s: Store<V>, count: nat)
    requires Ordered(s.order, s.entries)
    ensures Oldest(s, count) <= s.entries.Keys
    ensures |Oldest(s, count)| == if count < |s.entries| then count else |s.entries|
    ensures forall v, k :: v in Oldest(s, count) && k in s.entries && k !in Oldest(s, count) ==>
              s.entries[v].createdAt <= s.entries[k].createdAt
  {
    hide Ascending, SortByAge;
    var sorted := SortByAge(s.order, s.entries);
    var n := if count < |sorted| then count else |sorted|;
    SortAscending(s.order, s.entries);
    PrefixOlder(sorted, s.entries, n);
    assert sorted == sorted[..n] + sorted[n..];
    assert Elems(sorted) == Elems(sorted[..n]) + Elems(sorted[n..]);
    ElemsSize(sorted[..n]);
    ElemsSize(sorted[n..]);
    assert |s.entries.Keys| == |s.entries|;
  }

  lemma PutOrdered<V>(s: Store<V>, key: string, entry: Entry<V>)
    requires Ordered(s.order, s.entries)
    ensures Ordered(Put(s, key, entry).order, Put(s, key, entry).entries)
    ensures |Put(s, key, entry).entries| == |s.entries| + if key in s.entries then 0 else 1
  {
    var t := Put(s, key, entry);
    assert t.entries.Keys == s.entries.Keys + {key};
    assert |s.entries.Keys| == |s.entries| && |t.entries.Keys| == |t.entries|;
    ElemsSize(s.order);
    assert key !in s.entries ==> Elems(s.order + [key]) == Elems(s.order) + {key};
  }

  // ---------- runs ----------

  datatype Event<V> =
    | Get(key: string)
    | Set(key: string, data: Option<V>, ttl: int)
    | Delete(key: string)
    | Invalidate(matches: string -> bool)
    | Clear
    | Cleanup

  /** An event and the clock reading it makes. */
  datatype Timed<V> = At(now: int, event: Event<V>)

  function Step<V>(s: Store<V>, e: Timed<V>): Store<V>
    requires Valid(s)
  {
    match e.event
    case Get(key) => GetStep(s, key, e.now).0
    case Set(key, data, ttl) => SetStep(s, key, data, ttl, e.now)
    case Delete(key) => DeleteStep(s, key).0
    case Invalidate(matches) => InvalidateStep(s, matches).0
    case Clear => ClearStep(s)
    case Cleanup => CleanupStep(s, e.now)
  }

  lemma EvictKeepsValid<V>(s: Store<V>, count: nat)
    requires Valid(s)
    ensures Valid(EvictStep(s, count))
    ensures |EvictStep(s, count).entries| == |s.entries| - if count < |s.entries| then count else |s.entries|
    ensures EvictStep(s, count).totalEvictions == s.totalEvictions + |s.entries| - |EvictStep(s, count).entries|
  {
    hide Oldest;
    OldestShape(s, count);
    RemoveOrdered(s, Oldest(s, count));
  }

  lemma SetKeepsValid<V>(s: Store<V>, key: string, data: Option<V>, ttl: int, now: int)
    requires Valid(s)
    ensures Valid(SetStep(s, key, data, ttl, now))
  {
    hide Oldest, Ordered, EvictStep, Put;
    EvictKeepsValid(s, EVICTION_COUNT);
    var t := if MustEvict(s, key) then EvictStep(s, EVICTION_COUNT) else s;
    PutOrdered(t, key, Entry(data, now + ttl, now));
    PutSize(t, key, Entry(data, now + ttl, now));
  }

  lemma PutSize<V>(s: Store<V>, key: string, entry: Entry<V>)
    ensures Put(s, key, entry).size == |Put(s, key, entry).entries|
  {
  }

  lemma RemoveKeepsValid<V>(s: Store<V>, gone: set<string>)
    requires Valid(s)
    ensures Ordered(Remove(s, gone).order, Remove(s, gone).entries) && |Remove(s, gone).entries| <= |s.entries|
    ensures |gone| == 0 ==> |Remove(s, gone).entries| == |s.entries|
    ensures Remove(s, gone).size == s.size
  {
    hide Ordered, Without;
    RemoveOrdered(s, gone);
    if |gone| == 0 { assert gone == {} && s.entries - gone == s.entries; }
    RemoveOrdered(s, gone * s.entries.Keys);
    assert s.entries - gone == s.entries - (gone * s.entries.Keys);
  }

  lemma StepKeepsValid<V>(s: Store<V>, e: Timed<V>)
    requires Valid(s)
    ensures Valid(Step(s, e))
  {
    hide Ordered, Remove, SetStep;
    match e.event
    case Get(key) => RemoveKeepsValid(s, {key});
    case Set(key, data, ttl) => SetKeepsValid(s, key, data, ttl, e.now);
    case Delete(key) => RemoveKeepsValid(s, {key});
    case Invalidate(matches) => RemoveKeepsValid(s, Matching(s, matches));
    case Clear => EmptyOrdered<V>();
    case Cleanup => RemoveKeepsValid(s, Expired(s, e.now));
  }

  lemma InvalidateKeepsValid<V>(s: Store<V>, matches: string -> bool)
    requires Valid(s)
    ensures Valid(InvalidateStep(s, matches).0)
  {
    StepKeepsValid(s, At(0, Invalidate(matches)));
    hide Valid, InvalidateStep;
  }

  lemma CleanupKeepsValid<V>(s: Store<V>, now: int)
    requires Valid(s)
    ensures Valid(CleanupStep(s, now))
  {
    StepKeepsValid(s, At(now, Cleanup));
    hide Valid, CleanupStep;
  }

  /** The keys an event other than a set removes. */
  function Gone<V>(s: Store<V>, e: Timed<V>): set<string> {
    match e.event
    case Get(key) => if key in s.entries && e.now > s.entries[key].expiry then {key} else {}
    case Set(_, _, _) => {}
    case Delete(key) => if key in s.entries then {key} else {}
    case Invalidate(matches) => Matching(s, matches)
    case Clear => s.entries.Keys
    case Cleanup => Expired(s, e.now)
  }

  lemma RemoveNothing<V>(entries: map<string, Entry<V>>)
    ensures entries - {} == entries
    ensures entries - entries.Keys == map[]
  {
  }

  lemma GoneKeys<V>(s: Store<V>, e: Timed<V>)
    ensures Gone(s, e) <= s.entries.Keys
  {
    hide Expired, Matching;
    ExpiredKeys(s, e.now);
    if e.event.Invalidate? { MatchingKeys(s, e.event.matches); }
  }

  lemma StepRemoves<V>(s: Store<V>, e: Timed<V>)
    requires Valid(s) && !e.event.Set?
    ensures Step(s, e).entries == s.entries - Gone(s, e)
  {
    hide Valid, Without, Expired, Matching, SetStep, EvictStep, Put;
    match e.event
    case Get(_) => RemoveNothing(s.entries);
    case Delete(_) => RemoveNothing(s.entries);
    case Clear => RemoveNothing(s.entries);
    case Invalidate(_) =>
    case Cleanup =>
  }

  lemma StepEntries<V>(s: Store<V>, e: Timed<V>)
    requires Valid(s) && !e.event.Set?
    ensures Gone(s, e) <= s.entries.Keys
    ensures Step(s, e).entries == s.entries - Gone(s, e)
    ensures |Step(s, e).entries| + |Gone(s, e)| == |s.entries|
  {
    hide Step, Gone, Valid;
    GoneKeys(s, e);
    StepRemoves(s, e);
    RemoveSize(s.entries, Gone(s, e));
  }

  lemma ExpiredKeys<V>(s: Store<V>, now: int)
    ensures Expired(s, now) <= s.entries.Keys
  {
  }

  lemma MatchingKeys<V>(s: Store<V>, matches: string -> bool)
    ensures Matching(s, matches) <= s.entries.Keys
  {
  }

  lemma EmptyOrdered<V>()
    ensures Ordered<V>([], map[])
  {
  }

  function Run<V>(s: Store<V>, events: seq<Timed<V>>): (r: Store<V>)
    requires Valid(s)
    ensures Valid(r)
    decreases |events|
  {
    if events == [] then s
    else
      StepKeepsValid(s, events[0]);
      Run(Step(s, events[0]), events[1..])
  }

  // ---------- the unbounded map ----------

  datatype Item<V> = Item(data: Option<V>, expiry: int)

  function IdealStep<V>(m: map<string, Item<V>>, e: Timed<V>): map<string, Item<V>> {
    match e.event
    case Get(_) => m
    case Set(key, data, ttl) => m[key := Item(data, e.now + ttl)]
    case Delete(key) => m - {key}
    case Invalidate(matches) => map k | k in m && !matches(k) :: m[k]
    case Clear => map[]
    case Cleanup => m
  }

  function IdealRun<V>(m: map<string, Item<V>>, events: seq<Timed<V>>): map<string, Item<V>>
    decreases |events|
  {
    if events == [] then m else IdealRun(IdealStep(m, events[0]), events[1..])
  }

  /** The live value of a key; None when there is none, or when it is null. */
  function IdealGet<V>(m: map<string, Item<V>>, key: string, now: int): Option<V> {
    if key in m && now <= m[key].expiry then m[key].data else None
  }

  predicate SubMap<V(==)>(s: Store<V>, m: map<string, Item<V>>) {
    forall k :: k in s.entries ==> k in m && m[k] == Item(s.entries[k].data, s.entries[k].expiry)
  }

  lemma StepKeepsSubMap<V>(s: Store<V>, m: map<string, Item<V>>, e: Timed<V>)
    requires Valid(s) && SubMap(s, m)
    ensures SubMap(Step(s, e), IdealStep(m, e))
  {
    if e.event.Set? {
      hide Oldest, Ordered, Without;
    } else {
      StepEntries(s, e);
      hide Step, Valid;
    }
  }

  lemma {:induction false} RunKeepsSubMap<V>(s: Store<V>, m: map<string, Item<V>>, events: seq<Timed<V>>)
    requires Valid(s) && SubMap(s, m)
    ensures SubMap(Run(s, events), IdealRun(m, events))
    decreases |events|
  {
    hide Valid, Step, IdealStep, SubMap;
    if events != [] {
      StepKeepsValid(s, events[0]);
      StepKeepsSubMap(s, m, events[0]);
      RunKeepsSubMap(Step(s, events[0]), IdealStep(m, events[0]), events[1..]);
    }
  }

  /** After every run, whatever its clock readings, the cache is part of the unbounded map, and a hit
      returns the unbounded map's live value. */
  lemma HitsAreLive<V>(events: seq<Timed<V>>, key: string, now: int)
    ensures SubMap(Run(Empty<V>(), events), IdealRun(map[], events))
    ensures var r := GetStep(Run(Empty<V>(), events), key, now).1;
            r.Some? ==> r == IdealGet(IdealRun(map[], events), key, now)
  {
    hide Run, IdealRun;
    EmptyOrdered<V>();
    RunKeepsSubMap(Empty<V>(), map[], events);
  }

  // ---------- without eviction ----------

  predicate Evicts<V>(s: Store<V>, e: Timed<V>) {
    e.event.Set? && MustEvict(s, e.event.key)
  }

  /** Clock readings from `now` on that never go back. */
  predicate Monotone<V>(now: int, events: seq<Timed<V>>)
    decreases |events|
  {
    events != [] ==> now <= events[0].now && Monotone(events[0].now, events[1..])
  }

  ghost predicate NeverEvicts<V>(s: Store<V>, events: seq<Timed<V>>)
    requires Valid(s)
    decreases |events|
  {
    events != [] ==>
      && !Evicts(s, events[0])
      && (StepKeepsValid(s, events[0]); NeverEvicts(Step(s, events[0]), events[1..]))
  }

  /** Whatever is still live in the unbounded map at `now` is in the cache. */
  predicate Covers<V>(s: Store<V>, m: map<string, Item<V>>, now: int) {
    forall k :: k in m && now <= m[k].expiry ==> k in s.entries
  }

  lemma StepKeepsCovers<V>(s: Store<V>, m: map<string, Item<V>>, e: Timed<V>, now: int)
    requires Valid(s) && SubMap(s, m) && Covers(s, m, now) && now <= e.now && !Evicts(s, e)
    ensures Covers(Step(s, e), IdealStep(m, e), e.now)
  {
    if e.event.Set? {
      hide Oldest, Ordered, Without;
    } else {
      StepEntries(s, e);
      hide Step, Valid;
    }
  }

  /** The time after a run. */
  function EndTime<V>(now: int, events: seq<Timed<V>>): int
    decreases |events|
  {
    if events == [] then now else EndTime(events[0].now, events[1..])
  }

  lemma {:induction false} RunKeepsCovers<V>(s: Store<V>, m: map<string, Item<V>>, events: seq<Timed<V>>, now: int)
    requires Valid(s) && SubMap(s, m) && Covers(s, m, now) && Monotone(now, events) && NeverEvicts(s, events)
    ensures Covers(Run(s, events), IdealRun(m, events), EndTime(now, events))
    decreases |events|
  {
    hide Valid, Step, IdealStep, SubMap, Covers, Evicts;
    if events != [] {
      StepKeepsValid(s, events[0]);
      StepKeepsSubMap(s, m, events[0]);
      StepKeepsCovers(s, m, events[0], now);
      RunKeepsCovers(Step(s, events[0]), IdealStep(m, events[0]), events[1..], events[0].now);
    }
  }

  /** Only eviction makes a difference: while no set has had to evict and the clock has not gone back,
      every get answers exactly as the unbounded map. */
  lemma ExactWithoutEviction<V>(events: seq<Timed<V>>, start: int, key: string, now: int)
    requires Monotone(start, events) && NeverEvicts(Empty<V>(), events)
    requires EndTime(start, events) <= now
    ensures GetStep(Run(Empty<V>(), events), key, now).1 == IdealGet(IdealRun(map[], events), key, now)
  {
    hide Run, IdealRun, Valid, Monotone, NeverEvicts;
    RunKeepsSubMap(Empty<V>(), map[], events);
    RunKeepsCovers(Empty<V>(), map[], events, start);
  }

  // ---------- cleaning up ----------

  /** `c` is `s` without some entries that are expired at `now`. */
  ghost predicate CleanedOf<V>(s: Store<V>, c: Store<V>, now: int) {
    && (forall k :: k in c.entries ==> k in s.entries && s.entries[k] == c.entries[k])
    && (forall k :: k in s.entries && now <= s.entries[k].expiry ==> k in c.entries)
  }

  lemma SetKeepsCleaned<V>(s: Store<V>, c: Store<V>, e: Timed<V>, now: int)
    requires Valid(s) && Valid(c) && CleanedOf(s, c, now) && now <= e.now
    requires e.event.Set? && !Evicts(s, e)
    ensures CleanedOf(Step(s, e), Step(c, e), e.now)
  {
    CleanedIsSmaller(s, c, e, now);
    hide Ordered, EvictStep;
  }

  lemma SameGone<V>(s: Store<V>, c: Store<V>, e: Timed<V>)
    requires forall k :: k in c.entries ==> k in s.entries && s.entries[k] == c.entries[k]
    ensures forall k :: k in c.entries ==> (k in Gone(s, e) <==> k in Gone(c, e))
  {
  }

  /** Removing the same keys from both keeps the relation. */
  lemma RemovalKeepsCleaned<V>(s: Store<V>, c: Store<V>, s': Store<V>, c': Store<V>, gone: set<string>, cGone: set<string>,
                               now: int, later: int)
    requires CleanedOf(s, c, now) && now <= later
    requires s'.entries == s.entries - gone && c'.entries == c.entries - cGone
    requires forall k :: k in c.entries ==> (k in gone <==> k in cGone)
    ensures CleanedOf(s', c', later)
  {
  }

  lemma StepKeepsCleaned<V>(s: Store<V>, c: Store<V>, e: Timed<V>, now: int)
    requires Valid(s) && Valid(c) && CleanedOf(s, c, now) && now <= e.now && !Evicts(s, e)
    ensures CleanedOf(Step(s, e), Step(c, e), e.now)
  {
    if e.event.Set? {
      SetKeepsCleaned(s, c, e, now);
    } else {
      StepEntries(s, e);
      StepEntries(c, e);
      SameGone(s, c, e);
      hide Step, Valid, Gone;
      RemovalKeepsCleaned(s, c, Step(s, e), Step(c, e), Gone(s, e), Gone(c, e), now, e.now);
    }
  }

  lemma SameAnswer<V>(s: Store<V>, c: Store<V>, key: string, now: int, later: int)
    requires CleanedOf(s, c, now) && now <= later
    ensures GetStep(s, key, later).1 == GetStep(c, key, later).1
  {
    hide Remove;
  }

  /** A store without some of the entries does not evict where the full one does not. */
  lemma CleanedIsSmaller<V>(s: Store<V>, c: Store<V>, e: Timed<V>, now: int)
    requires Valid(s) && CleanedOf(s, c, now) && e.event.Set? && !Evicts(s, e)
    ensures !Evicts(c, e)
  {
    hide Ordered;
    SubsetSize(c.entries.Keys, s.entries.Keys);
    assert |c.entries.Keys| == |c.entries| && |s.entries.Keys| == |s.entries|;
  }

  lemma SubsetSize(a: set<string>, b: set<string>)
    requires a <= b
    ensures |a| <= |b|
    ensures a != b ==> |a| < |b|
  {
    assert b == a + (b - a);
    if a != b {
      var x :| x in b && x !in a;
      assert x in b - a;
    }
  }

  /** The answers of the gets of a run. */
  function Answers<V>(s: Store<V>, events: seq<Timed<V>>): seq<Option<V>>
    requires Valid(s)
    decreases |events|
  {
    if events == [] then []
    else
      StepKeepsValid(s, events[0]);
      (if events[0].event.Get? then [GetStep(s, events[0].event.key, events[0].now).1] else [])
      + Answers(Step(s, events[0]), events[1..])
  }

  lemma {:induction false} CleanedAnswers<V>(s: Store<V>, c: Store<V>, events: seq<Timed<V>>, now: int)
    requires Valid(s) && Valid(c) && CleanedOf(s, c, now) && Monotone(now, events) && NeverEvicts(s, events)
    ensures Answers(s, events) == Answers(c, events)
    decreases |events|
  {
    hide Valid, Step, CleanedOf, Evicts, GetStep;
    if events != [] {
      StepKeepsValid(s, events[0]);
      StepKeepsValid(c, events[0]);
      StepKeepsCleaned(s, c, events[0], now);
      if events[0].event.Get? { SameAnswer(s, c, events[0].event.key, now, events[0].now); }
      CleanedAnswers(Step(s, events[0]), Step(c, events[0]), events[1..], events[0].now);
    }
  }

  /** Cleaning up changes no answer of any later run, as long as no set of that run has to evict. */
  lemma CleanupInvisible<V>(s: Store<V>, events: seq<Timed<V>>, now: int)
    requires Valid(s) && Monotone(now, events) && NeverEvicts(s, events)
    ensures Valid(CleanupStep(s, now))
    ensures Answers(CleanupStep(s, now), events) == Answers(s, events)
  {
    StepKeepsValid(s, At(now, Cleanup));
    CleanedNow(s, now);
    CleanedAnswers(s, CleanupStep(s, now), events, now);
  }

  lemma {:induction false} RunKeepsCleaned<V>(s: Store<V>, c: Store<V>, events: seq<Timed<V>>, now: int)
    requires Valid(s) && Valid(c) && CleanedOf(s, c, now) && Monotone(now, events) && NeverEvicts(s, events)
    ensures CleanedOf(Run(s, events), Run(c, events), EndTime(now, events))
    decreases |events|
  {
    hide Valid, Step, CleanedOf, Evicts;
    if events != [] {
      StepKeepsValid(s, events[0]);
      StepKeepsValid(c, events[0]);
      StepKeepsCleaned(s, c, events[0], now);
      RunKeepsCleaned(Step(s, events[0]), Step(c, events[0]), events[1..], events[0].now);
    }
  }

  /** The two stores may list the same keys in different orders. Their evictions then differ in keys created at the
      same time only. */
  lemma OnlyTiesDiffer<V>(s: Store<V>, c: Store<V>, count: nat, key: string)
    requires Ordered(s.order, s.entries) && Ordered(c.order, c.entries) && s.entries == c.entries
    requires key in Oldest(s, count) && key !in Oldest(c, count)
    ensures exists k :: k in s.entries && k != key && s.entries[k].createdAt == s.entries[key].createdAt
  {
    OldestShape(s, count);
    OldestShape(c, count);
    var a, b := Oldest(s, count), Oldest(c, count);
    hide Ordered, Oldest;
    if b <= a { SubsetSize(b, a); }
    var k :| k in b && k !in a;
    assert k in s.entries && k != key;
  }

  /** A store with fewer entries has no more keys of its own; with as many it has the same entries. */
  lemma CleanedEvicts<V>(s: Store<V>, c: Store<V>, key: string, now: int)
    requires Valid(s) && Valid(c) && CleanedOf(s, c, now) && MustEvict(s, key)
    ensures MustEvict(c, key) <==> c.entries == s.entries
  {
    assert |c.entries.Keys| == |c.entries| && |s.entries.Keys| == |s.entries|;
    SubsetSize(c.entries.Keys, s.entries.Keys);
    hide Ordered;
    if c.entries.Keys == s.entries.Keys {
      assert forall k :: k in c.entries <==> k in c.entries.Keys;
      assert forall k :: k in s.entries <==> k in s.entries.Keys;
      assert c.entries == s.entries;
    }
  }

  /** With an eviction it does. Take any later run up to the first set that has to evict. The clean-up changes the
      answer for another key exactly when that key's value is still live and one of the two stores
      evicts it while the other does not; the cleaned store evicts exactly when all that was removed is back, and
      then the evictions can differ in keys of the same age only. */
  lemma CleanupVisibleIff<V>(s: Store<V>, now: int, events: seq<Timed<V>>, key: string, data: Option<V>, ttl: int, at: int,
                             other: string, later: int)
    requires Valid(s) && Monotone(now, events) && NeverEvicts(s, events) && EndTime(now, events) <= at <= later
    requires MustEvict(Run(s, events), key) && other != key
    ensures Valid(CleanupStep(s, now))
    ensures var f, c := Run(s, events), Run(CleanupStep(s, now), events);
            && (GetStep(SetStep(c, key, data, ttl, at), other, later).1 != GetStep(SetStep(f, key, data, ttl, at), other, later).1
                <==> && other in f.entries && later <= f.entries[other].expiry && f.entries[other].data.Some?
                     && (other in Oldest(f, EVICTION_COUNT) <==> !(c.entries == f.entries && other in Oldest(c, EVICTION_COUNT))))
            && (c.entries == f.entries && (other in Oldest(f, EVICTION_COUNT)) != (other in Oldest(c, EVICTION_COUNT)) ==>
                  exists k :: k in f.entries && k != other && f.entries[k].createdAt == f.entries[other].createdAt)
  {
    hide CleanupStep, Run, NeverEvicts, Monotone, EndTime, CleanedOf, NoRepeats, Elems, Oldest, MustEvict, SetStep, GetStep;
    CleanedRuns(s, now, events);
    var f, c := Run(s, events), Run(CleanupStep(s, now), events);
    CleanedSetAnswers(f, c, EndTime(now, events), key, data, ttl, at, other, later);
    if c.entries == f.entries { TiesOnly(f, c, other); }
  }

  lemma CleanedSetAnswers<V>(s: Store<V>, c: Store<V>, now: int, key: string, data: Option<V>, ttl: int, at: int,
                             other: string, later: int)
    requires Valid(s) && Valid(c) && CleanedOf(s, c, now) && now <= later && MustEvict(s, key) && other != key
    ensures GetStep(SetStep(c, key, data, ttl, at), other, later).1 != GetStep(SetStep(s, key, data, ttl, at), other, later).1
            <==> && other in s.entries && later <= s.entries[other].expiry && s.entries[other].data.Some?
                 && (other in Oldest(s, EVICTION_COUNT) <==> !(c.entries == s.entries && other in Oldest(c, EVICTION_COUNT)))
  {
    hide Oldest, SetStep, GetStep;
    CleanedEvicts(s, c, key, now);
    SetAnswers(s, key, data, ttl, at, other, later);
    SetAnswers(c, key, data, ttl, at, other, later);
    SameAnswer(s, c, other, now, later);
    AnswerIs(s, other, later);
    hide Ordered, CleanedOf, MustEvict;
  }

  lemma CleanedRuns<V>(s: Store<V>, now: int, events: seq<Timed<V>>)
    requires Valid(s) && Monotone(now, events) && NeverEvicts(s, events)
    ensures Valid(CleanupStep(s, now))
    ensures CleanedOf(Run(s, events), Run(CleanupStep(s, now), events), EndTime(now, events))
  {
    StepKeepsValid(s, At(now, Cleanup));
    CleanedNow(s, now);
    hide Valid, CleanupStep;
    RunKeepsCleaned(s, CleanupStep(s, now), events, now);
  }

  lemma CleanedNow<V>(s: Store<V>, now: int)
    requires Valid(s)
    ensures CleanedOf(s, CleanupStep(s, now), now)
  {
    hide Without;
  }

  lemma TiesOnly<V>(s: Store<V>, c: Store<V>, key: string)
    requires Valid(s) && Valid(c) && s.entries == c.entries
    ensures (key in Oldest(s, EVICTION_COUNT)) != (key in Oldest(c, EVICTION_COUNT)) ==>
              exists k :: k in s.entries && k != key && s.entries[k].createdAt == s.entries[key].createdAt
  {
    hide Ordered, Oldest;
    if key in Oldest(s, EVICTION_COUNT) && key !in Oldest(c, EVICTION_COUNT) { OnlyTiesDiffer(s, c, EVICTION_COUNT, key); }
    if key in Oldest(c, EVICTION_COUNT) && key !in Oldest(s, EVICTION_COUNT) { OnlyTiesDiffer(c, s, EVICTION_COUNT, key); }
  }

  lemma CleanedHasRoom<V>(s: Store<V>, key: string, now: int)
    requires Valid(s) && MustEvict(s, key) && Expired(s, now) != {}
    ensures !MustEvict(CleanupStep(s, now), key)
    ensures forall k, later :: now <= later ==> GetStep(CleanupStep(s, now), k, later).1 == GetStep(s, k, later).1
  {
    StepEntries(s, At(now, Cleanup));
    var gone := Expired(s, now);
    assert |gone| > 0;
    hide Ordered, Oldest, Without;
  }

  lemma AnswerIs<V>(s: Store<V>, key: string, now: int)
    ensures GetStep(s, key, now).1 == if key in s.entries && now <= s.entries[key].expiry then s.entries[key].data else None
  {
    hide Remove;
  }

  lemma AnswerAfterPut<V>(s: Store<V>, key: string, entry: Entry<V>, other: string, now: int)
    requires other != key
    ensures GetStep(Put(s, key, entry), other, now).1 == GetStep(s, other, now).1
  {
    hide Remove;
  }

  function Unary(n: nat): string {
    if n == 0 then "" else "a" + Unary(n - 1)
  }

  lemma {:induction false} UnaryLength(n: nat)
    ensures |Unary(n)| == n
  {
    if n > 0 { UnaryLength(n - 1); }
  }

  /** Sets of the keys "a", "aa" and so on: the first at 0, to live until 100, the others at 1, until 40. */
  function Fill(n: nat): seq<Timed<int>> {
    if n == 0 then []
    else Fill(n - 1) + [if n == 1 then At(0, Set(Unary(n), Some(7), 100)) else At(1, Set(Unary(n), Some(7), 39))]
  }

  function FullEntries(keys: set<string>): map<string, Entry<int>> {
    map k | k in keys :: if k == "a" then Entry(Some(7), 100, 0) else Entry(Some(7), 40, 1)
  }

  lemma {:induction false} RunOneMore<V>(s: Store<V>, events: seq<Timed<V>>, e: Timed<V>)
    requires Valid(s)
    ensures Run(s, events + [e]) == Step(Run(s, events), e)
    decreases |events|
  {
    hide Step, Valid;
    if events == [] {
      assert events + [e] == [e] && [e][1..] == [];
    } else {
      StepKeepsValid(s, events[0]);
      assert (events + [e])[1..] == events[1..] + [e];
      RunOneMore(Step(s, events[0]), events[1..], e);
    }
  }

  /** A set of a new key while there is room. */
  lemma NewKey<V>(s: Store<V>, e: Timed<V>)
    requires Valid(s) && e.event.Set? && e.event.key !in s.entries && |s.entries| < MAX_CACHE_ENTRIES
    ensures Step(s, e).entries == s.entries[e.event.key := Entry(e.event.data, e.now + e.event.ttl, e.now)]
    ensures |Step(s, e).entries| == |s.entries| + 1
  {
    hide Ordered;
    PutOrdered(s, e.event.key, Entry(e.event.data, e.now + e.event.ttl, e.now));
  }

  /** Up to the bound, every set adds its key; only the entry "a" is not expired at 50, and it is the oldest. */
  lemma {:induction false} Filled(n: nat)
    requires n <= MAX_CACHE_ENTRIES
    ensures var s := Run(Empty(), Fill(n));
            && |s.entries| == n && s.entries == FullEntries(s.entries.Keys)
            && (forall k :: k in s.entries ==> 1 <= |k| <= n)
            && (n > 0 ==> "a" in s.entries)
  {
    hide Step, Valid, FullEntries;
    if n == 0 {
      NothingFull();
    } else {
      Filled(n - 1);
      var s := Run(Empty(), Fill(n - 1));
      var e := Fill(n)[|Fill(n - 1)|];
      assert Fill(n) == Fill(n - 1) + [e];
      RunOneMore(Empty(), Fill(n - 1), e);
      FillsOneMore(s, e, n);
    }
  }

  lemma FillsOneMore(s: Store<int>, e: Timed<int>, n: nat)
    requires Valid(s) && 0 < n <= MAX_CACHE_ENTRIES && |s.entries| == n - 1 && s.entries == FullEntries(s.entries.Keys)
    requires (forall k :: k in s.entries ==> 1 <= |k| <= n - 1) && (n > 1 ==> "a" in s.entries)
    requires e == if n == 1 then At(0, Set(Unary(n), Some(7), 100)) else At(1, Set(Unary(n), Some(7), 39))
    ensures var t := Step(s, e);
            && |t.entries| == n && t.entries == FullEntries(t.entries.Keys)
            && (forall k :: k in t.entries ==> 1 <= |k| <= n)
            && "a" in t.entries
  {
    UnaryLength(n);
    FirstKeys(n);
    var key := Unary(n);
    NewKey(s, e);
    hide Step, Valid, FullEntries, Unary;
    AddedFull(s.entries, key, if n == 1 then Entry(Some(7), 100, 0) else Entry(Some(7), 40, 1));
  }

  lemma FirstKeys(n: nat)
    requires n > 0
    ensures Unary(n) == "a" <==> n == 1
  {
    UnaryLength(n);
    assert Unary(1) == "a" + Unary(0) == "a";
  }

  lemma NothingFull()
    ensures FullEntries({}) == map[]
  {
  }

  lemma AddedFull(entries: map<string, Entry<int>>, key: string, entry: Entry<int>)
    requires entries == FullEntries(entries.Keys)
    requires entry == if key == "a" then Entry(Some(7), 100, 0) else Entry(Some(7), 40, 1)
    ensures var more := entries[key := entry]; more == FullEntries(more.Keys)
  {
  }

  lemma {:induction false} MonotoneOneMore<V>(now: int, events: seq<Timed<V>>, e: Timed<V>)
    requires Monotone(now, events) && EndTime(now, events) <= e.now
    ensures Monotone(now, events + [e]) && EndTime(now, events + [e]) == e.now
    decreases |events|
  {
    if events == [] {
      assert events + [e] == [e] && [e][1..] == [];
    } else {
      assert (events + [e])[1..] == events[1..] + [e];
      MonotoneOneMore(events[0].now, events[1..], e);
    }
  }

  lemma {:induction false} FillMonotone(n: nat)
    ensures Monotone(0, Fill(n)) && EndTime(0, Fill(n)) <= if n <= 1 then 0 else 1
  {
    if n > 0 {
      FillMonotone(n - 1);
      var e := Fill(n)[|Fill(n - 1)|];
      assert Fill(n) == Fill(n - 1) + [e];
      MonotoneOneMore(0, Fill(n - 1), e);
    }
  }

  lemma OldestAlone(s: Store<int>)
    requires Valid(s) && |s.entries| == MAX_CACHE_ENTRIES
    requires "a" in s.entries && s.entries == FullEntries(s.entries.Keys)
    ensures "a" in Oldest(s, EVICTION_COUNT)
  {
    OldestShape(s, EVICTION_COUNT);
    var gone := Oldest(s, EVICTION_COUNT);
    hide Valid, Oldest;
    assert |gone| == EVICTION_COUNT > 0;
    var v :| v in gone;
    assert v != "a" ==> s.entries[v].createdAt == 1;
  }

  /** And it can, after a run of sets: a set of a new key then evicts the live value, and after a clean-up it does not. */
  lemma CleanupCanBeVisible() returns (events: seq<Timed<int>>, key: string, other: string, now: int)
    ensures var s := Run(Empty(), events);
            && Monotone(0, events) && EndTime(0, events) <= now
            && Valid(CleanupStep(s, now))
            && GetStep(SetStep(CleanupStep(s, now), key, Some(0), 60, now), other, now).1 == Some(7)
            && GetStep(SetStep(s, key, Some(0), 60, now), other, now).1 == None
  {
    events, key, other, now := Fill(MAX_CACHE_ENTRIES), "", "a", 50;
    Filled(MAX_CACHE_ENTRIES);
    FillMonotone(MAX_CACHE_ENTRIES);
    hide Fill;
    var s := Run(Empty(), events);
    OldestAlone(s);
    SomethingExpired(s, now);
    CleanedHasRoom(s, key, now);
    CleanupKeepsValid(s, now);
    AnswerIs(s, other, now);
    assert GetStep(s, other, now).1 == Some(7);
    hide Valid, Oldest, CleanupStep, SetStep, GetStep, Expired, FullEntries;
    SetAnswers(s, key, Some(0), 60, now, other, now);
    SetAnswers(CleanupStep(s, now), key, Some(0), 60, now, other, now);
  }

  lemma SetAnswers<V>(s: Store<V>, key: string, data: Option<V>, ttl: int, now: int, other: string, later: int)
    requires Valid(s) && other != key
    ensures GetStep(SetStep(s, key, data, ttl, now), other, later).1
            == if MustEvict(s, key) && other in Oldest(s, EVICTION_COUNT) then None else GetStep(s, other, later).1
  {
    hide Ordered, Put, GetStep, Without, Oldest;
    var v := if MustEvict(s, key) then EvictStep(s, EVICTION_COUNT) else s;
    AnswerAfterPut(v, key, Entry(data, now + ttl, now), other, later);
    AnswerIs(v, other, later);
    AnswerIs(s, other, later);
  }

  lemma SomethingExpired(s: Store<int>, now: int)
    requires |s.entries| >= 2 && forall k :: k in s.entries && k != "a" ==> s.entries[k].expiry < now
    ensures Expired(s, now) != {}
  {
    assert |s.entries| == |s.entries.Keys|;
    if s.entries.Keys <= {"a"} {
      SubsetSize(s.entries.Keys, {"a"});
    }
    var k :| k in s.entries.Keys && k != "a";
    assert k in Expired(s, now);
  }

  // ---------- what a full cache gives up ----------

  /** A set of a new key in a full cache: 100 of the 1000 entries go, none newer than one that stays, and the new entry comes. */
  lemma FullSetIs<V>(s: Store<V>, key: string, data: Option<V>, ttl: int, now: int)
    requires Valid(s) && key !in s.entries && |s.entries| == 1000
    ensures var t := SetStep(s, key, data, ttl, now);
            && |t.entries| == 901 && key in t.entries && t.entries[key] == Entry(data, now + ttl, now)
            && (forall k :: k in t.entries && k != key ==> k in s.entries && t.entries[k] == s.entries[k])
            && (forall v, k :: v in s.entries && v !in t.entries && k in s.entries && k in t.entries ==>
                  s.entries[v].createdAt <= s.entries[k].createdAt)
  {
    EvictionLeaves(s);
    EvictKeepsValid(s, EVICTION_COUNT);
    hide Ordered, EvictStep;
    PutOrdered(EvictStep(s, EVICTION_COUNT), key, Entry(data, now + ttl, now));
  }

  lemma EvictionLeaves<V>(s: Store<V>)
    requires Valid(s) && |s.entries| == 1000
    ensures var v := EvictStep(s, EVICTION_COUNT);
            && |v.entries| == 900 && (forall k :: k in v.entries ==> k in s.entries && v.entries[k] == s.entries[k])
            && (forall g, k :: g in s.entries && g !in v.entries && k in v.entries ==> s.entries[g].createdAt <= s.entries[k].createdAt)
  {
    OldestShape(s, EVICTION_COUNT);
    hide Ordered, Oldest, Without;
    RemoveSize(s.entries, Oldest(s, EVICTION_COUNT));
  }

  /** Any other set puts its entry and touches no other. */
  lemma RoomySetIs<V>(s: Store<V>, key: string, data: Option<V>, ttl: int, now: int)
    requires Valid(s) && (key in s.entries || |s.entries| < 1000)
    ensures var t := SetStep(s, key, data, ttl, now);
            && t.entries == s.entries[key := Entry(data, now + ttl, now)]
            && t.order == if key in s.entries then s.order else s.order + [key]
  {
    hide Ordered;
  }

  /** `a` comes before `b`. */
  predicate InFront(keys: seq<string>, a: string, b: string) {
    exists i, j :: 0 <= i < j < |keys| && keys[i] == a && keys[j] == b
  }

  lemma InFrontCons(key: string, keys: seq<string>, a: string, b: string)
    requires InFront(keys, a, b)
    ensures InFront([key] + keys, a, b)
  {
    var i, j :| 0 <= i < j < |keys| && keys[i] == a && keys[j] == b;
    var r := [key] + keys;
    assert r[i + 1] == a && r[j + 1] == b;
  }

  lemma FirstInFront(key: string, keys: seq<string>, b: string)
    requires b in keys
    ensures InFront([key] + keys, key, b)
  {
    var j :| 0 <= j < |keys| && keys[j] == b;
    var r := [key] + keys;
    assert r[0] == key && r[j + 1] == b;
  }

  lemma InFrontTail(keys: seq<string>, a: string, b: string)
    requires InFront(keys, a, b) && keys[0] != a
    ensures InFront(keys[1..], a, b)
  {
    var i, j :| 0 <= i < j < |keys| && keys[i] == a && keys[j] == b;
    assert keys[1..][i - 1] == a && keys[1..][j - 1] == b;
  }

  /** Inserting keeps what was in front, and puts the key in front of every entry that is not older. */
  lemma {:induction false} InsertStable<V>(key: string, sorted: seq<string>, entries: map<string, Entry<V>>, a: string, b: string)
    requires key in entries && forall k :: k in sorted ==> k in entries
    ensures InFront(sorted, a, b) ==> InFront(Insert(key, sorted, entries), a, b)
    ensures b in sorted && entries[key].createdAt <= entries[b].createdAt ==> InFront(Insert(key, sorted, entries), key, b)
  {
    if sorted != [] {
      assert sorted == [sorted[0]] + sorted[1..];
      InsertKeeps(key, sorted[1..], entries);
      hide InFront;
      var rest := Insert(key, sorted[1..], entries);
      InsertStable(key, sorted[1..], entries, a, b);
      if entries[key].createdAt <= entries[sorted[0]].createdAt {
        if InFront(sorted, a, b) { InFrontCons(key, sorted, a, b); }
        if b in sorted { FirstInFront(key, sorted, b); }
      } else {
        if b in sorted && entries[key].createdAt <= entries[b].createdAt {
          assert b in sorted[1..];
          InFrontCons(sorted[0], rest, key, b);
        }
        if InFront(sorted, a, b) {
          if a == sorted[0] {
            LaterIn(sorted, a, b);
            assert b in Elems(rest);
            FirstInFront(a, rest, b);
          } else {
            InFrontTail(sorted, a, b);
            InFrontCons(sorted[0], rest, a, b);
          }
        }
      }
    }
  }

  lemma LaterIn(keys: seq<string>, a: string, b: string)
    requires InFront(keys, a, b)
    ensures |keys| > 0 && b in keys[1..]
  {
    var i, j :| 0 <= i < j < |keys| && keys[i] == a && keys[j] == b;
    assert keys[1..][j - 1] == b;
  }

  /** Sorting keeps the order of entries of the same age. */
  lemma {:induction false} SortStable<V>(order: seq<string>, entries: map<string, Entry<V>>, a: string, b: string)
    requires Elems(order) <= entries.Keys && InFront(order, a, b)
    requires a in entries && b in entries && entries[a].createdAt == entries[b].createdAt
    ensures InFront(SortByAge(order, entries), a, b)
  {
    LaterIn(order, a, b);
    var rest := order[1..];
    var sorted := SortByAge(rest, entries);
    hide InFront;
    InsertStable(order[0], sorted, entries, a, b);
    if order[0] == a {
      assert b in Elems(rest);
    } else {
      InFrontTail(order, a, b);
      SortStable(rest, entries, a, b);
    }
  }

  /** Of two entries of the same age, eviction takes the one that was stored first. */
  lemma TiesInOrder<V>(s: Store<V>, count: nat, a: string, b: string)
    requires Ordered(s.order, s.entries) && InFront(s.order, a, b)
    requires a in s.entries && b in s.entries && s.entries[a].createdAt == s.entries[b].createdAt
    ensures b in Oldest(s, count) ==> a in Oldest(s, count)
  {
    SortStable(s.order, s.entries, a, b);
    var sorted := SortByAge(s.order, s.entries);
    if b in Oldest(s, count) {
      SortedOnce(s);
      hide NoRepeats, SortByAge;
      var n := if count < |sorted| then count else |sorted|;
      var i, j :| 0 <= i < j < |sorted| && sorted[i] == a && sorted[j] == b;
      var k :| 0 <= k < n && sorted[..n][k] == b;
      AtOnce(sorted, k, j);
      assert sorted[..n][i] == a;
    }
  }

  lemma SortedOnce<V>(s: Store<V>)
    requires Ordered(s.order, s.entries)
    ensures NoRepeats(SortByAge(s.order, s.entries))
  {
  }

  /** A key is at one place only. */
  lemma AtOnce(keys: seq<string>, i: nat, j: nat)
    requires NoRepeats(keys) && i < |keys| && j < |keys| && keys[i] == keys[j]
    ensures i == j
  {
    hide NoRepeats;
    if i < j { FirstTime(keys, j); }
    if j < i { FirstTime(keys, i); }
  }

  /** What the removals answer: a deletion whether the key was there, an invalidation how many keys went, which are those it matches. */
  lemma RemovalAnswers<V>(s: Store<V>, key: string, matches: string -> bool)
    requires Valid(s)
    ensures var (t, deleted) := DeleteStep(s, key);
            && (deleted <==> key in s.entries) && t.entries == s.entries - {key}
    ensures var (t, count) := InvalidateStep(s, matches);
            && count == |s.entries| - |t.entries|
            && forall k :: (k in t.entries <==> k in s.entries && !matches(k)) && (k in t.entries ==> t.entries[k] == s.entries[k])
  {
    RemoveNothing(s.entries);
    RemoveSize(s.entries, Matching(s, matches));
    hide Ordered, Without;
  }

  // ---------- accounting ----------

  /** What the statistics leave out: gets, first-time inserts, and removals by gets and by delete. */
  datatype Tally = Tally(gets: nat, inserts: nat, expiredByGet: nat, deleted: nat)

  function Count<V>(t: Tally, s: Store<V>, e: Timed<V>): Tally {
    match e.event
    case Get(key) =>
      t.(gets := t.gets + 1,
         expiredByGet := t.expiredByGet + if key in s.entries && e.now > s.entries[key].expiry then 1 else 0)
    case Set(key, _, _) => t.(inserts := t.inserts + if key in s.entries then 0 else 1)
    case Delete(key) => t.(deleted := t.deleted + if key in s.entries then 1 else 0)
    case _ => t
  }

  function TallyRun<V>(t: Tally, s: Store<V>, events: seq<Timed<V>>): Tally
    requires Valid(s)
    decreases |events|
  {
    if events == [] then t
    else
      StepKeepsValid(s, events[0]);
      TallyRun(Count(t, s, events[0]), Step(s, events[0]), events[1..])
  }

  ghost predicate Balanced<V>(t: Tally, s: Store<V>) {
    && s.hits + s.misses == t.gets
    && t.inserts == |s.entries| + s.totalEvictions + t.expiredByGet + t.deleted
  }

  lemma SetKeepsBalanced<V>(t: Tally, s: Store<V>, e: Timed<V>)
    requires Valid(s) && Balanced(t, s) && e.event.Set?
    ensures Balanced(Count(t, s, e), SetStep(s, e.event.key, e.event.data, e.event.ttl, e.now))
  {
    hide Ordered, Oldest, EvictStep;
    EvictKeepsValid(s, EVICTION_COUNT);
    EvictKeepsHits(s, EVICTION_COUNT);
    var u := if MustEvict(s, e.event.key) then EvictStep(s, EVICTION_COUNT) else s;
    PutOrdered(u, e.event.key, Entry(e.event.data, e.now + e.event.ttl, e.now));
  }

  lemma StepKeepsBalanced<V>(t: Tally, s: Store<V>, e: Timed<V>)
    requires Valid(s) && Balanced(t, s)
    ensures Balanced(Count(t, s, e), Step(s, e))
  {
    if e.event.Set? {
      SetKeepsBalanced(t, s, e);
      hide SetStep, Balanced, Count;
    } else {
      StepEntries(s, e);
      StepStats(s, e);
      hide Step, Valid, Expired, Matching;
    }
  }

  lemma EvictKeepsHits<V>(s: Store<V>, count: nat)
    requires Ordered(s.order, s.entries)
    ensures var t := EvictStep(s, count); t.hits == s.hits && t.misses == s.misses
    ensures forall k :: k in EvictStep(s, count).entries ==> k in s.entries
  {
    hide Oldest;
  }

  lemma StepStats<V>(s: Store<V>, e: Timed<V>)
    requires Valid(s) && !e.event.Set?
    ensures Step(s, e).hits + Step(s, e).misses == s.hits + s.misses + if e.event.Get? then 1 else 0
    ensures Step(s, e).totalEvictions == s.totalEvictions + if e.event.Get? || e.event.Delete? then 0 else |Gone(s, e)|
  {
    hide Without, Ordered;
  }

  lemma {:induction false} RunKeepsBalanced<V>(t: Tally, s: Store<V>, events: seq<Timed<V>>)
    requires Valid(s) && Balanced(t, s)
    ensures Balanced(TallyRun(t, s, events), Run(s, events))
    decreases |events|
  {
    hide Valid, Step, Count, Balanced;
    if events != [] {
      StepKeepsValid(s, events[0]);
      StepKeepsBalanced(t, s, events[0]);
      RunKeepsBalanced(Count(t, s, events[0]), Step(s, events[0]), events[1..]);
    }
  }

  /** After every run: at most 1000 entries, the size statistic is the number of entries, hits and misses
      are the gets, and every first-time insert is still there or was removed exactly once. */
  lemma Accounting<V>(events: seq<Timed<V>>)
    ensures var s, t := Run(Empty<V>(), events), TallyRun(Tally(0, 0, 0, 0), Empty<V>(), events);
            && |s.entries| <= MAX_CACHE_ENTRIES
            && s.size == |s.entries|
            && s.hits + s.misses == t.gets
            && t.inserts == s.size + s.totalEvictions + t.expiredByGet + t.deleted
  {
    EmptyOrdered<V>();
    RunKeepsBalanced(Tally(0, 0, 0, 0), Empty<V>(), events);
    hide Run, TallyRun;
  }

  // ---------- getOrSet ----------

  /** The cache is read at `asked`; the value computed on a miss is stored at `done`. */
  function GetOrSetStep<V>(s: Store<V>, key: string, ttl: int, computed: Option<V>, asked: int, done: int): (Store<V>, Option<V>)
    requires Valid(s)
  {
    var (t, cached) := GetStep(s, key, asked);
    StepKeepsValid(s, At(asked, Get(key)));
    if cached.Some? then (t, cached) else (SetStep(t, key, computed, ttl, done), computed)
  }

  /** getOrSet answers with the unbounded map's live value or with the computed one, which is then stored;
      a cached null counts as a hit and is computed again. */
  lemma GetOrSetAnswers<V>(s: Store<V>, m: map<string, Item<V>>, key: string, ttl: int, computed: Option<V>, asked: int, done: int)
    requires Valid(s) && SubMap(s, m)
    ensures var (t, r) := GetOrSetStep(s, key, ttl, computed, asked, done);
            var live := key in s.entries && asked <= s.entries[key].expiry;
            var hit := live && s.entries[key].data.Some?;
            && Valid(t)
            && r == (if hit then IdealGet(m, key, asked) else computed)
            && SubMap(t, if hit then m else m[key := Item(computed, done + ttl)])
            && (if hit then t.entries == s.entries else key in t.entries && t.entries[key] == Entry(computed, done + ttl, done))
            && t.hits == s.hits + (if live then 1 else 0)
  {
    AnswerIs(s, key, asked);
    HitsCounted(s, key, asked);
    assert key in s.entries ==> key in m && m[key] == Item(s.entries[key].data, s.entries[key].expiry);
    GetKeeps(s, m, key, asked);
    hide Valid, SubMap, SetStep, GetStep;
    SetKeeps(GetStep(s, key, asked).0, m, key, computed, ttl, done);
  }

  lemma GetKeeps<V>(s: Store<V>, m: map<string, Item<V>>, key: string, now: int)
    requires Valid(s) && SubMap(s, m)
    ensures Valid(GetStep(s, key, now).0) && SubMap(GetStep(s, key, now).0, m)
  {
    var e: Timed<V> := At(now, Get(key));
    StepKeepsValid(s, e);
    StepKeepsSubMap(s, m, e);
    hide Valid, SubMap, GetStep;
  }

  lemma SetKeeps<V>(s: Store<V>, m: map<string, Item<V>>, key: string, data: Option<V>, ttl: int, now: int)
    requires Valid(s) && SubMap(s, m)
    ensures Valid(SetStep(s, key, data, ttl, now))
    ensures SubMap(SetStep(s, key, data, ttl, now), m[key := Item(data, now + ttl)])
    ensures SetStep(s, key, data, ttl, now).hits == s.hits
  {
    var e: Timed<V> := At(now, Set(key, data, ttl));
    StepKeepsValid(s, e);
    StepKeepsSubMap(s, m, e);
    SetKeepsHits(s, key, data, ttl, now);
    assert Step(s, e) == SetStep(s, key, data, ttl, now);
    hide Ordered, SubMap, SetStep, Step;
  }

  lemma SetKeepsHits<V>(s: Store<V>, key: string, data: Option<V>, ttl: int, now: int)
    requires Valid(s)
    ensures SetStep(s, key, data, ttl, now).hits == s.hits
  {
    EvictKeepsHits(s, EVICTION_COUNT);
    hide Valid, EvictStep;
  }

  lemma HitsCounted<V>(s: Store<V>, key: string, now: int)
    ensures GetStep(s, key, now).0.hits == s.hits + if key in s.entries && now <= s.entries[key].expiry then 1 else 0
  {
    hide Without;
  }

  // ---------- the service ----------

  lemma {:induction false} WithoutTwice(order: seq<string>, a: set<string>, b: set<string>)
    ensures Without(Without(order, a), b) == Without(order, a + b)
  {
    if order != [] {
      var rest := Without(order[1..], a);
      WithoutTwice(order[1..], a, b);
      assert Without(order, a) == if order[0] in a then rest else [order[0]] + rest;
    }
  }

  lemma {:induction false} WithoutNothing(order: seq<string>, gone: set<string>)
    requires Elems(order) !! gone
    ensures Without(order, gone) == order
  {
    if order != [] {
      assert order[0] in Elems(order) && Elems(order[1..]) <= Elems(order);
      WithoutNothing(order[1..], gone);
    }
  }

  class AnalyticsCacheService<V> {
    var order: seq<string>
    var cache: map<string, Entry<V>>
    var hits: nat
    var misses: nat
    var size: nat
    var totalEvictions: nat

    ghost function State(): Store<V>
      reads this
    {
      Store(order, cache, hits, misses, size, totalEvictions)
    }

    constructor ()
      ensures State() == Empty<V>() && Valid(State())
    {
      order, cache := [], map[];
      hits, misses, size, totalEvictions := 0, 0, 0, 0;
      new;
      EmptyOrdered<V>();
    }

    /** The deletion of a map key, which says whether the key was there. */
    method MapDelete(key: string) returns (deleted: bool)
      requires Elems(order) == cache.Keys
      modifies this`order, this`cache
      ensures deleted == (key in old(cache))
      ensures State() == Remove(old(State()), {key})
      ensures Elems(order) == cache.Keys
    {
      WithoutKeys(order, {key});
      deleted := key in cache;
      if deleted {
        order := Without(order, {key});
        cache := cache - {key};
      } else {
        WithoutNothing(order, {key});
        RemoveAbsent(cache, key);
      }
    }

    /** The deletion loops: every key that meets the test, one after the other, counting them. */
    method DeleteWhere(doomed: string -> bool) returns (count: nat)
      requires Elems(order) == cache.Keys && NoRepeats(order)
      modifies this`order, this`cache
      ensures State() == Remove(old(State()), Doomed(old(cache), doomed))
      ensures count == |Doomed(old(cache), doomed)|
    {
      hide NoRepeats, Remove, Elems;
      var keys := order;
      count := 0;
      RemovesNothing(State());
      ghost var gone: set<string> := {};
      var i := 0;
      while i < |keys|
        invariant 0 <= i <= |keys| && keys == old(order)
        invariant forall k :: k in gone <==> k in keys[..i] && doomed(k)
        invariant State() == Remove(old(State()), gone) && count == |gone|
        invariant Elems(order) == cache.Keys
      {
        FirstTime(keys, i);
        assert keys[..i + 1] == keys[..i] + [keys[i]];
        if doomed(keys[i]) {
          var _ := MapDelete(keys[i]);
          RemovesTwice(old(State()), gone, {keys[i]});
          gone := gone + {keys[i]};
          count := count + 1;
        }
        i := i + 1;
      }
      assert keys[..i] == keys;
      DoomedIs(old(State()), doomed, gone);
    }

    /** The keys sorted to the front, one after the other. */
    method DeleteAll(keys: seq<string>)
      requires Elems(order) == cache.Keys
      modifies this`order, this`cache
      ensures State() == Remove(old(State()), Elems(keys))
    {
      hide Remove;
      RemovesNothing(State());
      assert Elems([]) == {};
      var i := 0;
      while i < |keys|
        invariant 0 <= i <= |keys|
        invariant State() == Remove(old(State()), Elems(keys[..i]))
        invariant Elems(order) == cache.Keys
      {
        var _ := MapDelete(keys[i]);
        RemovesTwice(old(State()), Elems(keys[..i]), {keys[i]});
        assert Elems(keys[..i + 1]) == Elems(keys[..i]) + {keys[i]};
        i := i + 1;
      }
      assert keys[..i] == keys;
    }

    method Get(key: string, now: int) returns (r: Option<V>)
      requires Valid(State())
      modifies this
      ensures (State(), r) == GetStep(old(State()), key, now)
      ensures Valid(State())
    {
      StepKeepsValid(State(), At(now, Event.Get(key)));
      hide Valid, Remove;
      if key !in cache {
        misses := misses + 1;
        return None;
      }
      var entry := cache[key];
      if now > entry.expiry {
        KeysListed(State());
        var _ := MapDelete(key);
        misses := misses + 1;
        size := |cache|;
        return None;
      }
      hits := hits + 1;
      r := entry.data;
    }

    method Set(key: string, data: Option<V>, ttl: int, now: int)
      requires Valid(State())
      modifies this
      ensures State() == SetStep(old(State()), key, data, ttl, now)
      ensures Valid(State())
    {
      SetKeepsValid(State(), key, data, ttl, now);
      if |cache| >= MAX_CACHE_ENTRIES && key !in cache {
        EvictOldestEntries(EVICTION_COUNT);
      }
      hide Valid, EvictStep;
      if key !in cache {
        order := order + [key];
      }
      cache := cache[key := Entry(data, now + ttl, now)];
      size := |cache|;
    }

    method Delete(key: string) returns (deleted: bool)
      requires Valid(State())
      modifies this
      ensures (State(), deleted) == DeleteStep(old(State()), key)
      ensures Valid(State())
    {
      StepKeepsValid(State(), At(0, Event.Delete(key)));
      KeysListed(State());
      if key !in cache { RemovesAbsent(State(), key); }
      hide Valid, Remove;
      deleted := MapDelete(key);
      if deleted {
        size := |cache|;
      }
    }

    method InvalidatePattern(matches: string -> bool) returns (deletedCount: nat)
      requires Valid(State())
      modifies this
      ensures (State(), deletedCount) == InvalidateStep(old(State()), matches)
      ensures Valid(State())
    {
      InvalidateKeepsValid(State(), matches);
      KeysListed(State());
      MatchingDoomed(State(), matches);
      hide Valid, Remove, Matching, Doomed, Elems, NoRepeats;
      deletedCount := DeleteWhere(matches);
      size := |cache|;
      totalEvictions := totalEvictions + deletedCount;
    }

    method Clear()
      requires Valid(State())
      modifies this
      ensures State() == ClearStep(old(State()))
      ensures Valid(State())
    {
      StepKeepsValid(State(), At(0, Event.Clear));
      hide Valid;
      var entries := |cache|;
      order, cache := [], map[];
      size := 0;
      totalEvictions := totalEvictions + entries;
    }

    method GetOrSet(key: string, ttl: int, computed: Option<V>, asked: int, done: int) returns (r: Option<V>)
      requires Valid(State())
      modifies this
      ensures (State(), r) == GetOrSetStep(old(State()), key, ttl, computed, asked, done)
      ensures Valid(State())
    {
      hide Valid;
      r := Get(key, asked);
      if r.Some? {
        return;
      }
      Set(key, computed, ttl, done);
      r := computed;
    }

    method EvictOldestEntries(count: nat)
      requires Valid(State())
      modifies this
      ensures State() == EvictStep(old(State()), count)
      ensures Valid(State())
    {
      EvictKeepsValid(State(), count);
      KeysListed(State());
      var sorted := SortByAge(order, cache);
      var victims := sorted[..if count < |sorted| then count else |sorted|];
      OldestShape(State(), count);
      OrderSize(State());
      hide Valid, Remove, SortByAge;
      DeleteAll(victims);
      totalEvictions := totalEvictions + |victims|;
      size := |cache|;
    }

    method CleanupExpired(now: int)
      requires Valid(State())
      modifies this
      ensures State() == CleanupStep(old(State()), now)
      ensures Valid(State())
    {
      CleanupKeepsValid(State(), now);
      KeysListed(State());
      hide Valid, Remove, Expired, Doomed, ExpiryTest, Elems, NoRepeats;
      var isExpired := ExpiryTest(cache, now);
      ExpiredDoomed(State(), now);
      var expiredCount := DeleteWhere(isExpired);
      if expiredCount > 0 {
        size := |cache|;
        totalEvictions := totalEvictions + expiredCount;
      }
      CleanedState(old(State()), State(), now);
    }
  }

  /** The removals and the two statistics of a clean-up. */
  lemma CleanedState<V>(s: Store<V>, t: Store<V>, now: int)
    requires var left := Remove(s, Expired(s, now));
             t == if |Expired(s, now)| > 0
                  then left.(size := |t.entries|, totalEvictions := s.totalEvictions + |Expired(s, now)|) else left
    ensures t == CleanupStep(s, now)
  {
    hide Without, Expired;
  }

  function ExpiryTest<V>(entries: map<string, Entry<V>>, now: int): string -> bool {
    k => k in entries && now > entries[k].expiry
  }

  lemma RemovesNothing<V>(s: Store<V>)
    ensures Remove(s, {}) == s
  {
    WithoutNothing(s.order, {});
    RemoveNothing(s.entries);
  }

  lemma RemovesTwice<V>(s: Store<V>, a: set<string>, b: set<string>)
    ensures Remove(Remove(s, a), b) == Remove(s, a + b)
  {
    WithoutTwice(s.order, a, b);
    assert s.entries - a - b == s.entries - (a + b);
  }

  lemma RemovesAbsent<V>(s: Store<V>, key: string)
    requires Elems(s.order) == s.entries.Keys && key !in s.entries
    ensures Remove(s, {key}) == s
  {
    WithoutNothing(s.order, {key});
    RemoveAbsent(s.entries, key);
  }

  lemma RemoveAbsent<V>(entries: map<string, Entry<V>>, key: string)
    requires key !in entries
    ensures entries - {key} == entries
  {
  }

  lemma DoomedIs<V>(s: Store<V>, doomed: string -> bool, gone: set<string>)
    requires Elems(s.order) == s.entries.Keys
    requires forall k :: k in gone <==> k in s.order && doomed(k)
    ensures gone == Doomed(s.entries, doomed)
  {
    assert forall k :: k in s.order <==> k in Elems(s.order);
  }

  function Doomed<V>(entries: map<string, Entry<V>>, doomed: string -> bool): set<string> {
    set k | k in entries && doomed(k)
  }

  lemma ExpiredDoomed<V>(s: Store<V>, now: int)
    ensures Doomed(s.entries, ExpiryTest(s.entries, now)) == Expired(s, now)
  {
  }

  lemma MatchingDoomed<V>(s: Store<V>, matches: string -> bool)
    ensures Matching(s, matches) == Doomed(s.entries, matches)
  {
  }

  lemma {:induction false} FirstTime(keys: seq<string>, i: nat)
    requires NoRepeats(keys) && i < |keys|
    ensures keys[i] !in keys[..i]
  {
    if i > 0 {
      assert keys == [keys[0]] + keys[1..];
      NoRepeatsCons(keys[0], keys[1..]);
      FirstTime(keys[1..], i - 1);
      assert keys[..i] == [keys[0]] + keys[1..][..i - 1];
    }
  }

  lemma OrderSize<V>(s: Store<V>)
    requires Valid(s)
    ensures |s.order| == |s.entries|
  {
    assert |s.entries.Keys| == |s.entries|;
  }

  lemma KeysListed<V>(s: Store<V>)
    requires Valid(s)
    ensures Elems(s.order) == s.entries.Keys && NoRepeats(s.order)
  {
  }
}
