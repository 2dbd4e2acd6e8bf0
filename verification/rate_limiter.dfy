/** A sliding-window rate limiter with a bounded, least-recently-used memory. */
module RateLimiter {
  import opened Money
  import opened Sums

  type Key = int
  type Time = real

  /** The ordered map of hits, oldest touch first, and the expiry of each key. */
  datatype Table = Table(order: seq<Key>, hits: map<Key, seq<Time>>, expiresAt: map<Key, Time>)

  function Recent(hits: seq<Time>, cutoff: Time): seq<Time> {
    if hits == [] then []
    else
      var before, last := Recent(hits[..|hits| - 1], cutoff), hits[|hits| - 1];
      if last > cutoff then before + [last] else before
  }

  function Without(order: seq<Key>, key: Key): (rest: seq<Key>)
    ensures forall k :: k in rest <==> k in order && k != key
  {
    if order == [] then []
    else
      var before, last := Without(order[..|order| - 1], key), order[|order| - 1];
      if last == key then before else before + [last]
  }

  function HitsOf(t: Table, key: Key): seq<Time> { if key in t.hits then t.hits[key] else [] }

  function Discarded(t: Table, key: Key): Table {
    Table(Without(t.order, key), t.hits - {key}, t.expiresAt - {key})
  }

  /** Store a key's hits and move it to the end. */
  function Touched(t: Table, key: Key, hits: seq<Time>, expiry: Time): Table {
    Table(Without(t.order, key) + [key], t.hits[key := hits], t.expiresAt[key := expiry])
  }

  // What the table has to do with the full log.

  /** The log of every hit of a key since it was last reset or evicted. */
  ghost function Logged(log: map<Key, seq<Time>>, key: Key): seq<Time> { if key in log then log[key] else [] }

  /** Both maps and the order list the same keys, each once. */
  ghost predicate Aligned(t: Table) {
    && Distinct(t.order) && t.hits.Keys == t.expiresAt.Keys
    && forall key :: key in t.order <==> key in t.hits
  }

  ghost predicate Ascending(hits: seq<Time>, until: Time) {
    && (forall i, j :: 0 <= i < j < |hits| ==> hits[i] <= hits[j])
    && (forall i :: 0 <= i < |hits| ==> hits[i] <= until)
  }

  ghost predicate Dated(t: Table, window: Key -> Time, now: Time) {
    Aligned(t) && forall key :: key in t.hits ==>
      && t.hits[key] != [] && Ascending(t.hits[key], now)
      && t.expiresAt[key] == t.hits[key][|t.hits[key]| - 1] + window(key)
  }

  /** Within each key's window the table and the log show the same hits. */
  ghost predicate Faithful(t: Table, log: map<Key, seq<Time>>, window: Key -> Time, now: Time) {
    forall key :: Recent(HitsOf(t, key), now - window(key)) == Recent(Logged(log, key), now - window(key))
  }

  /** The order is that of the last touches; later stamps are still to come. */
  ghost predicate ByTouch(order: seq<Key>, stamps: map<Key, nat>, next: nat) {
    && (forall i :: 0 <= i < |order| ==> order[i] in stamps && stamps[order[i]] < next)
    && (forall i, j :: 0 <= i < j < |order| ==> stamps[order[i]] < stamps[order[j]])
  }

  lemma {:induction false} RecentTwice(hits: seq<Time>, earlier: Time, later: Time)
    requires earlier <= later
    ensures Recent(Recent(hits, earlier), later) == Recent(hits, later)
  {
    if hits != [] {
      var front, last := hits[..|hits| - 1], hits[|hits| - 1];
      RecentTwice(front, earlier, later);
      RecentAppend(Recent(front, earlier), last, later);
    }
  }

  lemma RecentAppend(hits: seq<Time>, x: Time, cutoff: Time)
    ensures Recent(hits + [x], cutoff) == if x > cutoff then Recent(hits, cutoff) + [x] else Recent(hits, cutoff)
  {
    assert (hits + [x])[..|hits|] == hits;
  }

  function After(cutoff: Time): Time -> int { (hit: Time) => if hit > cutoff then 1 else 0 }

  /** The hits of a window are those after its start: as many of them, and the same. */
  lemma {:induction false} RecentIsTheWindow(hits: seq<Time>, cutoff: Time)
    ensures |Recent(hits, cutoff)| == Count(hits, After(cutoff))
    ensures forall hit :: hit in Recent(hits, cutoff) <==> hit in hits && hit > cutoff
  {
    if hits != [] {
      var front, last := hits[..|hits| - 1], hits[|hits| - 1];
      RecentIsTheWindow(front, cutoff);
      assert hits == front + [last];
    }
  }

  lemma AscendingAppend(hits: seq<Time>, now: Time)
    requires Ascending(hits, now)
    ensures Ascending(hits + [now], now)
  {}

  lemma {:induction false} AllOld(hits: seq<Time>, cutoff: Time)
    requires forall i :: 0 <= i < |hits| ==> hits[i] <= cutoff
    ensures Recent(hits, cutoff) == []
  {
    if hits != [] { AllOld(hits[..|hits| - 1], cutoff); }
  }

  lemma {:induction false} RecentIsAscending(hits: seq<Time>, cutoff: Time, until: Time)
    requires Ascending(hits, until)
    ensures Ascending(Recent(hits, cutoff), until)
    ensures forall x :: x in Recent(hits, cutoff) ==> x in hits
  {
    if hits != [] {
      var front := hits[..|hits| - 1];
      RecentIsAscending(front, cutoff, until);
      var r := Recent(front, cutoff);
      forall i | 0 <= i < |r| ensures r[i] <= hits[|hits| - 1] {
        assert r[i] in front;
      }
    }
  }

  lemma {:induction false} WithoutKey(order: seq<Key>, key: Key)
    requires Distinct(order)
    ensures Distinct(Without(order, key)) && |Without(order, key)| == if key in order then |order| - 1 else |order|
  {
    if order != [] {
      var front, last := order[..|order| - 1], order[|order| - 1];
      WithoutKey(front, key);
      assert order == front + [last] && last !in front;
    }
  }

  lemma {:induction false} WithoutKeepsTouch(order: seq<Key>, key: Key, stamps: map<Key, nat>, next: nat)
    requires ByTouch(order, stamps, next)
    ensures ByTouch(Without(order, key), stamps, next)
  {
    if order != [] {
      var front, last := order[..|order| - 1], order[|order| - 1];
      WithoutKeepsTouch(front, key, stamps, next);
      var r := Without(front, key);
      forall i | 0 <= i < |r| ensures stamps[r[i]] < stamps[last] {
        assert r[i] in r;
        var j :| 0 <= j < |front| && front[j] == r[i];
        assert order[j] == r[i];
      }
    }
  }

  lemma TouchKeepsOrder(order: seq<Key>, key: Key, stamps: map<Key, nat>, next: nat)
    requires ByTouch(order, stamps, next)
    ensures ByTouch(Without(order, key) + [key], stamps[key := next], next + 1)
  {
    WithoutKeepsTouch(order, key, stamps, next);
    var r := Without(order, key);
    forall i | 0 <= i < |r| ensures r[i] != key { assert r[i] in r; }
  }

  /** As time passes hits only stop counting, for the table and for the log alike. */
  lemma TimePasses(t: Table, log: map<Key, seq<Time>>, window: Key -> Time, before: Time, now: Time)
    requires before <= now && Dated(t, window, before) && Faithful(t, log, window, before)
    ensures Dated(t, window, now) && Faithful(t, log, window, now)
  {
    forall key ensures Recent(HitsOf(t, key), now - window(key)) == Recent(Logged(log, key), now - window(key)) {
      assert Recent(HitsOf(t, key), before - window(key)) == Recent(Logged(log, key), before - window(key));
      RecentTwice(HitsOf(t, key), before - window(key), now - window(key));
      RecentTwice(Logged(log, key), before - window(key), now - window(key));
    }
  }

  /** An expired key has no hit left that counts. */
  lemma ExpiredIsOld(t: Table, window: Key -> Time, now: Time, key: Key)
    requires Dated(t, window, now) && key in t.hits && t.expiresAt[key] <= now
    ensures Recent(HitsOf(t, key), now - window(key)) == []
  {
    AllOld(t.hits[key], now - window(key));
  }

  lemma DiscardIsDated(t: Table, window: Key -> Time, now: Time, key: Key)
    requires Dated(t, window, now)
    ensures Dated(Discarded(t, key), window, now)
  {
    hide Ascending;
    WithoutKey(t.order, key);
  }

  lemma DiscardIsFaithful(t: Table, log: map<Key, seq<Time>>, window: Key -> Time, now: Time, key: Key)
    requires Faithful(t, log, window, now)
    ensures Recent(HitsOf(t, key), now - window(key)) == [] ==> Faithful(Discarded(t, key), log, window, now)
    ensures Faithful(Discarded(t, key), log - {key}, window, now)
  {
    hide Without;
    var after := Discarded(t, key);
    forall k | k != key
      ensures Recent(HitsOf(after, k), now - window(k)) == Recent(Logged(log, k), now - window(k))
      ensures Logged(log - {key}, k) == Logged(log, k)
    {
      assert Recent(HitsOf(t, k), now - window(k)) == Recent(Logged(log, k), now - window(k));
    }
    assert HitsOf(after, key) == [] && Logged(log - {key}, key) == [];
    assert Recent(HitsOf(t, key), now - window(key)) == Recent(Logged(log, key), now - window(key));
  }

  lemma TouchIsDated(t: Table, window: Key -> Time, now: Time, key: Key, hits: seq<Time>)
    requires Dated(t, window, now) && hits != [] && Ascending(hits, now)
    ensures Dated(Touched(t, key, hits, hits[|hits| - 1] + window(key)), window, now)
  {
    hide Ascending;
    WithoutKey(t.order, key);
    var r := Without(t.order, key);
    forall i | 0 <= i < |r| ensures r[i] != key { assert r[i] in r; }
  }

  lemma TouchIsFaithful(t: Table, log: map<Key, seq<Time>>, window: Key -> Time, now: Time, key: Key, hits: seq<Time>,
                        logged: map<Key, seq<Time>>)
    requires Faithful(t, log, window, now)
    requires forall k :: k != key ==> Logged(logged, k) == Logged(log, k)
    requires Recent(hits, now - window(key)) == Recent(Logged(logged, key), now - window(key))
    ensures forall expiry :: Faithful(Touched(t, key, hits, expiry), logged, window, now)
  {
    hide Without, Recent;
    forall expiry, k
      ensures Recent(HitsOf(Touched(t, key, hits, expiry), k), now - window(k)) == Recent(Logged(logged, k), now - window(k))
    {
      assert Recent(HitsOf(t, k), now - window(k)) == Recent(Logged(log, k), now - window(k));
      assert Logged(log, k) == Logged(logged, k) || k == key;
    }
  }

  /** Everything the limiter keeps. */
  ghost predicate Inv(t: Table, log: map<Key, seq<Time>>, window: Key -> Time, now: Time, stamps: map<Key, nat>, next: nat,
                      maxKeys: nat)
  {
    && 1 <= maxKeys && |t.order| <= maxKeys && (forall key :: window(key) > 0.0)
    && Dated(t, window, now) && Faithful(t, log, window, now) && ByTouch(t.order, stamps, next)
  }

  lemma DiscardKeeps(t: Table, log: map<Key, seq<Time>>, window: Key -> Time, now: Time, stamps: map<Key, nat>, next: nat,
                     maxKeys: nat, key: Key)
    requires Inv(t, log, window, now, stamps, next, maxKeys)
    ensures Inv(Discarded(t, key), log - {key}, window, now, stamps, next, maxKeys)
    ensures Recent(HitsOf(t, key), now - window(key)) == [] ==>
              Inv(Discarded(t, key), log, window, now, stamps, next, maxKeys)
    ensures |Discarded(t, key).order| == if key in t.hits then |t.order| - 1 else |t.order|
  {
    hide Faithful, ByTouch;
    DiscardIsDated(t, window, now, key);
    DiscardIsFaithful(t, log, window, now, key);
    WithoutKeepsTouch(t.order, key, stamps, next);
    WithoutKey(t.order, key);
  }

  lemma TouchKeeps(t: Table, log: map<Key, seq<Time>>, window: Key -> Time, now: Time, stamps: map<Key, nat>, next: nat,
                   maxKeys: nat, key: Key, hits: seq<Time>, logged: map<Key, seq<Time>>)
    requires Inv(t, log, window, now, stamps, next, maxKeys) && (key in t.hits || |t.order| < maxKeys)
    requires hits != [] && Ascending(hits, now)
    requires forall k :: k != key ==> Logged(logged, k) == Logged(log, k)
    requires Recent(hits, now - window(key)) == Recent(Logged(logged, key), now - window(key))
    ensures var after := Touched(t, key, hits, hits[|hits| - 1] + window(key));
            Inv(after, logged, window, now, stamps[key := next], next + 1, maxKeys)
  {
    hide Faithful, ByTouch, Recent, Ascending, Logged;
    TouchIsDated(t, window, now, key, hits);
    TouchIsFaithful(t, log, window, now, key, hits, logged);
    TouchKeepsOrder(t.order, key, stamps, next);
    WithoutKey(t.order, key);
  }

  /** What can be read off the invariant: of one key, and of all of them. */
  lemma KeyFacts(t: Table, log: map<Key, seq<Time>>, window: Key -> Time, now: Time, stamps: map<Key, nat>, next: nat,
                 maxKeys: nat, key: Key)
    requires Inv(t, log, window, now, stamps, next, maxKeys)
    ensures Recent(HitsOf(t, key), now - window(key)) == Recent(Logged(log, key), now - window(key))
    ensures Ascending(HitsOf(t, key), now) && window(key) > 0.0
    ensures key in t.hits && key in t.expiresAt && t.expiresAt[key] <= now ==>
              Recent(HitsOf(t, key), now - window(key)) == []
  {
    if key in t.hits && t.expiresAt[key] <= now { ExpiredIsOld(t, window, now, key); }
  }

  lemma TableFacts(t: Table, log: map<Key, seq<Time>>, window: Key -> Time, now: Time, stamps: map<Key, nat>, next: nat,
                   maxKeys: nat)
    requires Inv(t, log, window, now, stamps, next, maxKeys)
    ensures t.hits.Keys == t.expiresAt.Keys && |t.hits| == |t.order| <= maxKeys && 1 <= maxKeys
    ensures forall k :: k in t.order <==> k in t.hits
  {
    DistinctCount(t.order);
    forall k ensures k in Elements(t.order) <==> k in t.hits.Keys { assert k in t.order <==> k in t.hits; }
    assert Elements(t.order) == t.hits.Keys;
    assert |t.hits.Keys| == |t.hits|;
  }

  lemma TableSize(t: Table, log: map<Key, seq<Time>>, window: Key -> Time, now: Time, stamps: map<Key, nat>, next: nat,
                  maxKeys: nat)
    requires Inv(t, log, window, now, stamps, next, maxKeys)
    ensures |t.hits| == |t.order|
  {
    hide Inv;
    TableFacts(t, log, window, now, stamps, next, maxKeys);
  }

  lemma RecordKeeps(t: Table, log: map<Key, seq<Time>>, window: Key -> Time, now: Time, stamps: map<Key, nat>, next: nat,
                    maxKeys: nat, key: Key)
    requires Inv(t, log, window, now, stamps, next, maxKeys) && (key in t.hits || |t.order| < maxKeys)
    ensures Inv(Touched(t, key, HitsOf(t, key) + [now], now + window(key)), log[key := Logged(log, key) + [now]], window, now,
                stamps[key := next], next + 1, maxKeys)
  {
    hide Inv, Recent, Ascending, HitsOf;
    var hits, logged := HitsOf(t, key) + [now], log[key := Logged(log, key) + [now]];
    KeyFacts(t, log, window, now, stamps, next, maxKeys, key);
    AscendingAppend(HitsOf(t, key), now);
    RecentAppend(HitsOf(t, key), now, now - window(key));
    RecentAppend(Logged(log, key), now, now - window(key));
    TouchKeeps(t, log, window, now, stamps, next, maxKeys, key, hits, logged);
  }

  lemma AppendKeeps(t: Table, log: map<Key, seq<Time>>, window: Key -> Time, now: Time, stamps: map<Key, nat>, next: nat,
                    maxKeys: nat, key: Key, before: seq<Time>)
    requires Inv(t, log, window, now, stamps, next, maxKeys) && (key in t.hits || |t.order| < maxKeys)
    requires before == if key in t.hits then t.hits[key] else []
    ensures Inv(Table(Without(t.order, key) + [key], t.hits[key := before + [now]], t.expiresAt[key := now + window(key)]),
                log[key := Logged(log, key) + [now]], window, now, stamps[key := next], next + 1, maxKeys)
  {
    hide Inv, Without, Logged;
    RecordKeeps(t, log, window, now, stamps, next, maxKeys, key);
  }

  ghost function Forgotten(log: map<Key, seq<Time>>, evicted: Option<Key>): map<Key, seq<Time>> {
    if evicted.Some? then log - {evicted.value} else log
  }

  /** It was touched before all the others. */
  ghost predicate OldestOf(key: Key, others: set<Key>, stamps: map<Key, nat>) {
    key in stamps && forall k :: k in others ==> k in stamps && stamps[key] < stamps[k]
  }

  lemma ForgottenKeepsOthers(log: map<Key, seq<Time>>, evicted: Option<Key>, key: Key)
    requires evicted != Some(key)
    ensures Logged(Forgotten(log, evicted), key) == Logged(log, key)
  {}

  /** Pruning a table leaves it full only if there was nothing to prune. */
  lemma FullMeansUnpruned(before: map<Key, seq<Time>>, after: map<Key, seq<Time>>, maxKeys: nat)
    requires after.Keys <= before.Keys && |before| <= maxKeys <= |after|
    ensures after.Keys == before.Keys
  {
    assert |before.Keys| == |before| && |after.Keys| == |after|;
    if after.Keys != before.Keys {
      assert after.Keys < before.Keys;
      ProperSubsetIsSmaller(after.Keys, before.Keys);
    }
  }

  /** The listed keys that have expired, discarded one by one. */
  function Pruned(t: Table, listed: seq<Key>, now: Time): Table {
    if listed == [] then t
    else
      var before, key := Pruned(t, listed[..|listed| - 1], now), listed[|listed| - 1];
      if key in before.expiresAt && before.expiresAt[key] <= now then Discarded(before, key) else before
  }

  lemma {:induction false} PrunedKeeps(t: Table, log: map<Key, seq<Time>>, window: Key -> Time, now: Time,
                                       stamps: map<Key, nat>, next: nat, maxKeys: nat, listed: seq<Key>)
    requires Inv(t, log, window, now, stamps, next, maxKeys)
    ensures var after := Pruned(t, listed, now);
            && Inv(after, log, window, now, stamps, next, maxKeys)
            && after.hits.Keys == after.expiresAt.Keys && t.hits.Keys == t.expiresAt.Keys
            && (forall key :: key in after.hits <==> key in t.hits && (key in listed ==> t.expiresAt[key] > now))
            && (forall key :: key in after.hits ==>
                  after.hits[key] == t.hits[key] && after.expiresAt[key] == t.expiresAt[key])
  {
    hide Inv, Without, Recent, Ascending;
    TableFacts(t, log, window, now, stamps, next, maxKeys);
    if listed != [] {
      var front, key := listed[..|listed| - 1], listed[|listed| - 1];
      assert listed == front + [key];
      PrunedKeeps(t, log, window, now, stamps, next, maxKeys, front);
      var before := Pruned(t, front, now);
      KeyFacts(before, log, window, now, stamps, next, maxKeys, key);
      DiscardKeeps(before, log, window, now, stamps, next, maxKeys, key);
    }
  }

  lemma OldestIsFirst(t: Table, log: map<Key, seq<Time>>, window: Key -> Time, now: Time, stamps: map<Key, nat>, next: nat,
                      maxKeys: nat)
    requires Inv(t, log, window, now, stamps, next, maxKeys) && t.order != []
    ensures OldestOf(t.order[0], t.hits.Keys - {t.order[0]}, stamps)
  {
    forall k | k in t.hits && k != t.order[0]
      ensures k in stamps && t.order[0] in stamps && stamps[t.order[0]] < stamps[k]
    {
      assert k in t.order;
    }
  }

  lemma TimeKeeps(t: Table, log: map<Key, seq<Time>>, window: Key -> Time, before: Time, now: Time, stamps: map<Key, nat>,
                  next: nat, maxKeys: nat)
    requires Inv(t, log, window, before, stamps, next, maxKeys) && before <= now
    ensures Inv(t, log, window, now, stamps, next, maxKeys)
  {
    hide Dated, Faithful;
    TimePasses(t, log, window, before, now);
  }

  // The limiter.

  class SlidingWindowRateLimiter {
    var order: seq<Key>
    var hits: map<Key, seq<Time>>
    var expiresAt: map<Key, Time>
    var nextCleanupAt: Time
    const maxKeys: nat
    ghost const window: Key -> Time
    ghost var log: map<Key, seq<Time>>
    ghost var clock: Time
    ghost var stamps: map<Key, nat>
    ghost var touches: nat

    ghost function State(): Table reads this { Table(order, hits, expiresAt) }

    ghost predicate Valid() reads this { Inv(State(), log, window, clock, stamps, touches, maxKeys) }

    constructor (maxKeys: nat, ghost window: Key -> Time, ghost start: Time)
      requires 1 <= maxKeys && forall key :: window(key) > 0.0
      ensures Valid() && log == map[] && clock == start && this.maxKeys == maxKeys && this.window == window
    {
      this.maxKeys, this.window, clock := maxKeys, window, start;
      order, hits, expiresAt, nextCleanupAt := [], map[], map[], 0.0;
      log, stamps, touches := map[], map[], 0;
    }

    method Discard(key: Key)
      modifies this`order, this`hits, this`expiresAt
      ensures State() == Discarded(old(State()), key)
    {
      order, hits, expiresAt := Without(order, key), hits - {key}, expiresAt - {key};
    }

    /** Drop what has expired, every thirty seconds at most: nothing that still counts. */
    method PruneExpired(now: Time)
      requires Valid() && now == clock
      modifies this`order, this`hits, this`expiresAt, this`nextCleanupAt
      ensures Valid()
      ensures forall key :: key in hits <==> key in old(hits) && (now < old(nextCleanupAt) || old(expiresAt)[key] > now)
      ensures forall key :: key in hits ==> hits[key] == old(hits)[key]
      ensures nextCleanupAt == if now < old(nextCleanupAt) then old(nextCleanupAt) else now + 30.0
    {
      hide Inv, Discarded;
      TableFacts(State(), log, window, now, stamps, touches, maxKeys);
      if now < nextCleanupAt { return; }
      nextCleanupAt := now + 30.0;
      ghost var start := State();
      var listed := order;
      for i := 0 to |listed|
        invariant State() == Pruned(start, listed[..i], now) && clock == now && nextCleanupAt == now + 30.0
      {
        var key := listed[i];
        assert listed[..i + 1][..i] == listed[..i];
        if key in expiresAt && expiresAt[key] <= now {
          Discard(key);
        }
      }
      assert listed[..|listed|] == listed;
      PrunedKeeps(start, log, window, now, stamps, touches, maxKeys, listed);
    }

    /** The key's hits in its window; asking moves the key to the end, or forgets it when there are none. */
    method RecentHits(key: Key, windowSeconds: Time, now: Time) returns (recent: seq<Time>)
      requires Valid() && clock <= now && windowSeconds == window(key)
      modifies this`order, this`hits, this`expiresAt, this`clock, this`stamps, this`touches
      ensures Valid() && clock == now
      ensures recent == Recent(Logged(log, key), now - window(key))
      ensures State() == if recent == [] then Discarded(old(State()), key)
                         else Touched(old(State()), key, recent, recent[|recent| - 1] + windowSeconds)
      ensures stamps == (if recent == [] then old(stamps) else old(stamps)[key := old(touches)])
    {
      hide Inv, Without, Ascending, Recent, Logged;
      TimeKeeps(State(), log, window, clock, now, stamps, touches, maxKeys);
      clock := now;
      KeyFacts(State(), log, window, now, stamps, touches, maxKeys, key);
      var cutoff := now - windowSeconds;
      var stored := if key in hits then hits[key] else [];
      recent := Recent(stored, cutoff);
      if recent == [] {
        DiscardKeeps(State(), log, window, now, stamps, touches, maxKeys, key);
        Discard(key);
      } else {
        RecentIsAscending(stored, cutoff, now);
        RecentTwice(stored, cutoff, cutoff);
        assert recent[0] in stored;
        TouchKeeps(State(), log, window, now, stamps, touches, maxKeys, key, recent, log);
        order := Without(order, key) + [key];
        hits := hits[key := recent];
        expiresAt := expiresAt[key := recent[|recent| - 1] + windowSeconds];
        stamps, touches := stamps[key := touches], touches + 1;
      }
    }

    /** The refinement: the answer is what counting the whole log would give, and asking records nothing. */
    method IsLimited(key: Key, maxHits: int, windowSeconds: Time, now: Time) returns (limited: bool)
      requires Valid() && clock <= now && windowSeconds == window(key)
      modifies this`order, this`hits, this`expiresAt, this`clock, this`stamps, this`touches
      ensures Valid() && clock == now
      ensures limited <==> Count(Logged(log, key), After(now - window(key))) >= maxHits
    {
      hide Inv, Recent, Count, Discarded, Touched, Logged;
      var recent := RecentHits(key, windowSeconds, now);
      RecentIsTheWindow(Logged(log, key), now - window(key));
      limited := |recent| >= maxHits;
    }

    /** One more hit in the log. Only a new key meeting a full table makes room, by forgetting the key that was
        touched longest ago. */
    method Record(key: Key, windowSeconds: Time, now: Time) returns (ghost evicted: Option<Key>)
      requires Valid() && clock <= now && windowSeconds == window(key)
      modifies this
      ensures Valid() && clock == now && key in hits
      ensures log == Forgotten(old(log), evicted)[key := Logged(old(log), key) + [now]]
      ensures evicted.Some? ==>
                && evicted.value != key && key !in old(hits) && |old(hits)| == maxKeys
                && evicted.value in old(hits) && evicted.value !in hits
                && hits.Keys == old(hits).Keys - {evicted.value} + {key}
                && OldestOf(evicted.value, hits.Keys - {key}, old(stamps))
      ensures order != [] && order[|order| - 1] == key && stamps == old(stamps)[key := old(touches)]
    {
      hide Inv, Without, Recent, Ascending, Logged, OldestOf, Forgotten;
      TimeKeeps(State(), log, window, clock, now, stamps, touches, maxKeys);
      clock := now;
      evicted := MakeRoom(key, now);
      ghost var kept := hits.Keys;
      ForgottenKeepsOthers(old(log), evicted, key);
      Append(key, windowSeconds, now);
      if evicted.Some? { assert hits.Keys - {key} == kept; }
    }

    method MakeRoom(key: Key, now: Time) returns (ghost evicted: Option<Key>)
      requires Valid() && clock == now
      modifies this`order, this`hits, this`expiresAt, this`nextCleanupAt, this`log
      ensures Valid() && (key in hits || |hits| < maxKeys)
      ensures log == Forgotten(old(log), evicted)
      ensures evicted.Some? ==>
                && evicted.value != key && key !in old(hits) && key !in hits && |old(hits)| == maxKeys
                && evicted.value in old(hits) && evicted.value !in hits
                && hits.Keys == old(hits).Keys - {evicted.value}
                && OldestOf(evicted.value, hits.Keys, stamps)
    {
      hide Inv, Without, Recent, Ascending, Logged, OldestOf;
      TableFacts(State(), log, window, now, stamps, touches, maxKeys);
      PruneExpired(now);
      evicted := None;
      if key !in hits && |hits| >= maxKeys {
        assert forall k :: k in hits.Keys ==> k in old(hits).Keys;
        FullMeansUnpruned(old(hits), hits, maxKeys);
        evicted := EvictOldest(key);
      }
    }

    method EvictOldest(ghost key: Key) returns (ghost evicted: Option<Key>)
      requires Valid() && key !in hits && |hits| >= maxKeys
      modifies this`order, this`hits, this`expiresAt, this`log
      ensures Valid() && evicted.Some? && evicted.value in old(hits) && evicted.value != key
      ensures hits.Keys == old(hits).Keys - {evicted.value} && |hits| < maxKeys
      ensures log == old(log) - {evicted.value}
      ensures OldestOf(evicted.value, hits.Keys, stamps)
    {
      hide Inv, Without, Recent, Ascending;
      TableFacts(State(), log, window, clock, stamps, touches, maxKeys);
      OldestIsFirst(State(), log, window, clock, stamps, touches, maxKeys);
      var oldest := order[0];
      assert oldest in order;
      evicted := Some(oldest);
      DiscardKeeps(State(), log, window, clock, stamps, touches, maxKeys, oldest);
      Discard(oldest);
      log := log - {oldest};
      TableFacts(State(), log, window, clock, stamps, touches, maxKeys);
    }

    method Append(key: Key, windowSeconds: Time, now: Time)
      requires Valid() && clock == now && windowSeconds == window(key)
      requires key in hits || |hits| < maxKeys
      modifies this`order, this`hits, this`expiresAt, this`log, this`stamps, this`touches
      ensures Valid() && hits.Keys == old(hits).Keys + {key}
      ensures log == old(log)[key := Logged(old(log), key) + [now]]
      ensures order != [] && order[|order| - 1] == key && stamps == old(stamps)[key := old(touches)]
    {
      hide Inv, Without, Logged;
      var before := if key in hits then hits[key] else [];
      TableSize(State(), log, window, now, stamps, touches, maxKeys);
      AppendKeeps(State(), log, window, now, stamps, touches, maxKeys, key, before);
      order := Without(order, key) + [key];
      hits := hits[key := before + [now]];
      expiresAt := expiresAt[key := now + windowSeconds];
      log, stamps, touches := log[key := Logged(log, key) + [now]], stamps[key := touches], touches + 1;
    }

    method Reset(key: Key)
      requires Valid()
      modifies this`order, this`hits, this`expiresAt, this`log
      ensures Valid() && State() == Discarded(old(State()), key) && log == old(log) - {key}
    {
      hide Inv;
      DiscardKeeps(State(), log, window, clock, stamps, touches, maxKeys, key);
      Discard(key);
      log := log - {key};
    }

    method Clear()
      requires Valid()
      modifies this`order, this`hits, this`expiresAt, this`nextCleanupAt, this`log
      ensures Valid() && State() == Table([], map[], map[]) && log == map[]
    {
      order, hits, expiresAt, nextCleanupAt := [], map[], map[], 0.0;
      log := map[];
    }
  }
}
