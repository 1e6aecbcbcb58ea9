/**
 A token bucket per key in a table of fixed capacity that evicts the key touched
 longest ago.  The table is compared with one that never evicts, its order with the
 recency of touch, and what one bucket lets through with a linear bound.
 */
module RateLimit {
  import opened Prelude

  type Key = string

  datatype Bucket = Bucket(tokens: real, lastUpdate: real)

  /** An ordered table: keys from the one touched longest ago to the latest. */
  datatype Table = Table(order: seq<Key>, buckets: map<Key, Bucket>)

  datatype Request = Request(key: Key, now: real)

  function Rate(max: nat): real { max as real / 60.0 }

  function Min(x: real, y: real): real { if x < y then x else y }

  function Accrued(max: nat, b: Bucket, now: real): real { (now - b.lastUpdate) * Rate(max) }

  function Refilled(max: nat, b: Bucket, now: real): real { Min(max as real, b.tokens + Accrued(max, b, now)) }

  /** One request against the bucket of its key, if there is one: the new bucket and the answer. */
  function Touch(max: nat, b: Option<Bucket>, now: real): (Bucket, bool) {
    match b
    case None => (Bucket(max as real - 1.0, now), true)
    case Some(b) =>
      var tokens := Refilled(max, b, now);
      if tokens >= 1.0 then (Bucket(tokens - 1.0, now), true) else (Bucket(tokens, now), false)
  }

  function Find(m: map<Key, Bucket>, k: Key): Option<Bucket> { if k in m then Some(m[k]) else None }

  function Without(s: seq<Key>, k: Key): (r: seq<Key>)
    ensures |r| <= |s| && forall x :: x in r ==> x in s && x != k
    ensures forall x :: x in s && x != k ==> x in r
  {
    if s == [] then [] else if s[0] == k then Without(s[1..], k) else [s[0]] + Without(s[1..], k)
  }

  ghost predicate Distinct(s: seq<Key>) { forall i, j :: 0 <= i < j < |s| ==> s[i] != s[j] }

  ghost predicate Wellformed(t: Table) {
    Distinct(t.order) && forall k :: k in t.order <==> k in t.buckets
  }

  /** The table with its oldest entries dropped until there is room for one more. */
  function Trimmed(cap: nat, t: Table): (r: Table)
    requires cap > 0
    ensures |r.order| < cap
    decreases |t.order|
  {
    if |t.order| < cap then t else Trimmed(cap, Table(t.order[1..], t.buckets - {t.order[0]}))
  }

  function After(max: nat, cap: nat, t: Table, r: Request): Table
    requires cap > 0
  {
    var b := Touch(max, Find(t.buckets, r.key), r.now).0;
    if r.key in t.buckets then Table(Without(t.order, r.key) + [r.key], t.buckets[r.key := b])
    else var u := Trimmed(cap, t); Table(u.order + [r.key], u.buckets[r.key := b])
  }

  function Answer(max: nat, t: Table, r: Request): bool { Touch(max, Find(t.buckets, r.key), r.now).1 }

  lemma {:induction false} WithoutDistinct(s: seq<Key>, k: Key)
    requires Distinct(s)
    ensures Distinct(Without(s, k))
    ensures k in s ==> |Without(s, k)| == |s| - 1
    ensures k !in s ==> Without(s, k) == s
  {
    if s != [] {
      WithoutDistinct(s[1..], k);
      assert s == [s[0]] + s[1..];
      assert s[0] !in s[1..];
    }
  }

  lemma {:induction false} TrimmedShape(cap: nat, t: Table)
    requires cap > 0 && Wellformed(t)
    ensures var u := Trimmed(cap, t);
            && Wellformed(u)
            && u.order == t.order[if |t.order| < cap then 0 else |t.order| - cap + 1..]
            && forall k :: k in u.buckets ==> k in t.buckets && u.buckets[k] == t.buckets[k]
    decreases |t.order|
  {
    if |t.order| >= cap {
      var t1 := Table(t.order[1..], t.buckets - {t.order[0]});
      assert t.order == [t.order[0]] + t1.order;
      TrimmedShape(cap, t1);
    }
  }

  lemma AfterWellformed(max: nat, cap: nat, t: Table, r: Request)
    requires cap > 0 && Wellformed(t) && |t.order| <= cap
    ensures var u := After(max, cap, t, r);
            && Wellformed(u) && |u.order| <= cap && r.key in u.buckets
            && u.buckets[r.key] == Touch(max, Find(t.buckets, r.key), r.now).0
            && forall k :: k in u.buckets && k != r.key ==> k in t.buckets && u.buckets[k] == t.buckets[k]
  {
    if r.key in t.buckets { WithoutDistinct(t.order, r.key); } else { TrimmedShape(cap, t); }
  }

  lemma NewKeyIsAllowed(max: nat, t: Table, r: Request)
    requires r.key !in t.buckets
    ensures Answer(max, t, r)
  {
  }

  class PerUserRateLimiter {
    var maxPerMinute: int
    var maxTrackedKeys: int
    var order: seq<Key>
    var buckets: map<Key, Bucket>
    var evictions: nat

    ghost function View(): Table reads this { Table(order, buckets) }

    ghost predicate Valid() reads this {
      maxPerMinute >= 0 && maxTrackedKeys >= 1 && Wellformed(View()) && |order| <= maxTrackedKeys
    }

    constructor (limit: int, capacity: int)
      ensures Valid() && View() == Table([], map[])
      ensures maxPerMinute == (if limit < 0 then 0 else limit) && maxTrackedKeys == if capacity < 1 then 1 else capacity
    {
      maxPerMinute := if limit < 0 then 0 else limit;
      maxTrackedKeys := if capacity < 1 then 1 else capacity;
      order, buckets, evictions := [], map[], 0;
    }

    /** _admit: make room by evicting from the front, then append a fresh bucket. */
    method Admit(key: Key, now: real)
      requires Valid() && key !in buckets && maxPerMinute >= 1
      modifies this`order, this`buckets, this`evictions
      ensures Valid()
      ensures View() == After(maxPerMinute, maxTrackedKeys, old(View()), Request(key, now))
      ensures evictions == old(evictions) + old(|order|) + 1 - |order|
    {
      while |order| >= maxTrackedKeys
        invariant Wellformed(View()) && key !in buckets && |order| <= maxTrackedKeys
        invariant Trimmed(maxTrackedKeys, View()) == Trimmed(maxTrackedKeys, old(View()))
        invariant evictions + |order| == old(evictions) + old(|order|)
        decreases |order|
      {
        TrimmedShape(maxTrackedKeys, View());
        var oldest := order[0];
        assert order == [oldest] + order[1..];
        order, buckets := order[1..], buckets - {oldest};
        evictions := evictions + 1;
      }
      assert Trimmed(maxTrackedKeys, old(View())) == View();
      AfterWellformed(maxPerMinute, maxTrackedKeys, old(View()), Request(key, now));
      order := order + [key];
      buckets := buckets[key := Bucket(maxPerMinute as real - 1.0, now)];
    }

    method Allow(user: Key, now: real) returns (allowed: bool)
      requires Valid()
      modifies this`order, this`buckets, this`evictions
      ensures Valid()
      ensures maxPerMinute == 0 ==> allowed && View() == old(View())
      ensures maxPerMinute > 0 ==>
                var r := Request(if user == "" then "anonymous" else user, now);
                && allowed == Answer(maxPerMinute, old(View()), r)
                && View() == After(maxPerMinute, maxTrackedKeys, old(View()), r)
    {
      hide Wellformed, After, Touch;
      if maxPerMinute <= 0 { return true; }
      var key := if user == "" then "anonymous" else user;
      if key !in buckets {
        NewKeyIsAllowed(maxPerMinute, View(), Request(key, now));
        Admit(key, now);
        return true;
      }
      allowed := Spend(key, now);
    }

    /** A request of a key that has a bucket: the key moves to the end of the table. */
    method Spend(key: Key, now: real) returns (allowed: bool)
      requires Valid() && maxPerMinute > 0 && key in buckets
      modifies this`order, this`buckets
      ensures Valid()
      ensures allowed == Answer(maxPerMinute, old(View()), Request(key, now))
      ensures View() == After(maxPerMinute, maxTrackedKeys, old(View()), Request(key, now))
    {
      hide Wellformed, Touch, Trimmed;
      AfterWellformed(maxPerMinute, maxTrackedKeys, View(), Request(key, now));
      order := Without(order, key) + [key];
      var bucket;
      bucket, allowed := Refill(buckets[key], now);
      buckets := buckets[key := bucket];
    }

    /** The bucket takes in what has accrued since its last update and pays for the request if it can. */
    method Refill(previous: Bucket, now: real) returns (bucket: Bucket, allowed: bool)
      requires maxPerMinute > 0
      ensures (bucket, allowed) == Touch(maxPerMinute, Some(previous), now)
    {
      var tokens := Min(maxPerMinute as real, previous.tokens + Accrued(maxPerMinute, previous, now));
      if tokens >= 1.0 {
        return Bucket(tokens - 1.0, now), true;
      }
      return Bucket(tokens, now), false;
    }
  }

  // ------------------------------------------------------------------
  // Runs
  // ------------------------------------------------------------------

  function Run(max: nat, cap: nat, reqs: seq<Request>): Table
    requires cap > 0
  {
    if reqs == [] then Table([], map[])
    else After(max, cap, Run(max, cap, reqs[..|reqs| - 1]), reqs[|reqs| - 1])
  }

  /** The same limiter with a plain dictionary that never forgets a key. */
  function Unbounded(max: nat, reqs: seq<Request>): map<Key, Bucket> {
    if reqs == [] then map[]
    else
      var m := Unbounded(max, reqs[..|reqs| - 1]);
      var r := reqs[|reqs| - 1];
      m[r.key := Touch(max, Find(m, r.key), r.now).0]
  }

  function AnswerAt(max: nat, cap: nat, reqs: seq<Request>, i: nat): bool
    requires cap > 0 && i < |reqs|
  {
    Answer(max, Run(max, cap, reqs[..i]), reqs[i])
  }

  function UnboundedAnswerAt(max: nat, reqs: seq<Request>, i: nat): bool
    requires i < |reqs|
  {
    Touch(max, Find(Unbounded(max, reqs[..i]), reqs[i].key), reqs[i].now).1
  }

  lemma {:induction false} RunWellformed(max: nat, cap: nat, reqs: seq<Request>)
    requires cap > 0
    ensures Wellformed(Run(max, cap, reqs)) && |Run(max, cap, reqs).order| <= cap
  {
    if reqs != [] {
      var before := reqs[..|reqs| - 1];
      RunWellformed(max, cap, before);
      AfterWellformed(max, cap, Run(max, cap, before), reqs[|reqs| - 1]);
    }
  }

  /** The distinct keys of a run in the order of their latest touch. */
  function Recency(reqs: seq<Request>): seq<Key> {
    if reqs == [] then []
    else var k := reqs[|reqs| - 1].key; Without(Recency(reqs[..|reqs| - 1]), k) + [k]
  }

  function Last(s: seq<Key>, n: nat): seq<Key> { if |s| <= n then s else s[|s| - n..] }

  lemma {:induction false} WithoutConcat(a: seq<Key>, b: seq<Key>, k: Key)
    ensures Without(a + b, k) == Without(a, k) + Without(b, k)
  {
    if a == [] {
      assert a + b == b;
    } else {
      assert (a + b)[1..] == a[1..] + b;
      WithoutConcat(a[1..], b, k);
    }
  }

  lemma {:induction false} RecencyDistinct(reqs: seq<Request>)
    ensures Distinct(Recency(reqs))
  {
    if reqs != [] {
      var before := reqs[..|reqs| - 1];
      RecencyDistinct(before);
      WithoutDistinct(Recency(before), reqs[|reqs| - 1].key);
    }
  }

  ghost predicate Asked(reqs: seq<Request>, k: Key) { exists i :: 0 <= i < |reqs| && reqs[i].key == k }

  lemma AskedPush(before: seq<Request>, r: Request, k: Key)
    ensures Asked(before + [r], k) <==> Asked(before, k) || r.key == k
  {
    var all := before + [r];
    assert all[|before|] == r;
    if i :| 0 <= i < |before| && before[i].key == k { assert all[i].key == k; }
  }

  lemma {:induction false} RecencyHas(reqs: seq<Request>)
    ensures forall k :: k in Recency(reqs) <==> Asked(reqs, k)
  {
    hide Asked;
    if reqs == [] {
      forall k ensures !Asked(reqs, k) { NoneAsked(k); }
    } else {
      var before, r := reqs[..|reqs| - 1], reqs[|reqs| - 1];
      assert reqs == before + [r];
      RecencyHas(before);
      forall k ensures k in Recency(reqs) <==> Asked(reqs, k) { AskedPush(before, r, k); }
    }
  }

  lemma NoneAsked(k: Key)
    ensures !Asked([], k)
  {
  }

  /** Eviction follows recency of touch: the table holds exactly the keys touched last. */
  lemma {:induction false} TableIsMostRecent(max: nat, cap: nat, reqs: seq<Request>)
    requires cap > 0
    ensures Run(max, cap, reqs).order == Last(Recency(reqs), cap)
  {
    if reqs != [] {
      var before := reqs[..|reqs| - 1];
      TableIsMostRecent(max, cap, before);
      RunWellformed(max, cap, before);
      RecencyDistinct(before);
      AfterIsMostRecent(max, cap, Run(max, cap, before), Recency(before), reqs[|reqs| - 1]);
    }
  }

  lemma AfterIsMostRecent(max: nat, cap: nat, t: Table, recent: seq<Key>, r: Request)
    requires cap > 0 && Wellformed(t) && Distinct(recent) && t.order == Last(recent, cap)
    ensures After(max, cap, t, r).order == Last(Without(recent, r.key) + [r.key], cap)
  {
    if r.key in t.order { TouchTracked(cap, t.order, recent, r.key); }
    else { TrimmedShape(cap, t); TouchNew(cap, t.order, recent, r.key); }
  }

  lemma TouchTracked(cap: nat, order: seq<Key>, recent: seq<Key>, k: Key)
    requires cap > 0 && Distinct(recent) && order == Last(recent, cap) && k in order
    ensures Without(order, k) + [k] == Last(Without(recent, k) + [k], cap)
  {
    hide Distinct, Without;
    var head := recent[..|recent| - |order|];
    assert recent == head + order;
    DistinctParts(head, order);
    WithoutConcat(head, order, k);
    WithoutDistinct(order, k);
    WithoutDistinct(head, k);
    NotInBoth(head, order, k);
    assert Without(recent, k) + [k] == head + (Without(order, k) + [k]);
    LastOfConcat(head, Without(order, k) + [k], cap);
  }

  lemma TouchNew(cap: nat, order: seq<Key>, recent: seq<Key>, k: Key)
    requires cap > 0 && Distinct(recent) && order == Last(recent, cap) && k !in order
    ensures order[if |order| < cap then 0 else |order| - cap + 1..] + [k] == Last(Without(recent, k) + [k], cap)
  {
    hide Distinct, Without;
    var head := recent[..|recent| - |order|];
    assert recent == head + order;
    DistinctParts(head, order);
    WithoutConcat(head, order, k);
    WithoutDistinct(order, k);
    assert Without(recent, k) + [k] == Without(head, k) + (order + [k]);
    if head == [] { WithoutNothing(k); }
    LastOfLonger(Without(head, k), order + [k], cap);
  }

  lemma WithoutNothing(k: Key)
    ensures Without([], k) == []
  {
  }

  lemma DistinctParts(a: seq<Key>, b: seq<Key>)
    requires Distinct(a + b)
    ensures Distinct(a) && Distinct(b)
  {
    forall i, j | 0 <= i < j < |a| ensures a[i] != a[j] { assert (a + b)[i] == a[i] && (a + b)[j] == a[j]; }
    forall i, j | 0 <= i < j < |b| ensures b[i] != b[j] {
      assert (a + b)[|a| + i] == b[i] && (a + b)[|a| + j] == b[j];
    }
  }

  lemma LastOfConcat(a: seq<Key>, b: seq<Key>, n: nat)
    requires |b| == n || (a == [] && |b| <= n)
    ensures Last(a + b, n) == b
  {
    if a == [] { assert a + b == b; }
  }

  lemma LastOfLonger(a: seq<Key>, b: seq<Key>, n: nat)
    requires |b| == n + 1 || (a == [] && |b| <= n)
    ensures Last(a + b, n) == if |b| <= n then b else b[1..]
  {
    if a == [] { assert a + b == b; }
  }

  lemma NotInBoth(a: seq<Key>, b: seq<Key>, k: Key)
    requires Distinct(a + b) && k in b
    ensures k !in a
  {
    var j :| 0 <= j < |b| && b[j] == k;
    assert (a + b)[|a| + j] == k;
    forall i | 0 <= i < |a| ensures a[i] != k {
      assert (a + b)[i] == a[i];
    }
  }

  // ------------------------------------------------------------------
  // Agreement with the table that never evicts
  // ------------------------------------------------------------------

  ghost predicate Monotone(reqs: seq<Request>) {
    forall i, j :: 0 <= i <= j < |reqs| ==> reqs[i].now <= reqs[j].now
  }

  /** A key that was evicted comes back only after a full minute without a touch. */
  ghost predicate EvictedStayAway(cap: nat, reqs: seq<Request>) {
    forall i, j :: (0 <= i < j < |reqs| && reqs[i].key == reqs[j].key
      && reqs[j].key !in Last(Recency(reqs[..j]), cap)) ==>
      reqs[j].now - reqs[i].now >= 60.0
  }

  /** Every bucket of the table is the one that was never evicted. */
  ghost predicate Agrees(t: Table, m: map<Key, Bucket>) {
    forall k :: k in t.buckets ==> k in m && m[k] == t.buckets[k]
  }

  ghost predicate Sound(max: nat, b: Bucket, now: real) {
    0.0 <= b.tokens <= max as real && b.lastUpdate <= now
  }

  ghost predicate TouchedAt(reqs: seq<Request>, k: Key, time: real) {
    exists i :: 0 <= i < |reqs| && reqs[i].key == k && reqs[i].now == time
  }

  lemma Scale(x: real, y: real, z: real)
    requires x >= y && z >= 0.0
    ensures x * z >= y * z
  {
  }

  lemma RateOfAMinute(max: nat)
    ensures 60.0 * Rate(max) == max as real
  {
  }

  lemma AccruesAMinute(max: nat, b: Bucket, now: real)
    requires now - b.lastUpdate >= 60.0
    ensures Accrued(max, b, now) >= max as real
  {
    Scale(now - b.lastUpdate, 60.0, Rate(max));
    RateOfAMinute(max);
  }

  lemma AccruesNoLess(max: nat, b: Bucket, now: real)
    requires now - b.lastUpdate >= 0.0
    ensures Accrued(max, b, now) >= 0.0
  {
    Scale(now - b.lastUpdate, 0.0, Rate(max));
  }

  lemma FullMinuteRefills(max: nat, b: Bucket, now: real)
    requires max >= 1 && b.tokens >= 0.0 && now - b.lastUpdate >= 60.0
    ensures Touch(max, Some(b), now) == Touch(max, None, now)
  {
    hide Accrued;
    AccruesAMinute(max, b, now);
  }

  lemma TouchBounds(max: nat, b: Option<Bucket>, now: real)
    requires max >= 1 && (b.Some? ==> Sound(max, b.value, now))
    ensures Sound(max, Touch(max, b, now).0, now)
  {
    hide Accrued;
    if b.Some? { AccruesNoLess(max, b.value, now); }
  }

  lemma AgreementStep(max: nat, cap: nat, t: Table, m: map<Key, Bucket>, r: Request)
    requires max >= 1 && cap > 0 && Wellformed(t) && |t.order| <= cap && Agrees(t, m)
    requires r.key in m ==> m[r.key].tokens >= 0.0
    requires r.key in m && r.key !in t.buckets ==> r.now - m[r.key].lastUpdate >= 60.0
    ensures Agrees(After(max, cap, t, r), m[r.key := Touch(max, Find(m, r.key), r.now).0])
    ensures Answer(max, t, r) == Touch(max, Find(m, r.key), r.now).1
  {
    AfterWellformed(max, cap, t, r);
    if r.key in m && r.key !in t.buckets { FullMinuteRefills(max, m[r.key], r.now); }
  }

  /** Buckets of the unbounded table are in range, and carry the time of one of their touches. */
  lemma {:induction false} UnboundedSound(max: nat, reqs: seq<Request>)
    requires max >= 1 && Monotone(reqs)
    ensures forall k :: k in Unbounded(max, reqs) ==>
              && TouchedAt(reqs, k, Unbounded(max, reqs)[k].lastUpdate)
              && forall now :: (forall i :: 0 <= i < |reqs| ==> reqs[i].now <= now) ==>
                Sound(max, Unbounded(max, reqs)[k], now)
  {
    if reqs != [] {
      var n := |reqs| - 1;
      var before, r := reqs[..n], reqs[n];
      assert Monotone(before);
      UnboundedSound(max, before);
      var m := Unbounded(max, before);
      TouchBounds(max, Find(m, r.key), r.now);
      forall k | k in Unbounded(max, reqs) ensures TouchedAt(reqs, k, Unbounded(max, reqs)[k].lastUpdate) {
        if k == r.key {
          assert reqs[n].key == k;
        } else {
          var i :| 0 <= i < |before| && before[i].key == k && before[i].now == m[k].lastUpdate;
          assert reqs[i] == before[i];
        }
      }
    }
  }

  lemma Prefixes(cap: nat, reqs: seq<Request>, n: nat)
    requires n <= |reqs| && Monotone(reqs) && EvictedStayAway(cap, reqs)
    ensures Monotone(reqs[..n]) && EvictedStayAway(cap, reqs[..n])
  {
    forall j | 0 <= j < n ensures reqs[..n][..j] == reqs[..j] {}
  }

  lemma {:induction false} Simulation(max: nat, cap: nat, reqs: seq<Request>)
    requires max >= 1 && cap > 0 && Monotone(reqs) && EvictedStayAway(cap, reqs)
    ensures Agrees(Run(max, cap, reqs), Unbounded(max, reqs))
    ensures reqs != [] ==> AnswerAt(max, cap, reqs, |reqs| - 1) == UnboundedAnswerAt(max, reqs, |reqs| - 1)
  {
    hide Wellformed, Agrees, Sound, Touch;
    if reqs == [] {
      NoneAgree();
    } else {
      var n := |reqs| - 1;
      var before, r := reqs[..n], reqs[n];
      Prefixes(cap, reqs, n);
      Simulation(max, cap, before);
      RunWellformed(max, cap, before);
      Returning(max, cap, reqs);
      AgreementStep(max, cap, Run(max, cap, before), Unbounded(max, before), r);
    }
  }

  lemma NoneAgree()
    ensures Agrees(Table([], map[]), map[])
  {
  }

  /** What the last request of a run finds in the two tables. */
  lemma Returning(max: nat, cap: nat, reqs: seq<Request>)
    requires max >= 1 && cap > 0 && Monotone(reqs) && EvictedStayAway(cap, reqs) && reqs != []
    ensures var n := |reqs| - 1;
            var m, t, r := Unbounded(max, reqs[..n]), Run(max, cap, reqs[..n]), reqs[n];
            && (r.key in m ==> m[r.key].tokens >= 0.0)
            && (r.key in m && r.key !in t.buckets ==> r.now - m[r.key].lastUpdate >= 60.0)
  {
    hide Touch, Run, Unbounded, Recency;
    var n := |reqs| - 1;
    var before, r := reqs[..n], reqs[n];
    assert Monotone(before);
    UnboundedSound(max, before);
    var m := Unbounded(max, before);
    if r.key in m {
      assert forall i :: 0 <= i < |before| ==> before[i].now <= r.now;
      assert Sound(max, m[r.key], r.now);
      RunWellformed(max, cap, before);
      TableIsMostRecent(max, cap, before);
      var i :| 0 <= i < |before| && before[i].key == r.key && before[i].now == m[r.key].lastUpdate;
      assert reqs[i] == before[i];
    }
  }

  /** The bounded limiter answers every request as the unbounded one would. */
  lemma BoundedAgreesWithUnbounded(max: nat, cap: nat, reqs: seq<Request>, i: nat)
    requires max >= 1 && cap > 0 && Monotone(reqs) && EvictedStayAway(cap, reqs) && i < |reqs|
    ensures AnswerAt(max, cap, reqs, i) == UnboundedAnswerAt(max, reqs, i)
  {
    Prefixes(cap, reqs, i + 1);
    Simulation(max, cap, reqs[..i + 1]);
    assert reqs[..i + 1][..i] == reqs[..i];
  }

  // ------------------------------------------------------------------
  // What one bucket lets through
  // ------------------------------------------------------------------

  /** Requests of one key allowed among those numbered i to j - 1. */
  function AllowedCount(max: nat, cap: nat, reqs: seq<Request>, k: Key, i: nat, j: nat): nat
    requires cap > 0 && i <= j <= |reqs|
  {
    if i == j then 0
    else AllowedCount(max, cap, reqs, k, i, j - 1)
         + if reqs[j - 1].key == k && AnswerAt(max, cap, reqs, j - 1) then 1 else 0
  }

  ghost predicate Tracked(max: nat, cap: nat, reqs: seq<Request>, k: Key, i: nat, j: nat)
    requires cap > 0 && j <= |reqs|
  {
    forall n :: i <= n <= j ==> k in Run(max, cap, reqs[..n]).buckets
  }

  function Potential(max: nat, b: Bucket): real { b.tokens - Rate(max) * b.lastUpdate }

  lemma AccruedIs(max: nat, b: Bucket, now: real)
    ensures Accrued(max, b, now) == Rate(max) * now - Rate(max) * b.lastUpdate
  {
    hide Rate;
    Linear(Rate(max), b.lastUpdate, now);
    Commutes(now - b.lastUpdate, Rate(max));
  }

  lemma Commutes(x: real, y: real)
    ensures x * y == y * x
  {
  }

  lemma TouchSpendsPotential(max: nat, b: Bucket, now: real)
    ensures var (b', ok) := Touch(max, Some(b), now);
            Potential(max, b') <= Potential(max, b) - if ok then 1.0 else 0.0
  {
    hide Accrued, Rate;
    AccruedIs(max, b, now);
  }

  lemma PotentialStep(max: nat, cap: nat, t: Table, r: Request, k: Key)
    requires cap > 0 && Wellformed(t) && |t.order| <= cap && k in t.buckets && k in After(max, cap, t, r).buckets
    ensures Potential(max, After(max, cap, t, r).buckets[k])
            <= Potential(max, t.buckets[k]) - if r.key == k && Answer(max, t, r) then 1.0 else 0.0
  {
    hide Touch, Potential;
    AfterWellformed(max, cap, t, r);
    if r.key == k { TouchSpendsPotential(max, t.buckets[k], r.now); }
  }

  lemma {:induction false} PotentialBound(max: nat, cap: nat, reqs: seq<Request>, k: Key, i: nat, j: nat)
    requires cap > 0 && i <= j <= |reqs| && Tracked(max, cap, reqs, k, i, j)
    ensures AllowedCount(max, cap, reqs, k, i, j) as real
            <= Potential(max, Run(max, cap, reqs[..i]).buckets[k]) - Potential(max, Run(max, cap, reqs[..j]).buckets[k])
    decreases j - i
  {
    hide Touch, Wellformed, Potential, After, Answer;
    if i < j {
      PotentialBound(max, cap, reqs, k, i, j - 1);
      RunWellformed(max, cap, reqs[..j - 1]);
      assert reqs[..j][..j - 1] == reqs[..j - 1];
      assert Run(max, cap, reqs[..j]) == After(max, cap, Run(max, cap, reqs[..j - 1]), reqs[j - 1]);
      PotentialStep(max, cap, Run(max, cap, reqs[..j - 1]), reqs[j - 1], k);
    }
  }

  /** Between two allowed requests of a bucket that is not evicted, at most max plus its refill is allowed,
      even when the time stamps reach the table out of order. */
  lemma RateIsBounded(max: nat, cap: nat, reqs: seq<Request>, k: Key, i: nat, j: nat)
    requires max >= 1 && cap > 0 && i <= j < |reqs| && reqs[i].key == k && reqs[j].key == k
    requires AnswerAt(max, cap, reqs, i) && AnswerAt(max, cap, reqs, j)
    requires Tracked(max, cap, reqs, k, i + 1, j)
    ensures AllowedCount(max, cap, reqs, k, i, j + 1) as real <= max as real + Rate(max) * (reqs[j].now - reqs[i].now)
  {
    hide Wellformed, Run, AnswerAt, AllowedCount, Rate, Potential;
    AllowedLeaves(max, cap, reqs, i);
    AllowedLeaves(max, cap, reqs, j);
    PotentialBound(max, cap, reqs, k, i + 1, j + 1);
    CountSplits(max, cap, reqs, k, i, i + 1, j + 1);
    CountOne(max, cap, reqs, k, i);
    var a, b := Run(max, cap, reqs[..i + 1]).buckets[k], Run(max, cap, reqs[..j + 1]).buckets[k];
    var later := AllowedCount(max, cap, reqs, k, i + 1, j + 1);
    Spent(later as real, max, a, b, reqs[i].now, reqs[j].now);
    assert (1 + later) as real == 1.0 + later as real;
  }

  /** A potential spent from a bucket that had max - 1 tokens to one that has none left. */
  lemma Spent(later: real, max: nat, a: Bucket, b: Bucket, x: real, y: real)
    requires later <= Potential(max, a) - Potential(max, b) && a.lastUpdate == x && b.lastUpdate == y
    requires a.tokens <= max as real - 1.0 && b.tokens >= 0.0
    ensures 1.0 + later <= max as real + Rate(max) * (y - x)
  {
    hide Rate;
    Linear(Rate(max), x, y);
  }

  lemma CountOne(max: nat, cap: nat, reqs: seq<Request>, k: Key, i: nat)
    requires cap > 0 && i < |reqs| && reqs[i].key == k && AnswerAt(max, cap, reqs, i)
    ensures AllowedCount(max, cap, reqs, k, i, i + 1) == 1
  {
    hide AnswerAt;
    assert AllowedCount(max, cap, reqs, k, i, i) == 0;
  }

  lemma Linear(z: real, x: real, y: real)
    ensures z * y - z * x == z * (y - x)
  {
  }

  /** An allowed request leaves its bucket with what it had above one token, and at most max - 1. */
  lemma AllowedLeaves(max: nat, cap: nat, reqs: seq<Request>, i: nat)
    requires max >= 1 && cap > 0 && i < |reqs| && AnswerAt(max, cap, reqs, i)
    ensures var m := Run(max, cap, reqs[..i + 1]).buckets;
            reqs[i].key in m && 0.0 <= m[reqs[i].key].tokens <= max as real - 1.0
              && m[reqs[i].key].lastUpdate == reqs[i].now
  {
    assert reqs[..i + 1][..i] == reqs[..i];
    RunWellformed(max, cap, reqs[..i]);
    AfterWellformed(max, cap, Run(max, cap, reqs[..i]), reqs[i]);
  }

  lemma {:induction false} CountSplits(max: nat, cap: nat, reqs: seq<Request>, k: Key, i: nat, m: nat, j: nat)
    requires cap > 0 && i <= m <= j <= |reqs|
    ensures AllowedCount(max, cap, reqs, k, i, j)
            == AllowedCount(max, cap, reqs, k, i, m) + AllowedCount(max, cap, reqs, k, m, j)
    decreases j - m
  {
    if m < j { CountSplits(max, cap, reqs, k, i, m, j - 1); }
  }

  // ------------------------------------------------------------------
  // Forgetting a key never costs it a request
  // ------------------------------------------------------------------

  /** Requests of one key among the first j that the table which never evicts allows. */
  function UnboundedCount(max: nat, reqs: seq<Request>, k: Key, j: nat): nat
    requires j <= |reqs|
  {
    if j == 0 then 0
    else UnboundedCount(max, reqs, k, j - 1)
         + if reqs[j - 1].key == k && UnboundedAnswerAt(max, reqs, j - 1) then 1 else 0
  }

  /** What a key could still spend at once; one without a bucket could spend the whole budget. */
  function Left(max: nat, b: Option<Bucket>): real { if b.Some? then b.value.tokens else max as real }

  /** Bounded against unbounded: the requests allowed, and those allowed and still affordable together, are
      no fewer; a bucket that was kept was updated when the other was. */
  ghost predicate NoWorse(max: nat, b: Option<Bucket>, u: Option<Bucket>, allowed: nat, otherwise: nat) {
    && allowed >= otherwise
    && allowed as real + Left(max, b) >= otherwise as real + Left(max, u)
    && Left(max, b) <= max as real && Left(max, u) <= max as real
    && (b.Some? ==> u.Some? && u.value.lastUpdate == b.value.lastUpdate)
  }

  lemma TouchIsNoWorse(max: nat, b: Option<Bucket>, u: Option<Bucket>, allowed: nat, otherwise: nat, now: real)
    requires max >= 1 && NoWorse(max, b, u, allowed, otherwise)
    ensures var (b', yes) := Touch(max, b, now);
            var (u', also) := Touch(max, u, now);
            NoWorse(max, Some(b'), Some(u'), allowed + if yes then 1 else 0, otherwise + if also then 1 else 0)
  {
    hide Rate;
    if b.Some? { assert Accrued(max, b.value, now) == Accrued(max, u.value, now); }
  }

  lemma EvictionIsNoWorse(max: nat, b: Option<Bucket>, u: Option<Bucket>, allowed: nat, otherwise: nat)
    requires NoWorse(max, b, u, allowed, otherwise)
    ensures NoWorse(max, None, u, allowed, otherwise)
  {
  }

  /** What a request does to the bucket of any key: its own is touched, another's is kept or evicted. */
  lemma AfterFinds(max: nat, cap: nat, t: Table, r: Request, k: Key)
    requires cap > 0 && Wellformed(t) && |t.order| <= cap
    ensures k == r.key ==> Find(After(max, cap, t, r).buckets, k) == Some(Touch(max, Find(t.buckets, k), r.now).0)
    ensures k != r.key ==>
              Find(After(max, cap, t, r).buckets, k) == None
                || Find(After(max, cap, t, r).buckets, k) == Find(t.buckets, k)
  {
    hide Touch;
    AfterWellformed(max, cap, t, r);
  }

  lemma {:induction false} NoWorseSoFar(max: nat, cap: nat, reqs: seq<Request>, k: Key, j: nat)
    requires max >= 1 && cap > 0 && j <= |reqs|
    ensures NoWorse(max, Find(Run(max, cap, reqs[..j]).buckets, k), Find(Unbounded(max, reqs[..j]), k),
                    AllowedCount(max, cap, reqs, k, 0, j), UnboundedCount(max, reqs, k, j))
  {
    hide NoWorse, Touch, Wellformed, After;
    if j == 0 {
      NothingIsNoWorse(max);
    } else {
      var before, r := reqs[..j - 1], reqs[j - 1];
      assert reqs[..j][..j - 1] == before;
      NoWorseSoFar(max, cap, reqs, k, j - 1);
      RunWellformed(max, cap, before);
      var t, m := Run(max, cap, before), Unbounded(max, before);
      var allowed, otherwise := AllowedCount(max, cap, reqs, k, 0, j - 1), UnboundedCount(max, reqs, k, j - 1);
      AfterFinds(max, cap, t, r, k);
      if r.key == k {
        TouchIsNoWorse(max, Find(t.buckets, k), Find(m, k), allowed, otherwise, r.now);
      } else {
        EvictionIsNoWorse(max, Find(t.buckets, k), Find(m, k), allowed, otherwise);
      }
    }
  }

  lemma NothingIsNoWorse(max: nat)
    ensures NoWorse(max, None, None, 0, 0)
  {
  }

  /** Eviction fails open.  For every sequence of requests, whatever the clock does and whichever keys
      return, a key is allowed at least as many as if nothing were ever evicted. */
  lemma EvictionFailsOpen(max: nat, cap: nat, reqs: seq<Request>, k: Key, j: nat)
    requires max >= 1 && cap > 0 && j <= |reqs|
    ensures AllowedCount(max, cap, reqs, k, 0, j) >= UnboundedCount(max, reqs, k, j)
  {
    hide Run, Unbounded, AllowedCount, UnboundedCount;
    NoWorseSoFar(max, cap, reqs, k, j);
  }

  // ------------------------------------------------------------------
  // A refusal is earned
  // ------------------------------------------------------------------

  /** Requests of one key among the first j that were allowed and are stamped after a moment. */
  function AllowedSince(max: nat, cap: nat, reqs: seq<Request>, k: Key, since: real, j: nat): nat
    requires cap > 0 && j <= |reqs|
  {
    if j == 0 then 0
    else AllowedSince(max, cap, reqs, k, since, j - 1)
         + if reqs[j - 1].key == k && reqs[j - 1].now > since && AnswerAt(max, cap, reqs, j - 1) then 1 else 0
  }

  /** What the rate makes of a time stamp. */
  function EarnedBy(max: nat, time: real): real { Rate(max) * time }

  /** A bucket holds what accrued since a moment, up to the whole budget, less what was allowed since. */
  ghost predicate Owes(max: nat, b: Bucket, allowed: nat, since: real) {
    && b.tokens >= 0.0
    && (since <= b.lastUpdate ==>
          b.tokens + allowed as real >= Min(max as real, EarnedBy(max, b.lastUpdate) - EarnedBy(max, since)))
  }

  lemma AccruedIsEarned(max: nat, b: Bucket, now: real)
    ensures Accrued(max, b, now) == EarnedBy(max, now) - EarnedBy(max, b.lastUpdate)
  {
    hide Accrued, Rate;
    AccruedIs(max, b, now);
  }

  lemma RateOrder(max: nat, x: real, y: real)
    requires x <= y
    ensures EarnedBy(max, x) <= EarnedBy(max, y)
  {
    RateIsPositive(max);
    Scaled(Rate(max), x, y);
  }

  lemma RateIsPositive(max: nat)
    ensures Rate(max) >= 0.0
  {
  }

  lemma Scaled(rate: real, x: real, y: real)
    requires rate >= 0.0 && x <= y
    ensures rate * x <= rate * y
  {
  }

  lemma FreshBucketOwes(max: nat, allowed: nat, since: real, now: real)
    requires max >= 1 && (now > since ==> allowed >= 1)
    ensures Owes(max, Bucket(max as real - 1.0, now), allowed, since)
  {
    hide EarnedBy;
    if since <= now { RateOrder(max, since, now); }
  }

  lemma RefilledOwes(max: nat, b: Bucket, allowed: nat, since: real, now: real)
    requires max >= 1 && Owes(max, b, allowed, since) && b.lastUpdate <= now && since <= now
    ensures Refilled(max, b, now) >= 0.0
    ensures Refilled(max, b, now) + allowed as real >= Min(max as real, EarnedBy(max, now) - EarnedBy(max, since))
  {
    hide Rate, EarnedBy, Accrued, Refilled;
    AccruedIsEarned(max, b, now);
    RateOrder(max, b.lastUpdate, now);
    if since > b.lastUpdate { RateOrder(max, b.lastUpdate, since); } else { RateOrder(max, since, b.lastUpdate); }
    var upTo, last, from := EarnedBy(max, now), EarnedBy(max, b.lastUpdate), EarnedBy(max, since);
    RefillCovers(max as real, b.tokens, allowed as real, upTo, last, from, since > b.lastUpdate);
    IsRefilled(max, b, now, upTo, last);
  }

  lemma IsRefilled(max: nat, b: Bucket, now: real, upTo: real, last: real)
    requires Accrued(max, b, now) == upTo - last
    ensures Refilled(max, b, now) == Min(max as real, b.tokens + (upTo - last))
  {
  }

  lemma RefillCovers(cap: real, tokens: real, allowed: real, now: real, last: real, since: real, later: bool)
    requires tokens >= 0.0 && allowed >= 0.0 && cap >= 1.0 && last <= now
    requires if later then last <= since else tokens + allowed >= Min(cap, last - since)
    ensures Min(cap, tokens + (now - last)) >= 0.0
    ensures Min(cap, tokens + (now - last)) + allowed >= Min(cap, now - since)
  {
  }

  lemma TouchOwes(max: nat, b: Bucket, allowed: nat, since: real, now: real)
    requires max >= 1 && Owes(max, b, allowed, since) && b.lastUpdate <= now && since <= now
    ensures var (b', ok) := Touch(max, Some(b), now);
            Owes(max, b', allowed + if ok && now > since then 1 else 0, since)
  {
    hide Rate, Refilled, EarnedBy;
    RefilledOwes(max, b, allowed, since, now);
  }

  /** The bucket a key has is not newer than what is to come, and owes it what accrued. */
  lemma {:induction false} BucketOwes(max: nat, cap: nat, reqs: seq<Request>, k: Key, since: real, j: nat)
    requires max >= 1 && cap > 0 && Monotone(reqs) && j <= |reqs| && k in Run(max, cap, reqs[..j]).buckets
    ensures var b := Run(max, cap, reqs[..j]).buckets[k];
            && Owes(max, b, AllowedSince(max, cap, reqs, k, since, j), since)
            && forall i :: j <= i < |reqs| ==> b.lastUpdate <= reqs[i].now
  {
    hide Owes, Touch, Wellformed, After;
    if j > 0 {
      var before, r := reqs[..j - 1], reqs[j - 1];
      assert reqs[..j][..j - 1] == before;
      var t := Run(max, cap, before);
      RunWellformed(max, cap, before);
      AfterFinds(max, cap, t, r, k);
      var allowed := AllowedSince(max, cap, reqs, k, since, j - 1);
      if k in t.buckets { BucketOwes(max, cap, reqs, k, since, j - 1); }
      if r.key == k {
        TouchedNow(max, Find(t.buckets, k), r.now);
        if k in t.buckets { TouchedOwes(max, t.buckets[k], allowed, since, r.now); }
        else { NewOwes(max, t, r, allowed, since); }
      }
    }
  }

  lemma TouchedNow(max: nat, b: Option<Bucket>, now: real)
    ensures Touch(max, b, now).0.lastUpdate == now
  {
  }

  lemma TouchedOwes(max: nat, b: Bucket, allowed: nat, since: real, now: real)
    requires max >= 1 && Owes(max, b, allowed, since) && b.lastUpdate <= now
    ensures var (b', ok) := Touch(max, Some(b), now);
            Owes(max, b', allowed + if now > since && ok then 1 else 0, since)
  {
    if since <= now { TouchOwes(max, b, allowed, since, now); } else { LaterOwes(max, b, allowed, since, now); }
  }

  lemma LaterOwes(max: nat, b: Bucket, allowed: nat, since: real, now: real)
    requires max >= 1 && Owes(max, b, allowed, since) && b.lastUpdate <= now < since
    ensures Owes(max, Touch(max, Some(b), now).0, allowed, since)
  {
    hide Rate, Accrued, EarnedBy;
    AccruesNoLess(max, b, now);
  }

  lemma NewOwes(max: nat, t: Table, r: Request, allowed: nat, since: real)
    requires max >= 1 && r.key !in t.buckets
    ensures Answer(max, t, r)
    ensures Owes(max, Touch(max, Find(t.buckets, r.key), r.now).0, allowed + if r.now > since then 1 else 0, since)
  {
    FreshBucketOwes(max, allowed + if r.now > since then 1 else 0, since, r.now);
  }

  /** With a clock that does not go back, a request is refused only if at least max requests of its key,
      stamped within the sixty seconds before it, were allowed. */
  lemma RefusedOnlyIfSpent(max: nat, cap: nat, reqs: seq<Request>, j: nat)
    requires max >= 1 && cap > 0 && Monotone(reqs) && j < |reqs| && !AnswerAt(max, cap, reqs, j)
    ensures AllowedSince(max, cap, reqs, reqs[j].key, reqs[j].now - 60.0, j) >= max
  {
    hide Rate, Refilled, Owes, EarnedBy;
    var r, t := reqs[j], Run(max, cap, reqs[..j]);
    var since := r.now - 60.0;
    if r.key !in t.buckets { NewKeyIsAllowed(max, t, r); }
    BucketOwes(max, cap, reqs, r.key, since, j);
    RefilledOwes(max, t.buckets[r.key], AllowedSince(max, cap, reqs, r.key, since, j), since, r.now);
    MinuteAccrues(max, since, r.now);
  }

  lemma MinuteAccrues(max: nat, since: real, now: real)
    requires now - since == 60.0
    ensures EarnedBy(max, now) - EarnedBy(max, since) == max as real
  {
    hide Rate, EarnedBy;
    AccruedIsEarned(max, Bucket(0.0, since), now);
    RateOfAMinute(max);
  }

  /** Requests of one key among the first j that are stamped after a moment. */
  function AskedSince(reqs: seq<Request>, k: Key, since: real, j: nat): nat
    requires j <= |reqs|
  {
    if j == 0 then 0
    else AskedSince(reqs, k, since, j - 1) + if reqs[j - 1].key == k && reqs[j - 1].now > since then 1 else 0
  }

  lemma {:induction false} AllowedWereAsked(max: nat, cap: nat, reqs: seq<Request>, k: Key, since: real, j: nat)
    requires cap > 0 && j <= |reqs|
    ensures AllowedSince(max, cap, reqs, k, since, j) <= AskedSince(reqs, k, since, j)
  {
    hide Run, Answer;
    if j > 0 { AllowedWereAsked(max, cap, reqs, k, since, j - 1); }
  }

  /** A key that asked fewer than max times in the last sixty seconds is not refused: it may spend its whole
      budget at once. */
  lemma BurstIsAllowed(max: nat, cap: nat, reqs: seq<Request>, j: nat)
    requires max >= 1 && cap > 0 && Monotone(reqs) && j < |reqs|
    requires AskedSince(reqs, reqs[j].key, reqs[j].now - 60.0, j) < max
    ensures AnswerAt(max, cap, reqs, j)
  {
    hide AnswerAt, Run;
    AllowedWereAsked(max, cap, reqs, reqs[j].key, reqs[j].now - 60.0, j);
    if !AnswerAt(max, cap, reqs, j) { RefusedOnlyIfSpent(max, cap, reqs, j); }
  }
}
