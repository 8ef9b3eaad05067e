/**
 The Redis script that admits Chat sends: one token bucket per user in a session, one per session,
 read, refilled, decremented and written back in one atomic call.

 Script is the lazy bucket with key expiry as the code runs it. EagerCall is the textbook bucket that
 never forgets anything and refills continuously. The theorems relate the two and bound the eager one.
 */
module TokenBucket {
  import opened Prelude

  /** Tokens a full bucket holds, and tokens gained per 1000 ms. */
  datatype Limit = Limit(burst: nat, rate: nat)

  datatype Limits = Limits(user: Limit, room: Limit)

  predicate ValidLimits(limits: Limits) {
    limits.user.burst > 0 && limits.user.rate > 0 && limits.room.burst > 0 && limits.room.rate > 0
  }

  /** The session id is the hash tag of both keys, so sessions never share a bucket. */
  datatype Key = UserKey(session: nat, user: nat) | RoomKey(session: nat)

  datatype Bucket = Bucket(tokens: real, updatedAt: int, expiresAt: int)

  type Store = map<Key, Bucket>

  /** One call of the script; `evicted` are the expired keys Redis dropped since the previous call. */
  datatype Call = Call(session: nat, user: nat, now: int, evicted: set<Key>)

  function LimitOf(limits: Limits, k: Key): Limit {
    if k.UserKey? then limits.user else limits.room
  }

  function MinReal(a: real, b: real): real {
    if a <= b then a else b
  }

  function Gain(rate: nat, ms: int): real {
    (rate * ms) as real / 1000.0
  }

  function Refill(limit: Limit, bucket: Option<Bucket>, now: int): real {
    match bucket
    case None => limit.burst as real
    case Some(b) => MinReal(limit.burst as real, b.tokens + Gain(limit.rate, Max(0, now - b.updatedAt)))
  }

  function Lookup(store: Store, k: Key): Option<Bucket> {
    if k in store then Some(store[k]) else None
  }

  function Level(limits: Limits, store: Store, k: Key, now: int): real {
    Refill(LimitOf(limits, k), Lookup(store, k), now)
  }

  function Ceiling(x: real): int {
    -((-x).Floor)
  }

  /** Milliseconds a written key lives: at least a second, and twice the time a full refill takes. */
  function TimeToLive(limit: Limit): int
    requires limit.rate > 0
  {
    Max(1000, Ceiling(limit.burst as real / limit.rate as real * 2000.0))
  }

  function Script(limits: Limits, store: Store, c: Call): (Store, bool)
    requires ValidLimits(limits)
  {
    var userKey, roomKey := UserKey(c.session, c.user), RoomKey(c.session);
    var live := store - c.evicted;
    var userTokens := Level(limits, live, userKey, c.now);
    var roomTokens := Level(limits, live, roomKey, c.now);
    var allowed := userTokens >= 1.0 && roomTokens >= 1.0;
    var spent := if allowed then 1.0 else 0.0;
    (live[userKey := Bucket(userTokens - spent, c.now, c.now + TimeToLive(limits.user))]
         [roomKey := Bucket(roomTokens - spent, c.now, c.now + TimeToLive(limits.room))],
     allowed)
  }

  function Decisions(limits: Limits, store: Store, calls: seq<Call>): (d: seq<bool>)
    requires ValidLimits(limits)
    ensures |d| == |calls|
    decreases |calls|
  {
    if calls == [] then [] else
      var (next, allowed) := Script(limits, store, calls[0]);
      [allowed] + Decisions(limits, next, calls[1..])
  }

  /** Redis may drop a key only once its expiry has come, and need not drop it at once. */
  predicate LegalEvictions(limits: Limits, store: Store, calls: seq<Call>)
    requires ValidLimits(limits)
    decreases |calls|
  {
    calls != [] ==>
      && (forall k <- calls[0].evicted :: k in store ==> store[k].expiresAt <= calls[0].now)
      && LegalEvictions(limits, Script(limits, store, calls[0]).0, calls[1..])
  }

  /** Redis time never runs backwards, starting from `from`. */
  predicate ClockFrom(from: int, calls: seq<Call>)
    decreases |calls|
  {
    calls != [] ==> from <= calls[0].now && ClockFrom(calls[0].now, calls[1..])
  }

  // ---- The reference bucket: total, continuous, never expiring ----

  type Levels = Key -> real

  function Full(limits: Limits): Levels {
    k => LimitOf(limits, k).burst as real
  }

  function Advance(limits: Limits, e: Levels, ms: int): Levels {
    k => MinReal(LimitOf(limits, k).burst as real, e(k) + Gain(LimitOf(limits, k).rate, ms))
  }

  predicate Touches(c: Call, k: Key) {
    k == UserKey(c.session, c.user) || k == RoomKey(c.session)
  }

  predicate EagerAllows(e: Levels, c: Call) {
    e(UserKey(c.session, c.user)) >= 1.0 && e(RoomKey(c.session)) >= 1.0
  }

  function EagerCall(e: Levels, c: Call): Levels {
    k => if EagerAllows(e, c) && Touches(c, k) then e(k) - 1.0 else e(k)
  }

  function EagerDecisions(limits: Limits, e: Levels, now: int, calls: seq<Call>): (d: seq<bool>)
    ensures |d| == |calls|
    decreases |calls|
  {
    if calls == [] then [] else
      var here := Advance(limits, e, calls[0].now - now);
      [EagerAllows(here, calls[0])] + EagerDecisions(limits, EagerCall(here, calls[0]), calls[0].now, calls[1..])
  }

  // ---- Arithmetic of refilling ----

  lemma GainAdd(rate: nat, a: int, b: int)
    ensures Gain(rate, a + b) == Gain(rate, a) + Gain(rate, b)
  {
    assert rate * (a + b) == rate * a + rate * b;
  }

  lemma GainMonotone(rate: nat, a: int, b: int)
    requires a <= b
    ensures Gain(rate, a) <= Gain(rate, b)
  {
    assert rate * a <= rate * b;
  }

  lemma CeilingCovers(x: real)
    ensures Ceiling(x) as real >= x
  {
  }

  lemma QuotientTimes(burst: real, rate: real, x: real)
    requires rate > 0.0 && x >= burst / rate * 2000.0
    ensures rate * x >= burst * 2000.0
  {
    var q := burst / rate;
    assert rate * q == burst;
    MulMonotone(rate, q * 2000.0, x);
    assert rate * (q * 2000.0) == (rate * q) * 2000.0;
  }

  lemma MulMonotone(a: real, x: real, y: real)
    requires a >= 0.0 && x <= y
    ensures a * x <= a * y
  {
  }

  /** Once a key may expire, its bucket would have refilled completely. */
  lemma LifetimeRefills(limit: Limit, ms: int)
    requires limit.rate > 0 && ms >= TimeToLive(limit)
    ensures Gain(limit.rate, ms) >= limit.burst as real
  {
    var rate, burst := limit.rate as real, limit.burst as real;
    CeilingCovers(burst / rate * 2000.0);
    QuotientTimes(burst, rate, ms as real);
    assert (limit.rate * ms) as real == rate * ms as real;
  }

  /** And it lives no longer than that takes, rounded up to the next millisecond, unless that is less than a second. */
  lemma LifetimeIsTight(limit: Limit)
    requires limit.rate > 0
    ensures TimeToLive(limit) >= 1000
    ensures TimeToLive(limit) > 1000 ==> limit.rate * (TimeToLive(limit) - 1) < 2000 * limit.burst <= limit.rate * TimeToLive(limit)
  {
    var rate, burst := limit.rate as real, limit.burst as real;
    var x := burst / rate * 2000.0;
    var up := Ceiling(x);
    CeilingTight(x);
    assert rate * x == burst * 2000.0 by {
      assert rate * (burst / rate) == burst;
      assert rate * (burst / rate * 2000.0) == rate * (burst / rate) * 2000.0;
    }
    StrictMul(rate, up as real - 1.0, x);
    MulMonotone(rate, x, up as real);
    if TimeToLive(limit) > 1000 {
      assert (limit.rate * (up - 1)) as real == rate * (up as real - 1.0);
      assert (limit.rate * up) as real == rate * up as real;
      assert (2000 * limit.burst) as real == burst * 2000.0;
    }
  }

  lemma CeilingTight(x: real)
    ensures x <= Ceiling(x) as real && Ceiling(x) as real - 1.0 < x
  {
  }

  lemma StrictMul(a: real, x: real, y: real)
    requires a > 0.0 && x < y
    ensures a * x < a * y
  {
  }

  /** Refilling for a while and then for longer is refilling once: calls in between leave no trace. */
  lemma AdvanceCompose(limits: Limits, e: Levels, a: int, b: int, k: Key)
    requires 0 <= a && 0 <= b
    ensures Advance(limits, Advance(limits, e, a), b)(k) == Advance(limits, e, a + b)(k)
  {
    var limit := LimitOf(limits, k);
    GainAdd(limit.rate, a, b);
    GainMonotone(limit.rate, 0, b);
    CapTwice(limit.burst as real, e(k), Gain(limit.rate, a), Gain(limit.rate, b));
    var once := Advance(limits, e, a);
    assert once(k) == MinReal(limit.burst as real, e(k) + Gain(limit.rate, a));
    assert Advance(limits, once, b)(k) == MinReal(limit.burst as real, once(k) + Gain(limit.rate, b));
  }

  lemma CapTwice(cap: real, x: real, g: real, h: real)
    requires h >= 0.0
    ensures MinReal(cap, MinReal(cap, x + g) + h) == MinReal(cap, x + (g + h))
  {
  }

  // ---- The reachable stores ----

  /** Tokens stay between nothing and a full bucket, and no write is from the future. */
  predicate ValidStore(limits: Limits, store: Store, now: int)
    requires ValidLimits(limits)
  {
    forall k <- store ::
      && 0.0 <= store[k].tokens <= LimitOf(limits, k).burst as real
      && store[k].updatedAt <= now
      && store[k].expiresAt == store[k].updatedAt + TimeToLive(LimitOf(limits, k))
  }

  lemma LevelBounds(limits: Limits, store: Store, k: Key, now: int)
    requires ValidLimits(limits) && ValidStore(limits, store, now)
    ensures 0.0 <= Level(limits, store, k, now) <= LimitOf(limits, k).burst as real
  {
    if k in store {
      GainMonotone(LimitOf(limits, k).rate, 0, now - store[k].updatedAt);
    }
  }

  lemma ScriptKeepsValid(limits: Limits, store: Store, c: Call, now: int)
    requires ValidLimits(limits) && ValidStore(limits, store, now) && now <= c.now
    ensures ValidStore(limits, Script(limits, store, c).0, c.now)
  {
    var live := store - c.evicted;
    assert ValidStore(limits, live, c.now);
    LevelBounds(limits, live, UserKey(c.session, c.user), c.now);
    LevelBounds(limits, live, RoomKey(c.session), c.now);
  }

  /** Every store the script can reach, whatever the clock does and whatever Redis drops. */
  function StoreAfter(limits: Limits, store: Store, calls: seq<Call>): Store
    requires ValidLimits(limits)
    decreases |calls|
  {
    if calls == [] then store else StoreAfter(limits, Script(limits, store, calls[0]).0, calls[1..])
  }

  predicate TokensBounded(limits: Limits, store: Store) {
    forall k <- store :: 0.0 <= store[k].tokens <= LimitOf(limits, k).burst as real
  }

  lemma LevelBounded(limits: Limits, store: Store, k: Key, now: int)
    requires TokensBounded(limits, store)
    ensures 0.0 <= Level(limits, store, k, now) <= LimitOf(limits, k).burst as real
  {
    if k in store {
      GainMonotone(LimitOf(limits, k).rate, 0, Max(0, now - store[k].updatedAt));
    }
  }

  /** A bucket never holds less than nothing or more than its capacity: with any clock, even one that jumps, and any evictions. */
  lemma {:induction false} TokensStayWithinCapacity(limits: Limits, store: Store, calls: seq<Call>)
    requires ValidLimits(limits) && TokensBounded(limits, store)
    ensures TokensBounded(limits, StoreAfter(limits, store, calls))
    decreases |calls|
  {
    if calls != [] {
      var c := calls[0];
      LevelBounded(limits, store - c.evicted, UserKey(c.session, c.user), c.now);
      LevelBounded(limits, store - c.evicted, RoomKey(c.session), c.now);
      TokensStayWithinCapacity(limits, Script(limits, store, c).0, calls[1..]);
    }
  }

  function LastTime(from: int, calls: seq<Call>): int {
    if calls == [] then from else calls[|calls| - 1].now
  }

  /** With a clock that does not run backwards no bucket is from the future, and each key lives its computed time. */
  lemma {:induction false} StoreStaysValid(limits: Limits, store: Store, from: int, calls: seq<Call>)
    requires ValidLimits(limits) && ValidStore(limits, store, from) && ClockFrom(from, calls)
    ensures ValidStore(limits, StoreAfter(limits, store, calls), LastTime(from, calls))
    decreases |calls|
  {
    if calls != [] {
      ScriptKeepsValid(limits, store, calls[0], from);
      StoreStaysValid(limits, Script(limits, store, calls[0]).0, calls[0].now, calls[1..]);
    }
  }

  // ---- Lazy refill and expiry are invisible ----

  /** The lazily refilled store shows, at time `now`, exactly the reference levels. */
  ghost predicate Agrees(limits: Limits, store: Store, e: Levels, now: int)
    requires ValidLimits(limits)
  {
    forall k: Key :: Level(limits, store, k, now) == e(k)
  }

  lemma AgreeLater(limits: Limits, store: Store, e: Levels, now: int, later: int, evicted: set<Key>)
    requires ValidLimits(limits) && ValidStore(limits, store, now) && Agrees(limits, store, e, now)
    requires now <= later
    requires forall k <- evicted :: k in store ==> store[k].expiresAt <= later
    ensures Agrees(limits, store - evicted, Advance(limits, e, later - now), later)
  {
    forall k: Key
      ensures Level(limits, store - evicted, k, later) == Advance(limits, e, later - now)(k)
    {
      var limit := LimitOf(limits, k);
      GainMonotone(limit.rate, 0, later - now);
      if k in store {
        var b := store[k];
        GainAdd(limit.rate, now - b.updatedAt, later - now);
        assert (now - b.updatedAt) + (later - now) == later - b.updatedAt;
        if k in evicted {
          LifetimeRefills(limit, later - b.updatedAt);
        }
      }
    }
  }

  lemma NoGain(rate: nat)
    ensures Gain(rate, 0) == 0.0
  {
  }

  /** What a call leaves of one bucket, read back at the time of the call. */
  lemma LevelAfterCall(limits: Limits, store: Store, c: Call, k: Key)
    requires ValidLimits(limits) && Level(limits, store - c.evicted, k, c.now) <= LimitOf(limits, k).burst as real
    ensures var (after, allowed) := Script(limits, store, c);
      Level(limits, after, k, c.now) == Level(limits, store - c.evicted, k, c.now) - if allowed && Touches(c, k) then 1.0 else 0.0
  {
    NoGain(LimitOf(limits, k).rate);
    hide Gain, TimeToLive;
  }

  lemma AgreeAfterCall(limits: Limits, store: Store, e: Levels, now: int, c: Call)
    requires ValidLimits(limits) && ValidStore(limits, store, now) && Agrees(limits, store, e, now)
    requires now <= c.now
    requires forall k <- c.evicted :: k in store ==> store[k].expiresAt <= c.now
    ensures var here := Advance(limits, e, c.now - now);
      && Script(limits, store, c).1 == EagerAllows(here, c)
      && Agrees(limits, Script(limits, store, c).0, EagerCall(here, c), c.now)
  {
    var here := Advance(limits, e, c.now - now);
    var live := store - c.evicted;
    AgreeLater(limits, store, e, now, c.now, c.evicted);
    assert ValidStore(limits, live, c.now);
    hide Advance, ValidStore, Refill, Gain;
    assert Level(limits, live, UserKey(c.session, c.user), c.now) == here(UserKey(c.session, c.user));
    assert Level(limits, live, RoomKey(c.session), c.now) == here(RoomKey(c.session));
    hide Level;
    assert Script(limits, store, c).1 == EagerAllows(here, c);
    forall k: Key
      ensures Level(limits, Script(limits, store, c).0, k, c.now) == EagerCall(here, c)(k)
    {
      LevelBounds(limits, live, k, c.now);
      LevelAfterCall(limits, store, c, k);
      hide Script;
    }
  }

  /**
   With a clock that never runs backwards the script decides every call as never-expiring,
   continuously refilled buckets do, whichever expired keys Redis drops and whenever it drops them.
   */
  lemma {:induction false} LazyRefillIsInvisible(limits: Limits, store: Store, e: Levels, now: int, calls: seq<Call>)
    requires ValidLimits(limits) && ValidStore(limits, store, now) && Agrees(limits, store, e, now)
    requires ClockFrom(now, calls) && LegalEvictions(limits, store, calls)
    ensures Decisions(limits, store, calls) == EagerDecisions(limits, e, now, calls)
    decreases |calls|
  {
    if calls != [] {
      AgreeAfterCall(limits, store, e, now, calls[0]);
      ScriptKeepsValid(limits, store, calls[0], now);
      LazyRefillIsInvisible(limits, Script(limits, store, calls[0]).0,
        EagerCall(Advance(limits, e, calls[0].now - now), calls[0]), calls[0].now, calls[1..]);
    }
  }

  // ---- Denied calls leave no trace ----

  lemma {:induction false} EagerCongruence(limits: Limits, e: Levels, f: Levels, now: int, calls: seq<Call>)
    requires forall k: Key :: e(k) == f(k)
    ensures EagerDecisions(limits, e, now, calls) == EagerDecisions(limits, f, now, calls)
    decreases |calls|
  {
    if calls != [] {
      var c := calls[0];
      var e1, f1 := Advance(limits, e, c.now - now), Advance(limits, f, c.now - now);
      assert forall k: Key :: e1(k) == f1(k);
      EagerCongruence(limits, EagerCall(e1, c), EagerCall(f1, c), c.now, calls[1..]);
    }
  }

  lemma {:induction false} SplitAdvance(limits: Limits, e: Levels, now: int, mid: int, calls: seq<Call>)
    requires now <= mid && ClockFrom(mid, calls)
    ensures EagerDecisions(limits, Advance(limits, e, mid - now), mid, calls) == EagerDecisions(limits, e, now, calls)
    decreases |calls|
  {
    if calls != [] {
      var c := calls[0];
      var twice := Advance(limits, Advance(limits, e, mid - now), c.now - mid);
      var once := Advance(limits, e, c.now - now);
      forall k: Key
        ensures twice(k) == once(k)
      {
        AdvanceCompose(limits, e, mid - now, c.now - mid, k);
        assert (mid - now) + (c.now - mid) == c.now - now;
      }
      EagerCongruence(limits, EagerCall(twice, c), EagerCall(once, c), c.now, calls[1..]);
    }
  }

  function Without<T>(s: seq<T>, i: nat): seq<T>
    requires i < |s|
  {
    s[..i] + s[i + 1..]
  }

  lemma {:induction false} ClockWithout(from: int, calls: seq<Call>, i: nat)
    requires ClockFrom(from, calls) && i < |calls|
    ensures ClockFrom(from, Without(calls, i))
    decreases |calls|
  {
    if i == 0 {
      assert Without(calls, 0) == calls[1..];
    } else {
      ClockWithout(calls[0].now, calls[1..], i - 1);
      assert Without(calls, i)[1..] == Without(calls[1..], i - 1);
    }
  }

  lemma EagerDenialAtHead(limits: Limits, e: Levels, now: int, calls: seq<Call>)
    requires ClockFrom(now, calls) && calls != []
    requires !EagerAllows(Advance(limits, e, calls[0].now - now), calls[0])
    ensures EagerDecisions(limits, e, now, calls[1..]) == EagerDecisions(limits, e, now, calls)[1..]
  {
    var c := calls[0];
    var here := Advance(limits, e, c.now - now);
    assert forall k: Key :: EagerCall(here, c)(k) == here(k);
    EagerCongruence(limits, EagerCall(here, c), here, c.now, calls[1..]);
    SplitAdvance(limits, e, now, c.now, calls[1..]);
  }

  lemma {:induction false} EagerDenialLeavesNoTrace(limits: Limits, e: Levels, now: int, calls: seq<Call>, i: nat)
    requires ClockFrom(now, calls) && i < |calls|
    requires !EagerDecisions(limits, e, now, calls)[i]
    ensures EagerDecisions(limits, e, now, Without(calls, i)) == Without(EagerDecisions(limits, e, now, calls), i)
    decreases |calls|
  {
    hide Gain, EagerAllows, Advance;
    var d := EagerDecisions(limits, e, now, calls);
    if i == 0 {
      EagerDenialAtHead(limits, e, now, calls);
      assert Without(calls, 0) == calls[1..];
      assert Without(d, 0) == d[1..];
    } else {
      var c := calls[0];
      var after := EagerCall(Advance(limits, e, c.now - now), c);
      EagerDenialLeavesNoTrace(limits, after, c.now, calls[1..], i - 1);
      WithoutTail(calls, i);
      WithoutTail(d, i);
    }
  }

  lemma WithoutTail<T>(s: seq<T>, i: nat)
    requires 0 < i < |s|
    ensures Without(s, i) == [s[0]] + Without(s[1..], i - 1)
    ensures Without(s, i)[0] == s[0] && Without(s, i)[1..] == Without(s[1..], i - 1)
  {
    assert s[..i] == [s[0]] + s[1..][..i - 1];
    assert s[i + 1..] == s[1..][i..];
  }

  /** The same callers at the same times; only the moments of eviction may differ. */
  predicate SameCalls(a: seq<Call>, b: seq<Call>) {
    |a| == |b| && forall i :: 0 <= i < |a| ==> a[i].session == b[i].session && a[i].user == b[i].user && a[i].now == b[i].now
  }

  lemma {:induction false} EagerIgnoresEviction(limits: Limits, e: Levels, now: int, a: seq<Call>, b: seq<Call>)
    requires SameCalls(a, b)
    decreases |a|
    ensures EagerDecisions(limits, e, now, a) == EagerDecisions(limits, e, now, b)
    ensures ClockFrom(now, a) ==> ClockFrom(now, b)
  {
    if a != [] {
      var here := Advance(limits, e, a[0].now - now);
      assert forall k: Key :: Touches(a[0], k) == Touches(b[0], k);
      assert EagerAllows(here, a[0]) == EagerAllows(here, b[0]);
      EagerIgnoresEviction(limits, EagerCall(here, a[0]), a[0].now, a[1..], b[1..]);
      EagerCongruence(limits, EagerCall(here, a[0]), EagerCall(here, b[0]), b[0].now, b[1..]);
    }
  }

  /**
   Deleting a denied call from a history changes no other decision, even when Redis then happens
   to evict keys at other moments. A call the room denies costs its user nothing.
   */
  lemma DeniedCallLeavesNoTrace(limits: Limits, calls: seq<Call>, i: nat, shorter: seq<Call>, from: int)
    requires ValidLimits(limits) && ClockFrom(from, calls) && i < |calls|
    requires SameCalls(Without(calls, i), shorter)
    requires LegalEvictions(limits, map[], calls) && LegalEvictions(limits, map[], shorter)
    requires !Decisions(limits, map[], calls)[i]
    ensures Decisions(limits, map[], shorter) == Without(Decisions(limits, map[], calls), i)
  {
    var e := Full(limits);
    ClockWithout(from, calls, i);
    EagerIgnoresEviction(limits, e, from, Without(calls, i), shorter);
    LazyRefillIsInvisible(limits, map[], e, from, calls);
    LazyRefillIsInvisible(limits, map[], e, from, shorter);
    EagerDenialLeavesNoTrace(limits, e, from, calls, i);
  }

  // ---- The rate bound ----

  function AllowedOn(calls: seq<Call>, decisions: seq<bool>, k: Key): nat
    requires |calls| == |decisions|
    decreases |calls|
  {
    if calls == [] then 0 else
      (if decisions[0] && Touches(calls[0], k) then 1 else 0) + AllowedOn(calls[1..], decisions[1..], k)
  }

  /** Potential argument: what a bucket let through plus what it still holds never exceeds what it had plus what it gained. */
  lemma {:induction false} SpendingIsFunded(limits: Limits, e: Levels, now: int, calls: seq<Call>, k: Key)
    requires ClockFrom(now, calls) && e(k) >= 0.0
    ensures AllowedOn(calls, EagerDecisions(limits, e, now, calls), k) as real
         <= e(k) + Gain(LimitOf(limits, k).rate, LastTime(now, calls) - now)
    decreases |calls|
  {
    var rate := LimitOf(limits, k).rate;
    if calls != [] {
      var c, rest := calls[0], calls[1..];
      var here := Advance(limits, e, c.now - now);
      var d := EagerDecisions(limits, e, now, calls);
      assert d[1..] == EagerDecisions(limits, EagerCall(here, c), c.now, rest);
      GainMonotone(rate, 0, c.now - now);
      assert here(k) >= 0.0;
      SpendingIsFunded(limits, EagerCall(here, c), c.now, rest, k);
      assert LastTime(c.now, rest) == LastTime(now, calls);
      GainAdd(rate, c.now - now, LastTime(now, calls) - c.now);
      assert (c.now - now) + (LastTime(now, calls) - c.now) == LastTime(now, calls) - now;
    }
  }

  /** The reference levels at the start of a window, reached from any valid store. */
  function LevelsOf(limits: Limits, store: Store, now: int): Levels
    requires ValidLimits(limits)
  {
    k => Level(limits, store, k, now)
  }

  lemma EagerWindow(limits: Limits, e: Levels, from: int, calls: seq<Call>, k: Key)
    requires calls != [] && ClockFrom(from, calls) && e(k) >= 0.0
    ensures AllowedOn(calls, EagerDecisions(limits, e, from, calls), k) as real
         <= LimitOf(limits, k).burst as real + Gain(LimitOf(limits, k).rate, LastTime(from, calls) - calls[0].now)
  {
    var first := calls[0].now;
    var here := Advance(limits, e, first - from);
    GainMonotone(LimitOf(limits, k).rate, 0, first - from);
    SplitAdvance(limits, e, from, first, calls);
    SpendingIsFunded(limits, here, first, calls, k);
  }

  /** From any reachable store: sends let through on a bucket during calls[0].now .. last are at most burst + rate * D / 1000. */
  lemma WindowBoundFromStore(limits: Limits, store: Store, from: int, calls: seq<Call>, k: Key)
    requires ValidLimits(limits) && ValidStore(limits, store, from) && calls != []
    requires ClockFrom(from, calls) && LegalEvictions(limits, store, calls)
    ensures 1000 * AllowedOn(calls, Decisions(limits, store, calls), k)
         <= 1000 * LimitOf(limits, k).burst + LimitOf(limits, k).rate * (LastTime(from, calls) - calls[0].now)
  {
    hide Script, Advance;
    var e := LevelsOf(limits, store, from);
    LazyRefillIsInvisible(limits, store, e, from, calls);
    LevelBounds(limits, store, k, from);
    EagerWindow(limits, e, from, calls, k);
    var limit, d := LimitOf(limits, k), LastTime(from, calls) - calls[0].now;
    IntegerBound(AllowedOn(calls, Decisions(limits, store, calls), k), limit.burst, limit.rate * d);
  }

  lemma IntegerBound(count: nat, burst: nat, gained: int)
    requires count as real <= burst as real + gained as real / 1000.0
    ensures 1000 * count <= 1000 * burst + gained
  {
    assert (1000 * count) as real <= (1000 * burst + gained) as real;
  }

  lemma {:induction false} SuffixRun(limits: Limits, store: Store, from: int, calls: seq<Call>, i: nat)
    requires ValidLimits(limits) && i <= |calls|
    requires ClockFrom(from, calls) && LegalEvictions(limits, store, calls)
    ensures var mid := StoreAfter(limits, store, calls[..i]);
      && ClockFrom(from, calls[..i])
      && ClockFrom(LastTime(from, calls[..i]), calls[i..])
      && LegalEvictions(limits, mid, calls[i..])
      && Decisions(limits, store, calls)[i..] == Decisions(limits, mid, calls[i..])
    decreases |calls|
  {
    hide Script;
    if i > 0 {
      SuffixRun(limits, Script(limits, store, calls[0]).0, calls[0].now, calls[1..], i - 1);
      assert calls[..i][1..] == calls[1..][..i - 1];
      assert calls[i..] == calls[1..][i - 1..];
      assert LastTime(from, calls[..i]) == LastTime(calls[0].now, calls[1..][..i - 1]);
    } else {
      assert calls[..0] == [] && calls[0..] == calls;
    }
  }

  lemma {:induction false} PrefixRun(limits: Limits, store: Store, from: int, calls: seq<Call>, j: nat)
    requires ValidLimits(limits) && j <= |calls|
    requires ClockFrom(from, calls) && LegalEvictions(limits, store, calls)
    ensures ClockFrom(from, calls[..j]) && LegalEvictions(limits, store, calls[..j])
    ensures Decisions(limits, store, calls)[..j] == Decisions(limits, store, calls[..j])
    decreases |calls|
  {
    hide Script;
    if j > 0 {
      PrefixRun(limits, Script(limits, store, calls[0]).0, calls[0].now, calls[1..], j - 1);
      assert calls[..j][1..] == calls[1..][..j - 1];
    }
  }

  /**
   In any history of calls, by any users in any sessions, the sends allowed on one bucket between two
   calls D milliseconds apart number at most burst + rate * D / 1000: per user and per room alike.
   */
  lemma WindowBound(limits: Limits, from: int, calls: seq<Call>, i: nat, j: nat, k: Key)
    requires ValidLimits(limits) && i < j <= |calls|
    requires ClockFrom(from, calls) && LegalEvictions(limits, map[], calls)
    ensures 1000 * AllowedOn(calls[i..j], Decisions(limits, map[], calls)[i..j], k)
         <= 1000 * LimitOf(limits, k).burst + LimitOf(limits, k).rate * (calls[j - 1].now - calls[i].now)
  {
    var upto := calls[..j];
    PrefixRun(limits, map[], from, calls, j);
    WindowBoundAtEnd(limits, from, upto, i, k);
    assert upto[i..] == calls[i..j];
    assert Decisions(limits, map[], calls)[..j][i..] == Decisions(limits, map[], calls)[i..j];
  }

  lemma WindowBoundAtEnd(limits: Limits, from: int, calls: seq<Call>, i: nat, k: Key)
    requires ValidLimits(limits) && i < |calls|
    requires ClockFrom(from, calls) && LegalEvictions(limits, map[], calls)
    ensures 1000 * AllowedOn(calls[i..], Decisions(limits, map[], calls)[i..], k)
         <= 1000 * LimitOf(limits, k).burst + LimitOf(limits, k).rate * (calls[|calls| - 1].now - calls[i].now)
  {
    hide Script;
    SuffixRun(limits, map[], from, calls, i);
    StoreStaysValid(limits, map[], from, calls[..i]);
    WindowBoundFromStore(limits, StoreAfter(limits, map[], calls[..i]), LastTime(from, calls[..i]), calls[i..], k);
  }

  /** Both buckets of the caller, drained at time `at`. */
  function Drained(limits: Limits, at: int): Store
    requires ValidLimits(limits)
  {
    map[UserKey(7, 42) := Bucket(0.0, at, at + TimeToLive(limits.user)), RoomKey(7) := Bucket(0.0, at, at + TimeToLive(limits.room))]
  }

  const ONE := Limits(Limit(1, 1), Limit(1, 1))

  /** A call at time zero finds nothing and sets the clock back; the next call at 1000 gains a token for it. */
  lemma SwingStep(store: Store, now: int)
    requires (store == map[] && now == 1000) || (store == Drained(ONE, 1000) && now == 0) || (store == Drained(ONE, 0) && now == 1000)
    ensures Script(ONE, store, Call(7, 42, now, {})) == (Drained(ONE, now), now == 1000)
  {
    assert store - {} == store;
    var user, room := UserKey(7, 42), RoomKey(7);
    var level := if now == 1000 then 1.0 else 0.0;
    assert Gain(1, 1000) == 1.0 && Gain(1, 0) == 0.0;
    assert Level(ONE, store, user, now) == level && Level(ONE, store, room, now) == level;
    var after := Script(ONE, store, Call(7, 42, now, {})).0;
    assert after.Keys == {user, room};
    assert after[user] == Drained(ONE, now)[user] && after[room] == Drained(ONE, now)[room];
    assert after == Drained(ONE, now);
  }

  lemma FirstCall(limits: Limits, store: Store, c: Call, rest: seq<Call>, k: Key)
    requires ValidLimits(limits) && forall k <- c.evicted :: k in store ==> store[k].expiresAt <= c.now
    ensures var (next, allowed) := Script(limits, store, c);
      var calls := [c] + rest;
      && (LegalEvictions(limits, store, calls) <==> LegalEvictions(limits, next, rest))
      && AllowedOn(calls, Decisions(limits, store, calls), k)
         == (if allowed && Touches(c, k) then 1 else 0) + AllowedOn(rest, Decisions(limits, next, rest), k)
  {
    var calls := [c] + rest;
    assert calls[0] == c && calls[1..] == rest;
    var d := Decisions(limits, store, calls);
    assert d[0] == Script(limits, store, c).1 && d[1..] == Decisions(limits, Script(limits, store, c).0, rest);
    hide Script;
  }

  /** One user's calls at times 1000, 0, 1000, 0, ..., 1000. */
  function Swinging(n: nat): (calls: seq<Call>)
    ensures forall c <- calls :: c.session == 7 && c.user == 42 && 0 <= c.now <= 1000
  {
    [Call(7, 42, 1000, {})] + if n == 0 then [] else [Call(7, 42, 0, {})] + Swinging(n - 1)
  }

  /**
   The clock assumption is needed: a clock that jumps back is written into the bucket, which then refills again.
   With it there is no bound at all: for every n more than n sends get through within the same second.
   */
  lemma {:induction false} BackwardClockBreaksTheBound(store: Store, n: nat)
    requires store == map[] || store == Drained(ONE, 0)
    ensures LegalEvictions(ONE, store, Swinging(n))
    ensures AllowedOn(Swinging(n), Decisions(ONE, store, Swinging(n)), UserKey(7, 42)) == n + 1
    decreases n
  {
    hide Drained, Script, LegalEvictions, AllowedOn, Decisions;
    NoCalls(ONE, Drained(ONE, 1000), UserKey(7, 42));
    var up, down, k := Call(7, 42, 1000, {}), Call(7, 42, 0, {}), UserKey(7, 42);
    var rest := if n == 0 then [] else [down] + Swinging(n - 1);
    SwingStep(store, 1000);
    FirstCall(ONE, store, up, rest, k);
    if n > 0 {
      SwingStep(Drained(ONE, 1000), 0);
      FirstCall(ONE, Drained(ONE, 1000), down, Swinging(n - 1), k);
      BackwardClockBreaksTheBound(Drained(ONE, 0), n - 1);
    }
  }

  lemma NoCalls(limits: Limits, store: Store, k: Key)
    requires ValidLimits(limits)
    ensures LegalEvictions(limits, store, []) && AllowedOn([], Decisions(limits, store, []), k) == 0
  {
  }

  /** The configured rate is what a caller gets: after both buckets were emptied a call is let through exactly once each has gained a token. */
  lemma EmptyBucketsRecover(limits: Limits, store: Store, c: Call, since: int)
    requires ValidLimits(limits) && c.evicted == {} && since <= c.now
    requires UserKey(c.session, c.user) in store && RoomKey(c.session) in store
    requires store[UserKey(c.session, c.user)].tokens == 0.0 && store[UserKey(c.session, c.user)].updatedAt == since
    requires store[RoomKey(c.session)].tokens == 0.0 && store[RoomKey(c.session)].updatedAt == since
    ensures Script(limits, store, c).1 <==>
      limits.user.rate * (c.now - since) >= 1000 && limits.room.rate * (c.now - since) >= 1000
  {
    assert store - {} == store;
    OneToken(limits.user, c.now - since);
    OneToken(limits.room, c.now - since);
    hide Gain, TimeToLive;
  }

  lemma OneToken(limit: Limit, ms: nat)
    requires limit.burst > 0
    ensures MinReal(limit.burst as real, 0.0 + Gain(limit.rate, ms)) >= 1.0 <==> limit.rate * ms >= 1000
  {
    var gained := limit.rate * ms;
    assert Gain(limit.rate, ms) == gained as real / 1000.0;
  }

  /** What a call finds and what it leaves, bucket by bucket: a missing bucket is full, and only an allowed call spends. */
  lemma ScriptMeans(limits: Limits, store: Store, c: Call)
    requires ValidLimits(limits)
    ensures var (after, allowed) := Script(limits, store, c);
      var live := store - c.evicted;
      var user, room := UserKey(c.session, c.user), RoomKey(c.session);
      && (allowed <==> Level(limits, live, user, c.now) >= 1.0 && Level(limits, live, room, c.now) >= 1.0)
      && after.Keys == live.Keys + {user, room}
      && (forall k <- live :: k != user && k != room ==> after[k] == live[k])
      && after[user].tokens == Level(limits, live, user, c.now) - (if allowed then 1.0 else 0.0) && after[user].updatedAt == c.now
      && after[room].tokens == Level(limits, live, room, c.now) - (if allowed then 1.0 else 0.0) && after[room].updatedAt == c.now
    ensures forall k: Key :: k !in store ==> Level(limits, store, k, c.now) == LimitOf(limits, k).burst as real
  {
  }
}
