/**
 Why the lease check is exact: whatever the batch size and the publish timeout, a lease shorter than the
 configuration demands has a timely run in which two relays publish one event at the same time.
 */
module OutboxShortLease {
  import opened OutboxRows
  import opened OutboxConfig
  import opened OutboxMachine
  import opened OutboxLeases

  /** The configuration passes every check but that of the lease. */
  predicate OnlyLeaseFails(c: Config) {
    Validate(c).Some? && Validate(c).value.LeaseTooShort?
  }

  // ---- The events arrive ----

  ghost predicate Stored(s: State, n: nat) {
    && s.now == 0 && s.claims == [] && s.relays == map[]
    && (forall e: EventId :: e in s.rows <==> e < n)
    && (forall e <- s.rows :: s.rows[e] == NewRow(true, 0))
  }

  lemma {:induction false} StoreAll(c: Config, n: nat) returns (s: State)
    ensures TimelyReachable(c, s) && Stored(s, n)
  {
    if n == 0 {
      ReachInitial(c);
      s := INITIAL_AT_ZERO;
    } else {
      var before := StoreAll(c, n - 1);
      hide TimelyReachable;
      TimelyExtend(c, before, Insert(n - 1, true, 0));
      s := Do(c, before, Insert(n - 1, true, 0));
    }
  }

  const INITIAL_AT_ZERO := Initial(0)

  // ---- One relay claims them all ----

  function FirstClaimOf(c: Config, e: EventId): Row {
    ClaimRow(NewRow(true, 0), 0, e, c.leaseDuration)
  }

  predicate Taken(c: Config, jobs: seq<Job>, claims: seq<Claim>, k: nat) {
    && |jobs| == |claims| == k
    && (forall i :: 0 <= i < k ==> jobs[i] == Job(i, i, 1, true) && claims[i] == Claim(i, 0, c.leaseDuration))
  }

  predicate Claiming(c: Config, s: State, k: nat, n: nat) {
    && s.now == 0 && k <= n && s.relays.Keys == {0}
    && s.relays[0] == Work(s.relays[0].jobs, 0, Ready, 0, 0, 0)
    && Taken(c, s.relays[0].jobs, s.claims, k)
    && (forall e: EventId :: e < n ==> e in s.rows && s.rows[e] == if e < k then FirstClaimOf(c, e) else NewRow(true, 0))
  }

  function PicksFrom(k: nat, n: nat): (picks: seq<Pick>)
    requires k <= n
    ensures |picks| == n - k && forall i :: 0 <= i < n - k ==> picks[i] == Pick(k + i, 0)
  {
    seq(n - k, i requires 0 <= i < n - k => Pick(k + i, 0))
  }

  lemma {:induction false} ClaimRest(c: Config, s: State, k: nat, n: nat)
    requires Claiming(c, s, k, n)
    ensures MayClaimAll(c, s, 0, 0, PicksFrom(k, n))
    ensures Claiming(c, ClaimAllIn(c, s, 0, 0, PicksFrom(k, n)), n, n)
    decreases n - k
  {
    if k < n {
      var t := ClaimOne(c, s, 0, 0, Pick(k, 0));
      assert PicksFrom(k, n)[1..] == PicksFrom(k + 1, n);
      ClaimRest(c, t, k + 1, n);
    }
  }

  lemma ClaimThemAll(c: Config, s: State) returns (t: State)
    requires OnlyLeaseFails(c) && TimelyReachable(c, s) && Stored(s, c.batchSize)
    ensures TimelyReachable(c, t) && Claiming(c, t, c.batchSize, c.batchSize)
  {
    hide TimelyReachable;
    var n: nat := c.batchSize;
    var open := OpenBatch(s, 0, 0);
    ClaimRest(c, open, 0, n);
    TimelyExtend(c, s, ClaimBatch(0, 0, PicksFrom(0, n)));
    t := Do(c, s, ClaimBatch(0, 0, PicksFrom(0, n)));
  }

  // ---- It publishes one after another, each for the whole timeout ----

  /** Records before i are done; record i has not been begun. */
  predicate MidBatch(c: Config, s: State, i: nat) {
    var n := c.batchSize;
    && i < n && s.now == Budget(i + 1, c.publishTimeout) && s.relays.Keys == {0}
    && s.relays[0] == Work(s.relays[0].jobs, i, Ready, 0, c.publishTimeout, Budget(i, c.publishTimeout))
    && Taken(c, s.relays[0].jobs, s.claims, n)
    && (forall e: EventId :: i <= e < n ==> e in s.rows && s.rows[e] == FirstClaimOf(c, e))
  }

  /** The database work of the batch takes one publish timeout. */
  lemma SlowDatabase(c: Config, s: State) returns (t: State)
    requires OnlyLeaseFails(c) && TimelyReachable(c, s) && Claiming(c, s, c.batchSize, c.batchSize)
    ensures TimelyReachable(c, t) && MidBatch(c, t, 0)
  {
    hide TimelyReachable;
    TimelyExtend(c, s, Tick(c.publishTimeout));
    t := Do(c, s, Tick(c.publishTimeout));
  }

  /** The same while record i is being published, since the timeout's multiple at which it began. */
  predicate Underway(c: Config, s: State, i: nat, elapsed: nat) {
    var n := c.batchSize;
    && i < n && s.now == Budget(i + 1, c.publishTimeout) + elapsed && s.relays.Keys == {0}
    && s.relays[0] == Work(s.relays[0].jobs, i, Publishing(Budget(i + 1, c.publishTimeout)), 0, c.publishTimeout, Budget(i, c.publishTimeout))
    && Taken(c, s.relays[0].jobs, s.claims, n)
    && (forall e: EventId :: i <= e < n ==> e in s.rows && s.rows[e] == FirstClaimOf(c, e))
  }

  lemma PublishFor(c: Config, s: State, i: nat, elapsed: nat) returns (t: State)
    requires TimelyReachable(c, s) && MidBatch(c, s, i) && elapsed <= c.publishTimeout
    ensures TimelyReachable(c, t) && Underway(c, t, i, elapsed)
  {
    hide TimelyReachable, Budget;
    TimelyExtend(c, s, BeginPublish(0));
    var begun := Do(c, s, BeginPublish(0));
    TimelyExtend(c, begun, Tick(elapsed));
    t := Do(c, begun, Tick(elapsed));
  }

  lemma NextRecord(c: Config, s: State, i: nat) returns (t: State)
    requires OnlyLeaseFails(c) && TimelyReachable(c, s) && MidBatch(c, s, i) && i + 1 < c.batchSize
    ensures TimelyReachable(c, t) && MidBatch(c, t, i + 1)
  {
    var published := PublishFor(c, s, i, c.publishTimeout);
    hide TimelyReachable, Budget, OnlyLeaseFails;
    BudgetNext(i + 1, c.publishTimeout);
    BudgetNext(i, c.publishTimeout);
    TimelyExtend(c, published, EndPublish(0, true));
    var ended := Do(c, published, EndPublish(0, true));
    TimelyExtend(c, ended, Settle(0, true));
    t := Do(c, ended, Settle(0, true));
  }

  lemma {:induction false} LastRecord(c: Config, s: State, i: nat) returns (t: State)
    requires OnlyLeaseFails(c) && TimelyReachable(c, s) && MidBatch(c, s, i)
    ensures TimelyReachable(c, t) && MidBatch(c, t, c.batchSize - 1)
    decreases c.batchSize - i
  {
    if i == c.batchSize - 1 {
      t := s;
    } else {
      var next := NextRecord(c, s, i);
      t := LastRecord(c, next, i + 1);
    }
  }

  // ---- The last lease runs out first ----

  lemma RoomBeforeTheEnd(c: Config) returns (elapsed: nat)
    requires OnlyLeaseFails(c)
    ensures elapsed < c.publishTimeout && c.leaseDuration <= Budget(c.batchSize, c.publishTimeout) + elapsed
  {
    BudgetNext(c.batchSize, c.publishTimeout);
    assert c.leaseDuration < Budget(c.batchSize + 1, c.publishTimeout);
    hide Budget;
    elapsed := if c.leaseDuration <= Budget(c.batchSize, c.publishTimeout) then 0 else c.leaseDuration - Budget(c.batchSize, c.publishTimeout);
  }

  /** Relay 1 claims the last event, whose lease is over, while relay 0 still publishes it. */
  lemma SecondClaim(c: Config, s: State, elapsed: nat) returns (t: State)
    requires OnlyLeaseFails(c) && TimelyReachable(c, s) && Underway(c, s, c.batchSize - 1, elapsed)
    requires c.leaseDuration <= s.now
    ensures TimelyReachable(c, t) && t.now == s.now && t.relays.Keys == {0, 1} && t.relays[0] == s.relays[0]
    ensures t.claims == s.claims + [Claim(c.batchSize - 1, s.now, s.now + c.leaseDuration)]
    ensures t.relays[1] == Work([Job(c.batchSize - 1, c.batchSize, 2, true)], 0, Ready, s.now, 0, 0)
  {
    hide TimelyReachable, Budget;
    var pick := Pick(c.batchSize - 1, s.now);
    var step := ClaimBatch(1, s.now, [pick]);
    var open := OpenBatch(s, 1, s.now);
    t := ClaimOne(c, open, 1, s.now, pick);
    assert [pick][1..] == [];
    assert MayClaimAll(c, t, 1, s.now, []) && ClaimAllIn(c, t, 1, s.now, []) == t;
    TimelyExtend(c, s, step);
    assert [] + [Job(c.batchSize - 1, c.batchSize, 2, true)] == [Job(c.batchSize - 1, c.batchSize, 2, true)];
  }

  /** Both publish the event for one more unit of time. */
  lemma BothPublish(c: Config, s: State) returns (t: State)
    requires OnlyLeaseFails(c) && TimelyReachable(c, s) && s.relays.Keys == {0, 1} && |s.claims| == c.batchSize + 1
    requires s.relays[0].phase.Publishing? && s.now + 1 - s.relays[0].phase.since <= c.publishTimeout
    requires s.relays[0].phase.since <= s.now && s.relays[0].job < |s.relays[0].jobs| && Current(s.relays[0]).token == c.batchSize - 1
    requires s.relays[1] == Work([Job(c.batchSize - 1, c.batchSize, 2, true)], 0, Ready, s.now, 0, 0)
    ensures TimelyReachable(c, t) && t.claims == s.claims
    ensures OutboxLeases.Publishes(t, Publication(c.batchSize - 1, s.relays[0].phase.since, s.now + 1, false))
    ensures OutboxLeases.Publishes(t, Publication(c.batchSize, s.now, s.now + 1, false))
  {
    hide TimelyReachable;
    TimelyExtend(c, s, BeginPublish(1));
    var begun := Do(c, s, BeginPublish(1));
    TimelyExtend(c, begun, Tick(1));
    t := Do(c, begun, Tick(1));
    assert 0 in t.relays && Ended(t, 0, false) == Publication(c.batchSize - 1, s.relays[0].phase.since, s.now + 1, false);
    assert 1 in t.relays && Ended(t, 1, false) == Publication(c.batchSize, s.now, s.now + 1, false);
  }

  /** Two publications of one event under different claims, of which the later begins before the earlier has ended. */
  ghost predicate Overlap(s: State, p: Publication, q: Publication) {
    && OutboxLeases.Publishes(s, p) && OutboxLeases.Publishes(s, q) && p.token < q.token < |s.claims|
    && s.claims[p.token].event == s.claims[q.token].event && q.start < p.end
  }

  ghost predicate MayOverlap(c: Config) {
    exists s: State, p: Publication, q: Publication :: TimelyReachable(c, s) && Overlap(s, p, q)
  }

  /** Whatever the batch size, the publish timeout and the lease: if only the lease check fails, publications overlap in some timely run. */
  lemma ShortLeaseOverlaps(c: Config)
    requires OnlyLeaseFails(c)
    ensures MayOverlap(c)
  {
    var stored := StoreAll(c, c.batchSize);
    var claimed := ClaimThemAll(c, stored);
    var first := SlowDatabase(c, claimed);
    var last := LastRecord(c, first, 0);
    var elapsed := RoomBeforeTheEnd(c);
    var late := PublishFor(c, last, c.batchSize - 1, elapsed);
    var again := SecondClaim(c, late, elapsed);
    var both := BothPublish(c, again);
    hide TimelyReachable, Budget, OnlyLeaseFails, MidBatch, Claiming, Stored;
    var p := Publication(c.batchSize - 1, again.relays[0].phase.since, again.now + 1, false);
    var q := Publication(c.batchSize, again.now, again.now + 1, false);
    assert Overlap(both, p, q);
  }

  /** The lease check is exact: of the configurations that pass the other checks, those without overlaps are those it accepts. */
  lemma LeaseCheckIsExact(c: Config)
    requires ValidConfig(c) || OnlyLeaseFails(c)
    ensures ValidConfig(c) <==> !MayOverlap(c)
  {
    if ValidConfig(c) {
      forall s: State, p: Publication, q: Publication | TimelyReachable(c, s)
        ensures !Overlap(s, p, q)
      {
        if Overlap(s, p, q) {
          NoOverlappingPublications(c, s, p, q);
        }
      }
    } else {
      ShortLeaseOverlaps(c);
    }
  }
}
