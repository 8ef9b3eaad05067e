/**
 Why the lease must hold a batch: on runs that keep to the configured publish timeout, every
 publication ends before its lease does, and no two relays ever publish one event at the same time.
 */
module OutboxLeases {
  import opened Prelude
  import opened OutboxRows
  import opened OutboxConfig
  import opened OutboxMachine
  import opened OutboxSafety

  /**
   The timing assumption: a publication returns within the publish timeout, and a batch's database work,
   its claim transaction included, takes one publish timeout in all.
   */
  predicate Timely(c: Config, s: State, step: Step) {
    && (step.Tick? ==> forall r <- s.relays ::
          if s.relays[r].phase.Publishing?
          then s.now + step.ms - s.relays[r].phase.since <= c.publishTimeout
          else s.relays[r].database + step.ms <= c.publishTimeout)
    && (step.ClaimBatch? ==> s.now - step.selectedAt <= c.publishTimeout)
  }

  predicate TimelyRuns(c: Config, s: State, steps: seq<Step>)
    decreases |steps|
  {
    steps != [] ==> Enabled(c, s, steps[0]) && Timely(c, s, steps[0]) && TimelyRuns(c, Do(c, s, steps[0]), steps[1..])
  }

  lemma {:induction false} TimelyIsARun(c: Config, s: State, steps: seq<Step>)
    requires TimelyRuns(c, s, steps)
    ensures Runs(c, s, steps)
    decreases |steps|
  {
    if steps != [] {
      TimelyIsARun(c, Do(c, s, steps[0]), steps[1..]);
    }
  }

  // ---- A batch fits into its leases ----

  function Running(w: Work, now: int): int {
    if w.phase.Publishing? then now - w.phase.since else 0
  }

  /** The publication time that n records may have taken. */
  function Budget(n: nat, timeout: int): int {
    n * timeout
  }

  lemma BudgetNext(n: nat, timeout: int)
    ensures Budget(n + 1, timeout) == Budget(n, timeout) + timeout
  {
  }

  /** Time since the claim query is accounted for: database work, ended publications, the one under way. */
  predicate OnTime(c: Config, s: State, w: Work) {
    && s.now == w.began + w.database + w.published + Running(w, s.now)
    && 0 <= w.database <= c.publishTimeout
    && 0 <= Running(w, s.now) <= c.publishTimeout
    && w.published <= Budget(w.job + (if w.phase == Confirmed || w.phase == Refused then 1 else 0), c.publishTimeout)
    && |w.jobs| <= c.batchSize
    && (forall j <- w.jobs :: j.token < |s.claims| && w.began + c.leaseDuration <= s.claims[j.token].leaseUntil)
  }

  predicate AllOnTime(c: Config, s: State) {
    forall r <- s.relays :: OnTime(c, s, s.relays[r])
  }

  /** The checked lease covers a batch up to any of its records: the database work, the earlier publications and this one. */
  lemma LeaseCovers(c: Config, job: nat)
    requires ValidConfig(c) && job < c.batchSize
    ensures Budget(job, c.publishTimeout) + 2 * c.publishTimeout <= c.leaseDuration
  {
    BudgetNext(job, c.publishTimeout);
    BudgetNext(job + 1, c.publishTimeout);
    MulGrows(c.publishTimeout, job + 2, c.batchSize + 1);
  }

  /** A publication that is under way, or has just ended, is still within its lease. */
  lemma PublicationWithinLease(c: Config, s: State, w: Work)
    requires ValidConfig(c) && OnTime(c, s, w) && w.phase.Publishing? && w.job < |w.jobs|
    ensures s.now <= s.claims[Current(w).token].leaseUntil
  {
    LeaseCovers(c, w.job);
    hide ValidConfig, Budget;
    assert Current(w) in w.jobs;
  }

  // ---- Claims of one event follow each other ----

  /** The relay may still publish under this token: its job is the current one or one to come. */
  predicate Live(w: Work, k: nat, t: Token) {
    w.job <= k < |w.jobs| && w.jobs[k].token == t
  }

  ghost predicate OneJobPerToken(s: State) {
    forall r1, k1: nat, r2, k2: nat, t: Token ::
      r1 in s.relays && r2 in s.relays && Live(s.relays[r1], k1, t) && Live(s.relays[r2], k2, t) ==> r1 == r2 && k1 == k2
  }

  /** The database time before which the row cannot be claimed again. */
  function Gate(row: Row): Option<int> {
    match row.status
    case Pending => Some(row.availableAt)
    case Claimed => row.leaseUntil
    case _ => None
  }

  /** Nothing done under token t reaches past time x: not its selection, nor its ended publications, nor, while live, its lease. */
  ghost predicate Behind(s: State, t: Token, x: int)
    requires t < |s.claims|
  {
    && s.claims[t].selectedAt <= x
    && (forall p <- s.publications :: p.token == t ==> p.end <= x)
    && (forall r, k: nat :: r in s.relays && Live(s.relays[r], k, t) ==> s.claims[t].leaseUntil <= x)
  }

  ghost predicate Gated(s: State) {
    forall t: Token :: t < |s.claims| && s.claims[t].event in s.rows && Gate(s.rows[s.claims[t].event]).Some?
      ==> Behind(s, t, Gate(s.rows[s.claims[t].event]).value)
  }

  ghost predicate Fencing(s: State) {
    forall t: Token, u: Token :: t < u < |s.claims| && s.claims[t].event == s.claims[u].event ==> Behind(s, t, s.claims[u].selectedAt)
  }

  /** Everything done under a token comes after its claim and before the present. */
  ghost predicate InThePast(s: State) {
    && (forall t: Token :: t < |s.claims| ==> s.claims[t].selectedAt <= s.now)
    && (forall p <- s.publications :: p.token < |s.claims| && s.claims[p.token].selectedAt <= p.start <= p.end <= s.now)
    && (forall r <- s.relays :: s.relays[r].phase.Publishing? && s.relays[r].job < |s.relays[r].jobs| ==>
          && Current(s.relays[r]).token < |s.claims|
          && s.claims[Current(s.relays[r]).token].selectedAt <= s.relays[r].phase.since <= s.now)
  }

  ghost predicate TimedInv(c: Config, s: State) {
    Inv(c, s) && AllOnTime(c, s) && OneJobPerToken(s) && Gated(s) && Fencing(s) && InThePast(s)
  }

  // ---- Each step keeps the timed invariant ----

  /** The same claims and publications, and no token newly live. */
  ghost predicate NoMoreLive(s: State, t: State) {
    && t.claims == s.claims && t.publications == s.publications
    && forall r, k: nat, u: Token {:trigger Live(t.relays[r], k, u)} :: r in t.relays && Live(t.relays[r], k, u) ==> r in s.relays && Live(s.relays[r], k, u)
  }

  lemma BehindShrinks(s: State, t: State, u: Token, x: int)
    requires NoMoreLive(s, t) && u < |s.claims| && Behind(s, u, x)
    ensures Behind(t, u, x)
  {
  }

  /** A step that changes no row, makes no token live and adds no publication keeps the fencing facts. */
  lemma QuietKeeps(s: State, t: State)
    requires NoMoreLive(s, t) && t.rows == s.rows
    requires OneJobPerToken(s) && Gated(s) && Fencing(s)
    ensures OneJobPerToken(t) && Gated(t) && Fencing(t)
  {
    forall u: Token | u < |t.claims| && t.claims[u].event in t.rows && Gate(t.rows[t.claims[u].event]).Some?
      ensures Behind(t, u, Gate(t.rows[t.claims[u].event]).value)
    {
      BehindShrinks(s, t, u, Gate(t.rows[t.claims[u].event]).value);
    }
    forall u: Token, v: Token | u < v < |t.claims| && t.claims[u].event == t.claims[v].event
      ensures Behind(t, u, t.claims[v].selectedAt)
    {
      BehindShrinks(s, t, u, t.claims[v].selectedAt);
    }
  }

  lemma TickKeepsTimed(c: Config, s: State, ms: nat)
    requires ValidConfig(c) && TimedInv(c, s) && Timely(c, s, Tick(ms))
    ensures TimedInv(c, Do(c, s, Tick(ms)))
  {
    hide Inv, OneJobPerToken, Gated, Fencing;
    var t := Do(c, s, Tick(ms));
    TickKeeps(c, s, ms);
    QuietKeeps(s, t) by { hide OnTime, InThePast; }
    forall r <- t.relays
      ensures OnTime(c, t, t.relays[r])
    {
      assert OnTime(c, s, s.relays[r]);
    }
  }

  lemma InsertKeepsTimed(c: Config, s: State, event: EventId, valid: bool, at: int)
    requires ValidConfig(c) && TimedInv(c, s) && Enabled(c, s, Insert(event, valid, at))
    ensures TimedInv(c, Do(c, s, Insert(event, valid, at)))
  {
    hide RowsOk, RelaysOk, LogOk, RetriesOk;
    var t := Do(c, s, Insert(event, valid, at));
    InsertKeeps(c, s, event, valid, at);
    InsertKeepsGates(c, s, event, valid, at);
    hide Inv, Gated, Fencing;
    forall r <- t.relays
      ensures OnTime(c, t, t.relays[r])
    {
      assert OnTime(c, s, s.relays[r]);
    }
  }

  lemma InsertKeepsGates(c: Config, s: State, event: EventId, valid: bool, at: int)
    requires ClaimsKnown(s) && Gated(s) && Fencing(s) && event !in s.rows && at <= s.now
    ensures var t := Do(c, s, Insert(event, valid, at)); Gated(t) && Fencing(t)
  {
    var t := Do(c, s, Insert(event, valid, at));
    forall u: Token | u < |t.claims| && t.claims[u].event in t.rows && Gate(t.rows[t.claims[u].event]).Some?
      ensures Behind(t, u, Gate(t.rows[t.claims[u].event]).value)
    {
      assert t.claims[u].event != event;
      assert Behind(s, u, Gate(s.rows[s.claims[u].event]).value);
      BehindShrinks(s, t, u, Gate(t.rows[t.claims[u].event]).value);
    }
    forall u: Token, v: Token | u < v < |t.claims| && t.claims[u].event == t.claims[v].event
      ensures Behind(t, u, t.claims[v].selectedAt)
    {
      BehindShrinks(s, t, u, t.claims[v].selectedAt);
    }
  }

  lemma BeginKeepsTimed(c: Config, s: State, relay: RelayId)
    requires ValidConfig(c) && TimedInv(c, s) && Enabled(c, s, BeginPublish(relay))
    ensures TimedInv(c, Do(c, s, BeginPublish(relay)))
  {
    var t := Do(c, s, BeginPublish(relay));
    BeginKeeps(c, s, relay);
    hide Inv;
    BeginOnTime(c, s, relay);
    hide OnTime, Behind;
    QuietKeeps(s, t);
  }

  lemma BeginOnTime(c: Config, s: State, relay: RelayId)
    requires AllOnTime(c, s) && InThePast(s) && Enabled(c, s, BeginPublish(relay)) && c.publishTimeout > 0
    ensures var t := Do(c, s, BeginPublish(relay)); AllOnTime(c, t) && InThePast(t)
  {
    hide Budget;
    var t := Do(c, s, BeginPublish(relay));
    assert Current(s.relays[relay]) in s.relays[relay].jobs;
    forall r <- t.relays
      ensures OnTime(c, t, t.relays[r])
    {
      assert OnTime(c, s, s.relays[r]);
    }
  }

  // ---- A publication ends ----

  /** A publication recorded under a live token, within its lease, and perhaps fewer live tokens. */
  ghost predicate Records(s: State, t: State, relay: RelayId, p: Publication) {
    && t.claims == s.claims && t.publications == s.publications + [p] && t.rows == s.rows && t.now == s.now
    && relay in s.relays && Live(s.relays[relay], s.relays[relay].job, p.token) && p.token < |s.claims|
    && p.end == s.now <= s.claims[p.token].leaseUntil
    && forall r, k: nat, u: Token {:trigger Live(t.relays[r], k, u)} :: r in t.relays && Live(t.relays[r], k, u) ==> r in s.relays && Live(s.relays[r], k, u)
  }

  lemma BehindRecords(s: State, t: State, relay: RelayId, p: Publication, u: Token, x: int)
    requires Records(s, t, relay, p) && u < |s.claims| && Behind(s, u, x)
    ensures Behind(t, u, x)
  {
  }

  lemma RecordKeeps(s: State, t: State, relay: RelayId, p: Publication)
    requires Records(s, t, relay, p)
    requires OneJobPerToken(s) && Gated(s) && Fencing(s)
    ensures OneJobPerToken(t) && Gated(t) && Fencing(t)
  {
    forall u: Token | u < |t.claims| && t.claims[u].event in t.rows && Gate(t.rows[t.claims[u].event]).Some?
      ensures Behind(t, u, Gate(t.rows[t.claims[u].event]).value)
    {
      BehindRecords(s, t, relay, p, u, Gate(t.rows[t.claims[u].event]).value);
    }
    forall u: Token, v: Token | u < v < |t.claims| && t.claims[u].event == t.claims[v].event
      ensures Behind(t, u, t.claims[v].selectedAt)
    {
      BehindRecords(s, t, relay, p, u, t.claims[v].selectedAt);
    }
  }

  lemma EndKeepsTimed(c: Config, s: State, relay: RelayId, confirmed: bool)
    requires ValidConfig(c) && TimedInv(c, s) && Enabled(c, s, EndPublish(relay, confirmed))
    ensures TimedInv(c, Do(c, s, EndPublish(relay, confirmed)))
  {
    hide Inv, Gated, Fencing, Behind, OneJobPerToken, OnTime;
    var t := Do(c, s, EndPublish(relay, confirmed));
    EndKeeps(c, s, relay, confirmed);
    EndOnTime(c, s, relay, confirmed);
    EndIsInTime(c, s, relay, confirmed);
    hide ValidConfig, AllOnTime, InThePast;
    RecordKeeps(s, t, relay, Ended(s, relay, confirmed));
  }

  lemma EndOnTime(c: Config, s: State, relay: RelayId, confirmed: bool)
    requires AllOnTime(c, s) && InThePast(s) && Enabled(c, s, EndPublish(relay, confirmed)) && c.publishTimeout > 0
    ensures var t := Do(c, s, EndPublish(relay, confirmed)); AllOnTime(c, t) && InThePast(t)
  {
    hide Budget;
    var t := Do(c, s, EndPublish(relay, confirmed));
    var w := s.relays[relay];
    BudgetNext(w.job, c.publishTimeout);
    assert Current(w) in w.jobs;
    forall r <- t.relays
      ensures OnTime(c, t, t.relays[r])
    {
      assert OnTime(c, s, s.relays[r]);
    }
  }

  lemma StopKeepsTimed(c: Config, s: State, relay: RelayId)
    requires ValidConfig(c) && TimedInv(c, s) && Enabled(c, s, Stop(relay))
    ensures TimedInv(c, Do(c, s, Stop(relay)))
  {
    var t := Do(c, s, Stop(relay));
    StopKeeps(c, s, relay);
    hide Inv, Budget;
    StopOnTime(c, s, relay);
    var w := s.relays[relay];
    assert Current(w) in w.jobs && OnTime(c, s, w);
    if w.phase.Publishing? {
      PublicationWithinLease(c, s, w);
      hide Gated, Fencing, Behind, OneJobPerToken, OnTime;
      RecordKeeps(s, t, relay, Ended(s, relay, false));
    } else {
      hide Gated, Fencing, Behind, OneJobPerToken, OnTime;
      QuietKeeps(s, t);
    }
  }

  lemma StopOnTime(c: Config, s: State, relay: RelayId)
    requires AllOnTime(c, s) && InThePast(s) && Enabled(c, s, Stop(relay))
    ensures var t := Do(c, s, Stop(relay)); AllOnTime(c, t) && InThePast(t)
  {
    hide Budget;
    var t := Do(c, s, Stop(relay));
    assert Current(s.relays[relay]) in s.relays[relay].jobs;
    forall r <- t.relays
      ensures OnTime(c, t, t.relays[r])
    {
      assert OnTime(c, s, s.relays[r]);
    }
  }

  // ---- A record is settled ----

  lemma AdvanceLive(s: State, relay: RelayId)
    requires Busy(s, relay) && OneJobPerToken(s)
    ensures var t := OutboxMachine.Advance(s, relay);
      && NoMoreLive(s, t)
      && forall r, k: nat :: r in t.relays ==> !Live(t.relays[r], k, Current(s.relays[relay]).token)
  {
    assert Live(s.relays[relay], s.relays[relay].job, Current(s.relays[relay]).token);
  }

  lemma AdvanceOnTime(c: Config, s: State, relay: RelayId)
    requires ValidConfig(c) && AllOnTime(c, s) && MaySettle(s, relay)
    ensures AllOnTime(c, OutboxMachine.Advance(s, relay))
  {
    hide Budget;
    var t := OutboxMachine.Advance(s, relay);
    var w := s.relays[relay];
    BudgetNext(w.job, c.publishTimeout);
    forall r <- t.relays
      ensures OnTime(c, t, t.relays[r])
    {
      assert OnTime(c, s, s.relays[r]);
    }
  }

  lemma AdvanceKeepsTimed(c: Config, s: State, relay: RelayId)
    requires ValidConfig(c) && TimedInv(c, s) && MaySettle(s, relay)
    ensures TimedInv(c, OutboxMachine.Advance(s, relay))
  {
    hide Inv, Gated, Fencing, Behind, OneJobPerToken, OnTime, ValidConfig;
    var t := OutboxMachine.Advance(s, relay);
    AdvanceKeeps(c, s, relay);
    AdvanceOnTime(c, s, relay);
    AdvanceLive(s, relay);
    QuietKeeps(s, t);
  }

  /** After a retry the row may not be claimed before the delay is over; by then everything under its tokens is past. */
  lemma SettledGate(c: Config, s: State, relay: RelayId, u: Token)
    requires ValidConfig(c) && TimedInv(c, s) && MaySettle(s, relay)
    requires var job := Current(s.relays[relay]); Fenced(s.rows, job.event, job.token) && u < |s.claims| && s.claims[u].event == job.event
    ensures Behind(OutboxMachine.Advance(s, relay), u, s.now)
  {
    var job := Current(s.relays[relay]);
    var t := OutboxMachine.Advance(s, relay);
    AdvanceLive(s, relay);
    hide RelaysOk, LogOk, RetriesOk;
    assert Latest(s.claims, job.event, job.token);
    if u < job.token {
      assert Behind(s, u, s.claims[job.token].selectedAt);
    }
  }

  /** A stale relay only moves on. */
  lemma SettleUnfenced(c: Config, s: State, relay: RelayId)
    requires MaySettle(s, relay) && !Fenced(s.rows, Current(s.relays[relay]).event, Current(s.relays[relay]).token)
    ensures Do(c, s, Settle(relay, true)) == OutboxMachine.Advance(s, relay)
  {
    hide Backoff;
  }

  lemma SettleKeepsTimed(c: Config, s: State, relay: RelayId)
    requires ValidConfig(c) && TimedInv(c, s) && MaySettle(s, relay)
    ensures TimedInv(c, Do(c, s, Settle(relay, true)))
  {
    StepKeeps(c, s, Settle(relay, true));
    AdvanceKeepsTimed(c, s, relay);
    if !Fenced(s.rows, Current(s.relays[relay]).event, Current(s.relays[relay]).token) {
      SettleUnfenced(c, s, relay);
    } else {
      SettledRows(c, s, relay);
      SettledGates(c, s, relay);
      hide Inv, Gated, Fencing, OneJobPerToken, AllOnTime, InThePast, Do, ApplyUpdate, OutboxMachine.Advance;
      SettledRest(c, OutboxMachine.Advance(s, relay), Do(c, s, Settle(relay, true)));
    }
  }

  function Settled(c: Config, s: State, relay: RelayId): State
    requires MaySettle(s, relay)
  {
    Do(c, s, Settle(relay, true))
  }

  lemma SettledGates(c: Config, s: State, relay: RelayId)
    requires MaySettle(s, relay) && Fenced(s.rows, Current(s.relays[relay]).event, Current(s.relays[relay]).token)
    requires ValidConfig(c) && TimedInv(c, s)
    requires TimedInv(c, OutboxMachine.Advance(s, relay))
    ensures Gated(Settled(c, s, relay))
  {
    hide Inv, OnTime;
    var job := Current(s.relays[relay]);
    var t, quiet := Do(c, s, Settle(relay, true)), OutboxMachine.Advance(s, relay);
    SettledRows(c, s, relay);
    hide Do, ApplyUpdate, OutboxMachine.Advance;
    forall u: Token | u < |t.claims| && t.claims[u].event in t.rows && Gate(t.rows[t.claims[u].event]).Some?
      ensures Behind(t, u, Gate(t.rows[t.claims[u].event]).value)
    {
      var e := t.claims[u].event;
      if e == job.event {
        SettledGate(c, s, relay, u);
        BackoffMonotone(c, job.attempt, job.attempt);
        assert Behind(quiet, u, s.now);
      } else {
        assert Behind(quiet, u, Gate(quiet.rows[e]).value);
      }
    }
  }

  lemma SettledRest(c: Config, quiet: State, t: State)
    requires TimedInv(c, quiet) && t.claims == quiet.claims && t.publications == quiet.publications && t.now == quiet.now && t.relays == quiet.relays
    ensures AllOnTime(c, t) && OneJobPerToken(t) && Fencing(t) && InThePast(t)
  {
    hide Inv;
    forall r <- t.relays
      ensures OnTime(c, t, t.relays[r])
    {
      assert OnTime(c, quiet, quiet.relays[r]);
    }
    forall u: Token, v: Token | u < v < |t.claims| && t.claims[u].event == t.claims[v].event
      ensures Behind(t, u, t.claims[v].selectedAt)
    {
      BehindShrinks(quiet, t, u, t.claims[v].selectedAt);
    }
  }

  /** What settling does besides advancing: only the settled row, which is terminal or gated by the retry delay. */
  lemma SettledRows(c: Config, s: State, relay: RelayId)
    requires MaySettle(s, relay) && Fenced(s.rows, Current(s.relays[relay]).event, Current(s.relays[relay]).token)
    ensures var t := Do(c, s, Settle(relay, true));
      var quiet := OutboxMachine.Advance(s, relay);
      var job := Current(s.relays[relay]);
      && t.claims == quiet.claims && t.publications == quiet.publications && t.now == quiet.now && t.relays == quiet.relays
      && t.rows.Keys == quiet.rows.Keys
      && (forall e <- t.rows :: e != job.event ==> t.rows[e] == quiet.rows[e])
      && (Gate(t.rows[job.event]).Some? ==> Gate(t.rows[job.event]) == Some(s.now + Backoff(c, job.attempt)))
  {
  }

  // ---- A row is claimed ----

  /** Eligibility means the gate has opened: what other tokens did to this event lies before the new claim. */
  lemma ClaimIsBehind(c: Config, s: State, relay: RelayId, selectedAt: int, p: Pick, u: Token)
    requires ValidConfig(c) && TimedInv(c, s) && relay in s.relays && MayClaim(s, relay, selectedAt, p)
    requires u < |s.claims| && s.claims[u].event == p.id
    ensures Behind(s, u, selectedAt)
  {
    hide RelaysOk, LogOk, RetriesOk;
    var gate := Gate(s.rows[p.id]);
    assert gate.Some? && gate.value <= selectedAt;
    assert Behind(s, u, gate.value);
  }

  /** The only new live token of a claim is the fresh one, at the end of its relay's jobs. */
  lemma ClaimLive(c: Config, s: State, relay: RelayId, selectedAt: int, p: Pick)
    requires TimedInv(c, s) && relay in s.relays && MayClaim(s, relay, selectedAt, p)
    ensures var t := ClaimOne(c, s, relay, selectedAt, p);
      && OneJobPerToken(t)
      && forall r, k: nat, u: Token :: r in t.relays && Live(t.relays[r], k, u) && u != |s.claims| ==> r in s.relays && Live(s.relays[r], k, u)
  {
    hide RowsOk, LogOk, RetriesOk, ClaimsKnown;
    var t := ClaimOne(c, s, relay, selectedAt, p);
    forall r, k: nat, u: Token | r in t.relays && Live(t.relays[r], k, u)
      ensures if u == |s.claims| then r == relay && k == |s.relays[relay].jobs| else r in s.relays && Live(s.relays[r], k, u)
    {
      assert WorkOk(s, s.relays[r]);
      if k < |s.relays[r].jobs| {
        assert JobOk(s, s.relays[r].jobs[k]);
      }
    }
  }

  lemma ClaimBehind(c: Config, s: State, relay: RelayId, selectedAt: int, p: Pick, u: Token, x: int)
    requires TimedInv(c, s) && relay in s.relays && MayClaim(s, relay, selectedAt, p)
    requires u < |s.claims| && Behind(s, u, x)
    ensures Behind(ClaimOne(c, s, relay, selectedAt, p), u, x)
  {
    ClaimLive(c, s, relay, selectedAt, p);
    hide Inv;
  }

  lemma ClaimOneKeepsTimed(c: Config, s: State, relay: RelayId, selectedAt: int, p: Pick)
    requires ValidConfig(c) && TimedInv(c, s) && relay in s.relays && MayClaim(s, relay, selectedAt, p)
    requires s.relays[relay].began == selectedAt && |s.relays[relay].jobs| < c.batchSize
    ensures TimedInv(c, ClaimOne(c, s, relay, selectedAt, p))
  {
    var t := ClaimOne(c, s, relay, selectedAt, p);
    ClaimOneKeeps(c, s, relay, selectedAt, p);
    ClaimLive(c, s, relay, selectedAt, p);
    ClaimKeepsFences(c, s, relay, selectedAt, p);
    ClaimOnTime(c, s, relay, selectedAt, p);
    hide Inv, Gated, Fencing, Behind, OneJobPerToken, AllOnTime, InThePast;
  }

  lemma ClaimOnTime(c: Config, s: State, relay: RelayId, selectedAt: int, p: Pick)
    requires AllOnTime(c, s) && InThePast(s) && RelaysOk(s) && relay in s.relays && MayClaim(s, relay, selectedAt, p)
    requires s.relays[relay].began == selectedAt && |s.relays[relay].jobs| < c.batchSize
    ensures var t := ClaimOne(c, s, relay, selectedAt, p); AllOnTime(c, t) && InThePast(t)
  {
    hide Budget;
    var t := ClaimOne(c, s, relay, selectedAt, p);
    forall r <- t.relays
      ensures OnTime(c, t, t.relays[r])
    {
      assert OnTime(c, s, s.relays[r]);
    }
    forall r <- t.relays | t.relays[r].phase.Publishing? && t.relays[r].job < |t.relays[r].jobs|
      ensures Current(t.relays[r]).token < |t.claims|
      ensures t.claims[Current(t.relays[r]).token].selectedAt <= t.relays[r].phase.since <= t.now
    {
      assert WorkOk(s, s.relays[r]);
    }
  }

  lemma FreshBehind(c: Config, s: State, relay: RelayId, selectedAt: int, p: Pick)
    requires ValidConfig(c) && TimedInv(c, s) && relay in s.relays && MayClaim(s, relay, selectedAt, p)
    ensures Behind(ClaimOne(c, s, relay, selectedAt, p), |s.claims|, p.at + c.leaseDuration)
  {
    hide Inv;
  }

  lemma ClaimKeepsFences(c: Config, s: State, relay: RelayId, selectedAt: int, p: Pick)
    requires ValidConfig(c) && TimedInv(c, s) && relay in s.relays && MayClaim(s, relay, selectedAt, p)
    ensures var t := ClaimOne(c, s, relay, selectedAt, p); Gated(t) && Fencing(t)
  {
    hide Inv;
    var t := ClaimOne(c, s, relay, selectedAt, p);
    forall u: Token | u < |t.claims| && t.claims[u].event in t.rows && Gate(t.rows[t.claims[u].event]).Some?
      ensures Behind(t, u, Gate(t.rows[t.claims[u].event]).value)
    {
      if u == |s.claims| {
        FreshBehind(c, s, relay, selectedAt, p);
      } else if t.claims[u].event == p.id {
        ClaimIsBehind(c, s, relay, selectedAt, p, u);
        ClaimBehind(c, s, relay, selectedAt, p, u, selectedAt);
      } else {
        ClaimBehind(c, s, relay, selectedAt, p, u, Gate(s.rows[s.claims[u].event]).value);
      }
    }
    forall u: Token, v: Token | u < v < |t.claims| && t.claims[u].event == t.claims[v].event
      ensures Behind(t, u, t.claims[v].selectedAt)
    {
      if v == |s.claims| {
        ClaimIsBehind(c, s, relay, selectedAt, p, u);
      }
      ClaimBehind(c, s, relay, selectedAt, p, u, t.claims[v].selectedAt);
    }
  }

  lemma {:induction false} ClaimAllKeepsTimed(c: Config, s: State, relay: RelayId, selectedAt: int, picks: seq<Pick>)
    requires ValidConfig(c) && TimedInv(c, s) && relay in s.relays && MayClaimAll(c, s, relay, selectedAt, picks)
    requires s.relays[relay].began == selectedAt && |s.relays[relay].jobs| + |picks| <= c.batchSize
    ensures TimedInv(c, ClaimAllIn(c, s, relay, selectedAt, picks))
    decreases |picks|
  {
    if picks != [] {
      ClaimOneKeepsTimed(c, s, relay, selectedAt, picks[0]);
      hide TimedInv;
      ClaimAllKeepsTimed(c, ClaimOne(c, s, relay, selectedAt, picks[0]), relay, selectedAt, picks[1..]);
    }
  }

  lemma OpenKeepsTimed(c: Config, s: State, relay: RelayId, selectedAt: int)
    requires ValidConfig(c) && TimedInv(c, s) && relay !in s.relays && 0 <= s.now - selectedAt <= c.publishTimeout
    ensures TimedInv(c, OpenBatch(s, relay, selectedAt))
  {
    hide Inv, OneJobPerToken, Gated, Fencing;
    var t := OpenBatch(s, relay, selectedAt);
    OpenKeeps(c, s, relay, selectedAt);
    QuietKeeps(s, t) by { hide OnTime, InThePast; }
    forall r <- t.relays
      ensures OnTime(c, t, t.relays[r])
    {
      assert r != relay ==> OnTime(c, s, s.relays[r]);
    }
  }

  // ---- Every timely run ----

  lemma StepKeepsTimed(c: Config, s: State, step: Step)
    requires ValidConfig(c) && TimedInv(c, s) && Enabled(c, s, step) && Timely(c, s, step)
    ensures TimedInv(c, Do(c, s, step))
  {
    hide TimedInv;
    match step
    case Insert(event, valid, at) => InsertKeepsTimed(c, s, event, valid, at);
    case ClaimBatch(relay, selectedAt, picks) =>
      OpenKeepsTimed(c, s, relay, selectedAt);
      ClaimAllKeepsTimed(c, OpenBatch(s, relay, selectedAt), relay, selectedAt, picks);
    case BeginPublish(relay) => BeginKeepsTimed(c, s, relay);
    case EndPublish(relay, confirmed) => EndKeepsTimed(c, s, relay, confirmed);
    case Settle(relay, reaches) =>
      if reaches {
        SettleKeepsTimed(c, s, relay);
      } else {
        AdvanceKeepsTimed(c, s, relay);
      }
    case Stop(relay) => StopKeepsTimed(c, s, relay);
    case Tick(ms) => TickKeepsTimed(c, s, ms);
  }

  lemma {:induction false} TimelyRunKeeps(c: Config, s: State, steps: seq<Step>)
    requires ValidConfig(c) && TimedInv(c, s) && TimelyRuns(c, s, steps)
    ensures Runs(c, s, steps) && TimedInv(c, After(c, s, steps))
    decreases |steps|
  {
    TimelyIsARun(c, s, steps);
    if steps != [] {
      StepKeepsTimed(c, s, steps[0]);
      TimelyRunKeeps(c, Do(c, s, steps[0]), steps[1..]);
    }
  }

  ghost predicate TimelyReachable(c: Config, s: State) {
    exists now: int, steps: seq<Step> :: TimelyRuns(c, Initial(now), steps) && Runs(c, Initial(now), steps) && After(c, Initial(now), steps) == s
  }

  lemma InitialTimed(c: Config, now: int)
    ensures TimedInv(c, Initial(now))
  {
    InitialOk(c, now);
  }

  lemma TimelyReachableOk(c: Config, s: State)
    requires ValidConfig(c) && TimelyReachable(c, s)
    ensures TimedInv(c, s)
  {
    var now: int, steps: seq<Step> :| TimelyRuns(c, Initial(now), steps) && Runs(c, Initial(now), steps) && After(c, Initial(now), steps) == s;
    InitialTimed(c, now);
    TimelyRunKeeps(c, Initial(now), steps);
  }

  /** Every publication that ended did so within the lease of its claim. */
  ghost predicate EndedInTime(s: State) {
    forall p <- s.publications :: p.token < |s.claims| && p.end <= s.claims[p.token].leaseUntil
  }

  lemma ClaimsExtend(c: Config, s: State, relay: RelayId, selectedAt: int, picks: seq<Pick>)
    requires relay in s.relays && MayClaimAll(c, s, relay, selectedAt, picks)
    ensures var t := ClaimAllIn(c, s, relay, selectedAt, picks); s.claims <= t.claims && t.publications == s.publications
    decreases |picks|
  {
    if picks != [] {
      ClaimsExtend(c, ClaimOne(c, s, relay, selectedAt, picks[0]), relay, selectedAt, picks[1..]);
    }
  }

  lemma EndIsInTime(c: Config, s: State, relay: RelayId, confirmed: bool)
    requires ValidConfig(c) && TimedInv(c, s) && Busy(s, relay) && s.relays[relay].phase.Publishing?
    ensures var p := Ended(s, relay, confirmed); p.token < |s.claims| && p.end <= s.claims[p.token].leaseUntil
  {
    hide Inv, Gated, Fencing, OneJobPerToken, ValidConfig;
    assert OnTime(c, s, s.relays[relay]);
    PublicationWithinLease(c, s, s.relays[relay]);
    assert Current(s.relays[relay]) in s.relays[relay].jobs;
  }

  lemma StepEndsInTime(c: Config, s: State, step: Step)
    requires ValidConfig(c) && TimedInv(c, s) && EndedInTime(s) && Enabled(c, s, step)
    ensures EndedInTime(Do(c, s, step))
  {
    hide TimedInv, ValidConfig, MayClaimAll, ClaimAllIn, Backoff;
    match step
    case ClaimBatch(relay, selectedAt, picks) => ClaimsExtend(c, OpenBatch(s, relay, selectedAt), relay, selectedAt, picks);
    case EndPublish(relay, confirmed) => EndIsInTime(c, s, relay, confirmed);
    case Stop(relay) =>
      if s.relays[relay].phase.Publishing? {
        EndIsInTime(c, s, relay, false);
      }
    case _ =>
  }

  lemma {:induction false} RunEndsInTime(c: Config, s: State, steps: seq<Step>)
    requires ValidConfig(c) && TimedInv(c, s) && EndedInTime(s) && TimelyRuns(c, s, steps) && Runs(c, s, steps)
    ensures EndedInTime(After(c, s, steps))
    decreases |steps|
  {
    hide TimedInv, EndedInTime, Do, Enabled, Timely;
    if steps != [] {
      StepKeepsTimed(c, s, steps[0]);
      StepEndsInTime(c, s, steps[0]);
      RunEndsInTime(c, Do(c, s, steps[0]), steps[1..]);
    }
  }

  /** With a valid configuration every publication, ended or under way, keeps within the lease of the claim it was made under. */
  lemma PublicationsKeepTheirLease(c: Config, s: State, p: Publication)
    requires ValidConfig(c) && TimelyReachable(c, s) && Publishes(s, p)
    ensures p.token < |s.claims| && p.end <= s.claims[p.token].leaseUntil
  {
    TimelyReachableOk(c, s);
    hide TimedInv;
    if p in s.publications {
      var now: int, steps: seq<Step> :| TimelyRuns(c, Initial(now), steps) && Runs(c, Initial(now), steps) && After(c, Initial(now), steps) == s;
      InitialTimed(c, now);
      RunEndsInTime(c, Initial(now), steps);
    } else {
      var r :| r in s.relays && Busy(s, r) && s.relays[r].phase.Publishing? && p == Ended(s, r, false);
      EndIsInTime(c, s, r, false);
    }
  }

  /** The publications of an event: those that ended, and those under way, which last at least until now. */
  ghost predicate Publishes(s: State, p: Publication) {
    || p in s.publications
    || exists r <- s.relays :: Busy(s, r) && s.relays[r].phase.Publishing? && p == Ended(s, r, false)
  }

  /**
   No two relays publish the same event at overlapping times: of two publications of one event made under
   different claims, one has ended by the time the other starts.
   */
  lemma NoOverlappingPublications(c: Config, s: State, p: Publication, q: Publication)
    requires ValidConfig(c) && TimelyReachable(c, s) && Publishes(s, p) && Publishes(s, q) && p.token < q.token
    ensures q.token < |s.claims|
    ensures s.claims[p.token].event == s.claims[q.token].event ==> p.end <= q.start
  {
    TimelyReachableOk(c, s);
    hide LogOk, RetriesOk, RowsOk, ClaimsKnown;
    if s.claims[p.token].event == s.claims[q.token].event {
      assert Behind(s, p.token, s.claims[q.token].selectedAt);
      if p !in s.publications {
        var r :| r in s.relays && Busy(s, r) && s.relays[r].phase.Publishing? && p == Ended(s, r, false);
        PublicationWithinLease(c, s, s.relays[r]);
        assert Live(s.relays[r], s.relays[r].job, p.token);
      }
    }
  }

  lemma ReachInitial(c: Config)
    ensures TimelyReachable(c, Initial(0))
  {
    var s0 := Initial(0);
    assert TimelyRuns(c, s0, []) && Runs(c, s0, []) && After(c, s0, []) == s0;
  }

  lemma TimelyExtend(c: Config, s: State, step: Step)
    requires TimelyReachable(c, s) && Enabled(c, s, step) && Timely(c, s, step)
    ensures TimelyReachable(c, Do(c, s, step))
  {
    var now: int, steps: seq<Step> :| TimelyRuns(c, Initial(now), steps) && Runs(c, Initial(now), steps) && After(c, Initial(now), steps) == s;
    TimelyAppend(c, Initial(now), steps, step);
  }

  lemma {:induction false} TimelyAppend(c: Config, s: State, steps: seq<Step>, step: Step)
    requires TimelyRuns(c, s, steps) && Runs(c, s, steps)
    requires Enabled(c, After(c, s, steps), step) && Timely(c, After(c, s, steps), step)
    ensures TimelyRuns(c, s, steps + [step]) && Runs(c, s, steps + [step])
    ensures After(c, s, steps + [step]) == Do(c, After(c, s, steps), step)
    decreases |steps|
  {
    hide Do, Enabled, Timely;
    if steps == [] {
      assert [step][1..] == [];
    } else {
      TimelyAppend(c, Do(c, s, steps[0]), steps[1..], step);
      assert (steps + [step])[1..] == steps[1..] + [step];
    }
  }
}
