/** What holds in every run of the outbox machine, whatever crashes, expires or goes wrong. */
module OutboxSafety {
  import opened Prelude
  import opened OutboxRows
  import opened OutboxConfig
  import opened OutboxMachine
  import OutboxTable
  import OutboxRelay

  lemma ClaimCountAppend(claims: seq<Claim>, c: Claim, e: EventId)
    ensures ClaimCount(claims + [c], e) == ClaimCount(claims, e) + (if c.event == e then 1 else 0)
  {
    assert (claims + [c])[..|claims|] == claims;
  }

  lemma RetryCountAppend(log: seq<Update>, u: Update, e: EventId)
    ensures RetryCount(log + [u], e) == RetryCount(log, e) + (if u.Retried? && u.event == e then 1 else 0)
  {
    assert (log + [u])[..|log|] == log;
  }

  /** No claim of the event after this one: the attempts then are the attempts now. */
  lemma {:induction false} ClaimCountAtLatest(claims: seq<Claim>, e: EventId, t: Token)
    requires Latest(claims, e, t)
    ensures ClaimCount(claims, e) == ClaimCount(claims[..t + 1], e) >= 1
  {
    if t + 1 < |claims| {
      ClaimCountAtLatest(claims[..|claims| - 1], e, t);
      assert claims[..|claims| - 1][..t + 1] == claims[..t + 1];
    } else {
      assert claims[..t + 1] == claims;
    }
  }

  // ---- Steps that do not touch the rows ----

  lemma TickKeeps(c: Config, s: State, ms: nat)
    requires Inv(c, s)
    ensures Inv(c, Do(c, s, Tick(ms)))
  {
    var t := Do(c, s, Tick(ms));
    forall r <- t.relays
      ensures WorkOk(t, t.relays[r])
    {
      assert WorkOk(s, s.relays[r]);
      forall j <- t.relays[r].jobs
        ensures JobOk(t, j)
      {
        assert JobOk(s, j);
      }
    }
  }

  lemma BeginKeeps(c: Config, s: State, relay: RelayId)
    requires Inv(c, s) && Enabled(c, s, BeginPublish(relay))
    ensures Inv(c, Do(c, s, BeginPublish(relay)))
  {
    var t := Do(c, s, BeginPublish(relay));
    SameTables(c, s, t);
  }

  /** A step that only changes the clock's surroundings keeps the table part; the works still need checking. */
  lemma SameTables(c: Config, s: State, t: State)
    requires Inv(c, s)
    requires t.rows == s.rows && t.claims == s.claims && t.log == s.log && t.now == s.now
    requires forall p <- s.publications :: p in t.publications
    requires forall r <- t.relays :: (r in s.relays && t.relays[r] == s.relays[r]) || WorkShape(s, t, r)
    ensures Inv(c, t)
  {
    forall r <- t.relays
      ensures WorkOk(t, t.relays[r])
    {
      forall j <- t.relays[r].jobs
        ensures JobOk(t, j)
      {
        assert r in s.relays && WorkOk(s, s.relays[r]);
        assert JobOk(s, j);
      }
    }
    forall u <- t.log
      ensures EntryOk(c, t, u)
    {
      assert EntryOk(c, s, u);
    }
  }

  /** A relay still at its record, in a new phase backed by the publications. */
  predicate WorkShape(s: State, t: State, r: RelayId)
    requires r in t.relays
  {
    && r in s.relays && t.relays[r].jobs == s.relays[r].jobs && t.relays[r].job < |t.relays[r].jobs|
    && (t.relays[r].phase != Ready ==> Current(t.relays[r]).valid)
    && var w := t.relays[r];
       match w.phase
       case Ready => true
       case Publishing(since) => since <= t.now
       case Confirmed => exists p <- t.publications :: p.token == Current(w).token && p.confirmed
       case Refused => exists p <- t.publications :: p.token == Current(w).token && !p.confirmed
  }

  lemma EndKeeps(c: Config, s: State, relay: RelayId, confirmed: bool)
    requires Inv(c, s) && Enabled(c, s, EndPublish(relay, confirmed))
    ensures Inv(c, Do(c, s, EndPublish(relay, confirmed)))
  {
    var t := Do(c, s, EndPublish(relay, confirmed));
    assert Ended(s, relay, confirmed) in t.publications;
    SameTables(c, s, t);
  }

  lemma StopKeeps(c: Config, s: State, relay: RelayId)
    requires Inv(c, s) && Enabled(c, s, Stop(relay))
    ensures Inv(c, Do(c, s, Stop(relay)))
  {
    SameTables(c, s, Do(c, s, Stop(relay)));
  }

  lemma AdvanceKeeps(c: Config, s: State, relay: RelayId)
    requires Inv(c, s) && Busy(s, relay)
    ensures Inv(c, OutboxMachine.Advance(s, relay))
  {
    SameTables(c, s, OutboxMachine.Advance(s, relay));
  }

  lemma InsertKeeps(c: Config, s: State, event: EventId, valid: bool, at: int)
    requires Inv(c, s) && Enabled(c, s, Insert(event, valid, at))
    ensures Inv(c, Do(c, s, Insert(event, valid, at)))
  {
    var t := Do(c, s, Insert(event, valid, at));
    UnknownUnclaimed(s.claims, event);
    forall r <- t.relays
      ensures WorkOk(t, t.relays[r])
    {
      assert WorkOk(s, s.relays[r]);
      forall j <- t.relays[r].jobs
        ensures JobOk(t, j)
      {
        assert JobOk(s, j);
      }
    }
    InsertKeepsLog(c, s, event, valid, at);
  }

  lemma InsertKeepsLog(c: Config, s: State, event: EventId, valid: bool, at: int)
    requires Inv(c, s) && Enabled(c, s, Insert(event, valid, at))
    ensures LogOk(c, Do(c, s, Insert(event, valid, at)))
  {
    hide RelaysOk, RetriesOk, RowsOk, ClaimsKnown;
    var t := s.(rows := s.rows[event := NewRow(valid, at)]);
    assert t == Do(c, s, Insert(event, valid, at));
    hide Do, Enabled;
    assert forall e <- s.rows :: e != event && t.rows[e] == s.rows[e];
    forall u <- t.log
      ensures EntryOk(c, t, u)
    {
      assert EntryOk(c, s, u);
    }
  }

  lemma {:induction false} UnknownUnclaimed(claims: seq<Claim>, e: EventId)
    requires forall t :: 0 <= t < |claims| ==> claims[t].event != e
    ensures ClaimCount(claims, e) == 0
  {
    if claims != [] {
      UnknownUnclaimed(claims[..|claims| - 1], e);
    }
  }

  // ---- Claims ----

  lemma ClaimOneKeeps(c: Config, s: State, relay: RelayId, selectedAt: int, p: Pick)
    requires Inv(c, s) && relay in s.relays && MayClaim(s, relay, selectedAt, p)
    ensures Inv(c, ClaimOne(c, s, relay, selectedAt, p))
  {
    ClaimedJobsOk(c, s, relay, selectedAt, p);
    hide RowsOk, RelaysOk, LogOk, RetriesOk;
    ClaimedRowsOk(c, s, relay, selectedAt, p);
    ClaimedLogOk(c, s, relay, selectedAt, p);
    ClaimedRetriesOk(c, s, relay, selectedAt, p);
    assert ClaimsKnown(ClaimOne(c, s, relay, selectedAt, p));
  }

  lemma ClaimedRowsOk(c: Config, s: State, relay: RelayId, selectedAt: int, p: Pick)
    requires RowsOk(s) && relay in s.relays && MayClaim(s, relay, selectedAt, p)
    ensures RowsOk(ClaimOne(c, s, relay, selectedAt, p))
  {
    var t := ClaimOne(c, s, relay, selectedAt, p);
    var claim := Claim(p.id, selectedAt, p.at + c.leaseDuration);
    forall e <- t.rows
      ensures t.rows[e].status == Claimed ==>
        && t.rows[e].token.Some? && Latest(t.claims, e, t.rows[e].token.value)
        && t.rows[e].leaseUntil == Some(t.claims[t.rows[e].token.value].leaseUntil)
      ensures t.rows[e].attempts == ClaimCount(t.claims, e)
    {
      ClaimCountAppend(s.claims, claim, e);
    }
  }

  lemma ClaimedLogOk(c: Config, s: State, relay: RelayId, selectedAt: int, p: Pick)
    requires LogOk(c, s) && relay in s.relays && MayClaim(s, relay, selectedAt, p)
    ensures LogOk(c, ClaimOne(c, s, relay, selectedAt, p))
  {
    var t := ClaimOne(c, s, relay, selectedAt, p);
    forall u <- t.log
      ensures EntryOk(c, t, u)
    {
      assert EntryOk(c, s, u);
    }
  }

  lemma ClaimedRetriesOk(c: Config, s: State, relay: RelayId, selectedAt: int, p: Pick)
    requires RetriesOk(c, s) && relay in s.relays && MayClaim(s, relay, selectedAt, p)
    ensures RetriesOk(c, ClaimOne(c, s, relay, selectedAt, p))
  {
    assert ClaimOne(c, s, relay, selectedAt, p).rows.Keys == s.rows.Keys;
  }

  lemma ClaimedJobsOk(c: Config, s: State, relay: RelayId, selectedAt: int, p: Pick)
    requires Inv(c, s) && relay in s.relays && MayClaim(s, relay, selectedAt, p)
    ensures RelaysOk(ClaimOne(c, s, relay, selectedAt, p))
  {
    var t := ClaimOne(c, s, relay, selectedAt, p);
    var claim := Claim(p.id, selectedAt, p.at + c.leaseDuration);
    ClaimCountAppend(s.claims, claim, p.id);
    assert t.claims[..|s.claims| + 1] == t.claims;
    var added := Job(p.id, |s.claims|, t.rows[p.id].attempts, s.rows[p.id].valid);
    assert JobOk(t, added);
    forall r <- t.relays
      ensures WorkOk(t, t.relays[r])
    {
      var w := s.relays[r];
      assert WorkOk(s, w);
      forall j <- w.jobs
        ensures JobOk(t, j)
      {
        assert JobOk(s, j);
        assert t.claims[..j.token + 1] == s.claims[..j.token + 1];
      }
      assert forall j <- t.relays[r].jobs :: j in w.jobs || j == added;
    }
  }

  lemma {:induction false} ClaimAllKeeps(c: Config, s: State, relay: RelayId, selectedAt: int, picks: seq<Pick>)
    requires Inv(c, s) && relay in s.relays && MayClaimAll(c, s, relay, selectedAt, picks)
    ensures Inv(c, ClaimAllIn(c, s, relay, selectedAt, picks))
    decreases |picks|
  {
    if picks != [] {
      ClaimOneKeeps(c, s, relay, selectedAt, picks[0]);
      ClaimAllKeeps(c, ClaimOne(c, s, relay, selectedAt, picks[0]), relay, selectedAt, picks[1..]);
    }
  }

  lemma OpenKeeps(c: Config, s: State, relay: RelayId, selectedAt: int)
    requires Inv(c, s) && relay !in s.relays
    ensures Inv(c, OpenBatch(s, relay, selectedAt))
  {
    var t := OpenBatch(s, relay, selectedAt);
    forall r <- t.relays
      ensures WorkOk(t, t.relays[r])
    {
      if r != relay {
        assert WorkOk(s, s.relays[r]);
        assert forall j <- t.relays[r].jobs :: JobOk(s, j) ==> JobOk(t, j);
      }
    }
    forall u <- t.log
      ensures EntryOk(c, t, u)
    {
      assert EntryOk(c, s, u);
    }
  }

  // ---- Fenced updates ----

  /** A fenced update rewrites one claimed row to an unclaimed one and appends its entry to the log. */
  predicate Rewrites(c: Config, s: State, t: State, u: Update, row: Row)
    requires u.event in s.rows
  {
    && t == s.(rows := s.rows[u.event := row], log := s.log + [u])
    && Fenced(s.rows, u.event, u.token)
    && row.status != Claimed && row.attempts == s.rows[u.event].attempts && row.valid == s.rows[u.event].valid
    && (row.status == Published <==> u.Marked?) && (row.status == Failed <==> u.GaveUp?)
  }

  lemma RewriteKeepsRetries(c: Config, s: State, t: State, u: Update, row: Row)
    requires RetriesOk(c, s) && u.event in s.rows && Rewrites(c, s, t, u, row)
    requires u.Retried? ==> s.rows[u.event].attempts < c.maxAttempts
    ensures RetriesOk(c, t)
  {
    forall e: EventId
      ensures e !in t.rows ==> RetryCount(t.log, e) == 0
      ensures e in t.rows ==> RetryCount(t.log, e) <= Max(0, c.maxAttempts - 1)
      ensures e in t.rows ==> RetryCount(t.log, e) <= t.rows[e].attempts - (if t.rows[e].status == Claimed then 1 else 0)
    {
      RetryCountAppend(s.log, u, e);
    }
  }

  lemma RewriteKeepsRelays(c: Config, s: State, t: State, u: Update, row: Row)
    requires RelaysOk(s) && u.event in s.rows && Rewrites(c, s, t, u, row)
    ensures RelaysOk(t)
  {
    forall r <- t.relays
      ensures WorkOk(t, t.relays[r])
    {
      assert WorkOk(s, s.relays[r]);
      forall j <- t.relays[r].jobs
        ensures JobOk(t, j)
      {
        assert JobOk(s, j);
      }
    }
  }

  lemma RewriteKeepsEntries(c: Config, s: State, t: State, u: Update, row: Row, v: Update)
    requires u.event in s.rows && Rewrites(c, s, t, u, row) && EntryOk(c, s, v)
    ensures v.event != u.event || v.Retried?
    ensures EntryOk(c, t, v)
  {
  }

  lemma RewriteKeepsRows(c: Config, s: State, t: State, u: Update, row: Row)
    requires RowsOk(s) && ClaimsKnown(s) && u.event in s.rows && Rewrites(c, s, t, u, row)
    ensures RowsOk(t) && ClaimsKnown(t)
  {
    hide Latest, ClaimCount;
  }

  lemma RewriteKeeps(c: Config, s: State, t: State, u: Update, row: Row)
    requires Inv(c, s) && u.event in s.rows && Rewrites(c, s, t, u, row)
    requires EntryOk(c, t, u)
    requires u.Retried? ==> s.rows[u.event].attempts < c.maxAttempts
    ensures Inv(c, t)
  {
    hide RowsOk, RelaysOk, RetriesOk, ClaimsKnown, Rewrites, EntryOk;
    RewriteKeepsRows(c, s, t, u, row);
    RewriteKeepsRetries(c, s, t, u, row);
    RewriteKeepsRelays(c, s, t, u, row);
    forall v <- s.log
      ensures v.event != u.event || v.Retried?
      ensures EntryOk(c, t, v)
    {
      RewriteKeepsEntries(c, s, t, u, row, v);
    }
    LogExtends(c, s, t, u, row);
  }

  lemma LogExtends(c: Config, s: State, t: State, u: Update, row: Row)
    requires LogOk(c, s) && u.event in s.rows && Rewrites(c, s, t, u, row)
    requires forall v <- s.log :: v.event != u.event || v.Retried?
    requires forall v <- s.log :: EntryOk(c, t, v)
    requires EntryOk(c, t, u)
    ensures LogOk(c, t)
  {
    assert t.log[|s.log|] == u;
    forall e <- t.rows | t.rows[e].status == Published
      ensures exists v <- t.log :: v.Marked? && v.event == e
    {
      if e != u.event {
        var v :| v in s.log && v.Marked? && v.event == e;
        assert v in t.log;
      } else {
        assert u in t.log;
      }
    }
    forall e <- t.rows | t.rows[e].status == Failed
      ensures exists v <- t.log :: v.GaveUp? && v.event == e
    {
      if e != u.event {
        var v :| v in s.log && v.GaveUp? && v.event == e;
        assert v in t.log;
      } else {
        assert u in t.log;
      }
    }
  }

  lemma RowIsLatest(s: State, e: EventId)
    requires RowsOk(s) && e in s.rows
    ensures s.rows[e].attempts == ClaimCount(s.claims, e)
    ensures s.rows[e].status == Claimed ==> s.rows[e].token.Some? && Latest(s.claims, e, s.rows[e].token.value)
  {
  }

  lemma UpdateKeeps(c: Config, s: State, relay: RelayId)
    requires Inv(c, s) && MaySettle(s, relay)
    ensures var w := s.relays[relay]; Inv(c, ApplyUpdate(c, s, Current(w), w.phase))
  {
    hide RowsOk, LogOk, RetriesOk, ClaimsKnown;
    var w := s.relays[relay];
    var job := Current(w);
    var t := ApplyUpdate(c, s, job, w.phase);
    assert WorkOk(s, w) && JobOk(s, job);
    hide RelaysOk;
    RowIsLatest(s, job.event);
    if Fenced(s.rows, job.event, job.token) {
      ClaimCountAtLatest(s.claims, job.event, job.token);
      RewriteKeeps(c, s, t, t.log[|s.log|], t.rows[job.event]);
    }
  }

  // ---- Every run ----

  lemma StepKeeps(c: Config, s: State, step: Step)
    requires Inv(c, s) && Enabled(c, s, step)
    ensures Inv(c, Do(c, s, step))
  {
    match step
    case Insert(event, valid, at) => InsertKeeps(c, s, event, valid, at);
    case ClaimBatch(relay, selectedAt, picks) =>
      OpenKeeps(c, s, relay, selectedAt);
      ClaimAllKeeps(c, OpenBatch(s, relay, selectedAt), relay, selectedAt, picks);
    case BeginPublish(relay) => BeginKeeps(c, s, relay);
    case EndPublish(relay, confirmed) => EndKeeps(c, s, relay, confirmed);
    case Settle(relay, reaches) =>
      var w := s.relays[relay];
      if reaches {
        UpdateKeeps(c, s, relay);
        AdvanceKeeps(c, ApplyUpdate(c, s, Current(w), w.phase), relay);
      } else {
        AdvanceKeeps(c, s, relay);
      }
    case Stop(relay) => StopKeeps(c, s, relay);
    case Tick(ms) => TickKeeps(c, s, ms);
  }

  lemma {:induction false} RunKeeps(c: Config, s: State, steps: seq<Step>)
    requires Inv(c, s) && Runs(c, s, steps)
    ensures Inv(c, After(c, s, steps))
    decreases |steps|
  {
    if steps != [] {
      StepKeeps(c, s, steps[0]);
      RunKeeps(c, Do(c, s, steps[0]), steps[1..]);
    }
  }

  // ---- The machine takes the steps of the relay and the table ----

  /** A claim step leaves exactly the rows of one claim transaction. */
  lemma {:induction false} ClaimStepIsTransaction(c: Config, s: State, relay: RelayId, selectedAt: int, picks: seq<Pick>)
    requires relay in s.relays && MayClaimAll(c, s, relay, selectedAt, picks)
    ensures (forall p <- picks :: p.id in s.rows)
         && ClaimAllIn(c, s, relay, selectedAt, picks).rows == ClaimAll(s.rows, relay, picks, |s.claims|, c.leaseDuration)
    decreases |picks|
  {
    if picks != [] {
      var once := ClaimOne(c, s, relay, selectedAt, picks[0]);
      ClaimStepIsTransaction(c, once, relay, selectedAt, picks[1..]);
      assert forall p <- picks :: p == picks[0] || p in picks[1..];
      ClaimAllFirst(s.rows, relay, picks, |s.claims|, c.leaseDuration);
    }
  }

  lemma {:induction false} OutOfReach(c: Config, s: State, relay: RelayId, selectedAt: int, picks: seq<Pick>, id: EventId)
    requires relay in s.relays && MayClaimAll(c, s, relay, selectedAt, picks)
    requires id in s.rows && !Eligible(s.rows[id], selectedAt)
    ensures forall p <- picks :: p.id != id
    decreases |picks|
  {
    hide Eligible;
    if picks != [] {
      OutOfReach(c, ClaimOne(c, s, relay, selectedAt, picks[0]), relay, selectedAt, picks[1..], id);
      assert forall p <- picks :: p == picks[0] || p in picks[1..];
    }
  }

  /** A transaction claims no row twice: what it has claimed is leased beyond the time of its selection. */
  lemma {:induction false} PicksAreDistinct(c: Config, s: State, relay: RelayId, selectedAt: int, picks: seq<Pick>)
    requires ValidConfig(c) && relay in s.relays && MayClaimAll(c, s, relay, selectedAt, picks)
    ensures DistinctPicks(picks)
    decreases |picks|
  {
    if picks != [] {
      var once := ClaimOne(c, s, relay, selectedAt, picks[0]);
      assert !Eligible(once.rows[picks[0].id], selectedAt);
      hide ClaimOne, Eligible, ValidConfig;
      PicksAreDistinct(c, once, relay, selectedAt, picks[1..]);
      OutOfReach(c, once, relay, selectedAt, picks[1..], picks[0].id);
      assert forall j :: 0 < j < |picks| ==> picks[j] == picks[1..][j - 1];
    }
  }

  function JobOf(r: OutboxTable.Record): Job {
    Job(r.id, r.token, r.attempt, r.valid)
  }

  function JobsOf(records: seq<OutboxTable.Record>): (jobs: seq<Job>)
    ensures |jobs| == |records| && forall i :: 0 <= i < |records| ==> jobs[i] == JobOf(records[i])
  {
    seq(|records|, i requires 0 <= i < |records| => JobOf(records[i]))
  }

  lemma JobsFirst(records: seq<OutboxTable.Record>)
    requires records != []
    ensures JobsOf(records) == [JobOf(records[0])] + JobsOf(records[1..])
  {
  }

  /** The jobs a claim step gives a relay are the records the claim transaction hands out. */
  lemma {:induction false} JobsAreRecords(c: Config, s: State, relay: RelayId, selectedAt: int, picks: seq<Pick>, records: seq<OutboxTable.Record>)
    requires relay in s.relays && MayClaimAll(c, s, relay, selectedAt, picks) && DistinctPicks(picks)
    requires OutboxTable.HandedOut(records, s.rows, picks, |s.claims|)
    ensures var t := ClaimAllIn(c, s, relay, selectedAt, picks);
      relay in t.relays && t.relays[relay].jobs == s.relays[relay].jobs + JobsOf(records)
    decreases |picks|
  {
    assert |records| == |picks|;
    hide ClaimOne, OutboxTable.HandedOut, MayClaim, DistinctPicks, JobOf;
    var before := s.relays[relay].jobs;
    if picks == [] {
      assert JobsOf(records) == [] && before + [] == before;
    } else {
      var once := ClaimOne(c, s, relay, selectedAt, picks[0]);
      RestHandedOut(c, s, relay, selectedAt, picks, records);
      JobsFirst(records);
      JobsAreRecords(c, once, relay, selectedAt, picks[1..], records[1..]);
      AppendTwice(before, [JobOf(records[0])], JobsOf(records[1..]));
    }
  }

  lemma AppendTwice(a: seq<Job>, b: seq<Job>, c: seq<Job>)
    ensures a + b + c == a + (b + c)
  {
  }

  lemma RestHandedOut(c: Config, s: State, relay: RelayId, selectedAt: int, picks: seq<Pick>, records: seq<OutboxTable.Record>)
    requires relay in s.relays && picks != [] && MayClaim(s, relay, selectedAt, picks[0]) && DistinctPicks(picks)
    requires OutboxTable.HandedOut(records, s.rows, picks, |s.claims|)
    ensures |records| == |picks|
    ensures var once := ClaimOne(c, s, relay, selectedAt, picks[0]);
      && OutboxTable.HandedOut(records[1..], once.rows, picks[1..], |once.claims|) && DistinctPicks(picks[1..])
      && relay in once.relays && once.relays[relay].jobs == s.relays[relay].jobs + [JobOf(records[0])]
  {
  }

  /** The relay's claim of one eligible row. */
  function ClaimedAlone(c: Config, s: State, relay: RelayId, e: EventId): State
    requires e in s.rows
  {
    var row := ClaimRow(s.rows[e], relay, |s.claims|, s.now + c.leaseDuration);
    s.(rows := s.rows[e := row],
       claims := s.claims + [Claim(e, s.now, s.now + c.leaseDuration)],
       relays := s.relays[relay := Work([Job(e, |s.claims|, row.attempts, row.valid)], 0, Ready, s.now, 0, 0)])
  }

  lemma ClaimAlone(c: Config, s: State, relay: RelayId, e: EventId)
    requires ValidConfig(c) && relay !in s.relays && e in s.rows && Eligible(s.rows[e], s.now)
    ensures var claim := ClaimBatch(relay, s.now, [Pick(e, s.now)]);
      Enabled(c, s, claim) && Do(c, s, claim) == ClaimedAlone(c, s, relay, e)
  {
    var picks, p := [Pick(e, s.now)], Pick(e, s.now);
    var open := OpenBatch(s, relay, s.now);
    var once := ClaimOne(c, open, relay, s.now, p);
    assert picks[0] == p && picks[1..] == [];
    assert MayClaimAll(c, once, relay, s.now, []) && ClaimAllIn(c, once, relay, s.now, []) == once;
    var alone := ClaimedAlone(c, s, relay, e);
    assert once.relays[relay].jobs == alone.relays[relay].jobs;
    assert once.relays[relay] == alone.relays[relay];
    assert once.relays == alone.relays;
  }

  /** Nothing is stuck: an idle relay can claim an eligible row, and if the broker then confirms its publication the row is PUBLISHED. */
  lemma EligibleIsPublished(c: Config, s: State, relay: RelayId, e: EventId)
    requires ValidConfig(c) && relay !in s.relays && e in s.rows && Eligible(s.rows[e], s.now) && s.rows[e].valid
    ensures var claim := ClaimBatch(relay, s.now, [Pick(e, s.now)]);
      && Enabled(c, s, claim)
      && var t := Do(c, s, claim);
         && Enabled(c, t, BeginPublish(relay))
         && var u := Do(c, t, BeginPublish(relay));
            && Enabled(c, u, EndPublish(relay, true))
            && var v := Do(c, u, EndPublish(relay, true));
               && Enabled(c, v, Settle(relay, true))
               && var w := Do(c, v, Settle(relay, true));
                  && e in w.rows && w.rows == s.rows[e := w.rows[e]] && relay !in w.relays
                  && w.rows[e].status == Published && w.rows[e].attempts == s.rows[e].attempts + 1
                  && w.log == s.log + [Marked(e, |s.claims|)]
  {
    ClaimAlone(c, s, relay, e);
    hide ClaimAllIn, MayClaimAll, Eligible, ValidConfig;
    var t := ClaimedAlone(c, s, relay, e);
    assert Current(t.relays[relay]) == Job(e, |s.claims|, s.rows[e].attempts + 1, true);
    var u := Do(c, t, BeginPublish(relay));
    var v := Do(c, u, EndPublish(relay, true));
    assert v.rows == t.rows && v.log == s.log && Fenced(v.rows, e, |s.claims|);
  }

  /** A settling step leaves exactly the rows that processing the record leaves. */
  lemma SettleStepIsProcess(c: Config, s: State, relay: RelayId)
    requires MaySettle(s, relay) && RelaysOk(s)
    ensures var w := s.relays[relay];
      var job := Current(w);
      ApplyUpdate(c, s, job, w.phase).rows
        == OutboxRelay.Processed(c, s.rows, OutboxTable.Record(job.event, job.valid, job.token, job.attempt),
                                 OutboxRelay.Answer(w.phase == Confirmed, "", true, s.now))
  {
    assert WorkOk(s, s.relays[relay]);
  }

  lemma InitialOk(c: Config, now: int)
    ensures Inv(c, Initial(now))
  {
  }

  /** Every state any run can reach. */
  ghost predicate Reachable(c: Config, s: State) {
    exists now: int, steps: seq<Step> :: Runs(c, Initial(now), steps) && After(c, Initial(now), steps) == s
  }

  lemma ReachableOk(c: Config, s: State)
    requires Reachable(c, s)
    ensures Inv(c, s)
  {
    var now: int, steps: seq<Step> :| Runs(c, Initial(now), steps) && After(c, Initial(now), steps) == s;
    InitialOk(c, now);
    RunKeeps(c, Initial(now), steps);
  }

  /** The fence: an update gets through exactly when the row is claimed and the token is that of its most recent claim. */
  lemma FenceIsLatestClaim(c: Config, s: State, e: EventId, t: Token)
    requires Reachable(c, s) && e in s.rows
    ensures Fenced(s.rows, e, t) <==> s.rows[e].status == Claimed && Latest(s.claims, e, t)
  {
    ReachableOk(c, s);
  }

  /** A token of an overtaken claim, or of a row no longer claimed, changes nothing and reports false. */
  lemma StaleTokenIsPowerless(c: Config, s: State, e: EventId, t: Token, now: int, delay: int, cause: string)
    requires Reachable(c, s)
    requires e !in s.rows || s.rows[e].status != Claimed || !Latest(s.claims, e, t)
    ensures Publish(s.rows, e, t, now) == (s.rows, false)
    ensures Retry(s.rows, e, t, now, delay, cause) == (s.rows, false)
    ensures Fail(s.rows, e, t, cause) == (s.rows, false)
  {
    ReachableOk(c, s);
  }

  lemma {:induction false} ClaimAllOnlyPicks(c: Config, s: State, relay: RelayId, selectedAt: int, picks: seq<Pick>, e: EventId)
    requires relay in s.relays && MayClaimAll(c, s, relay, selectedAt, picks) && e in s.rows
    ensures var t := ClaimAllIn(c, s, relay, selectedAt, picks);
      e in t.rows && (t.rows[e] == s.rows[e] || Eligible(s.rows[e], selectedAt))
    decreases |picks|
  {
    if picks != [] {
      ClaimAllOnlyPicks(c, ClaimOne(c, s, relay, selectedAt, picks[0]), relay, selectedAt, picks[1..], e);
    }
  }

  /**
   What may happen to a stored row in one step: an eligible row is claimed, or the relay holding the
   row's most recent claim settles it. PUBLISHED and FAILED rows are neither, so they never change again.
   */
  lemma RowChanges(c: Config, s: State, step: Step, e: EventId)
    requires Inv(c, s) && Enabled(c, s, step) && e in s.rows
    ensures var t := Do(c, s, step);
      && e in t.rows
      && (t.rows[e] != s.rows[e] ==>
           || (step.ClaimBatch? && Eligible(s.rows[e], step.selectedAt))
           || (step.Settle? && step.reaches && s.rows[e].status == Claimed
               && Current(s.relays[step.relay]).event == e
               && Latest(s.claims, e, Current(s.relays[step.relay]).token)))
  {
    hide LogOk, RelaysOk, RetriesOk, ClaimsKnown, ClaimAllIn, MayClaimAll, Eligible, ApplyUpdate;
    match step
    case ClaimBatch(relay, selectedAt, picks) =>
      ClaimAllOnlyPicks(c, OpenBatch(s, relay, selectedAt), relay, selectedAt, picks, e);
    case Settle(relay, reaches) =>
      SettleChanges(c, s, relay, e);
    case _ =>
  }

  lemma SettleChanges(c: Config, s: State, relay: RelayId, e: EventId)
    requires Inv(c, s) && MaySettle(s, relay) && e in s.rows
    ensures var w := s.relays[relay];
      var t := ApplyUpdate(c, s, Current(w), w.phase);
      && t.relays == s.relays && t.claims == s.claims && t.publications == s.publications && t.now == s.now
      && t.rows.Keys == s.rows.Keys
      && (t.rows[e] != s.rows[e] ==>
            s.rows[e].status == Claimed && Current(w).event == e && Latest(s.claims, e, Current(w).token))
  {
    hide LogOk, RelaysOk, RetriesOk, ClaimsKnown;
  }

  lemma {:induction false} TerminalForever(c: Config, s: State, steps: seq<Step>, e: EventId)
    requires Inv(c, s) && Runs(c, s, steps)
    requires e in s.rows && (s.rows[e].status == Published || s.rows[e].status == Failed)
    ensures e in After(c, s, steps).rows && After(c, s, steps).rows[e] == s.rows[e]
    decreases |steps|
  {
    if steps != [] {
      RowChanges(c, s, steps[0], e);
      StepKeeps(c, s, steps[0]);
      TerminalForever(c, Do(c, s, steps[0]), steps[1..], e);
    }
  }

  /** A PUBLISHED row was marked under one token only, and the broker confirmed a publication made under that very token. */
  lemma PublishedMeansConfirmed(c: Config, s: State, e: EventId)
    requires Reachable(c, s) && e in s.rows
    ensures s.rows[e].status == Published <==> exists u <- s.log :: u.Marked? && u.event == e
    ensures forall i, j ::
      (0 <= i < |s.log| && 0 <= j < |s.log| && s.log[i].event == s.log[j].event == e && s.log[i].Marked? && !s.log[j].Retried?)
      ==> i == j
    ensures forall u <- s.log | u.Marked? && u.event == e ::
      && u.token < |s.claims| && s.claims[u.token].event == e
      && exists p <- s.publications :: p.token == u.token && p.confirmed
  {
    ReachableOk(c, s);
    forall u <- s.log | u.Marked? && u.event == e
      ensures s.rows[e].status == Published && u.token < |s.claims| && s.claims[u.token].event == e
      ensures exists p <- s.publications :: p.token == u.token && p.confirmed
    {
      assert EntryOk(c, s, u);
    }
  }

  /**
   FAILED has two causes only: an undecodable payload, or a refused publication of the row's last claim with
   attempt_count, as the row still shows it, at the maximum or above.
   */
  lemma FailedOnlyWhen(c: Config, s: State, e: EventId)
    requires Reachable(c, s) && e in s.rows && s.rows[e].status == Failed && s.rows[e].valid
    ensures s.rows[e].attempts >= c.maxAttempts
    ensures exists u <- s.log :: u.GaveUp? && u.event == e && u.attempt == s.rows[e].attempts
              && exists p <- s.publications :: p.token == u.token && !p.confirmed
  {
    ReachableOk(c, s);
    var u :| u in s.log && u.GaveUp? && u.event == e;
    assert EntryOk(c, s, u);
  }

  /** attempt_count is the number of committed claims, crashed and abandoned ones included. */
  lemma AttemptsCountClaims(c: Config, s: State, e: EventId)
    requires Reachable(c, s) && e in s.rows
    ensures s.rows[e].attempts == ClaimCount(s.claims, e)
  {
    ReachableOk(c, s);
  }

  /** Retries are bounded even though claims are not. */
  lemma RetriesBounded(c: Config, s: State, e: EventId)
    requires Reachable(c, s) && ValidConfig(c)
    ensures RetryCount(s.log, e) <= c.maxAttempts - 1
  {
    ReachableOk(c, s);
  }

  /** attempt_count itself has no bound: each claim left behind by a crash is claimed again once its lease expires. */
  lemma {:induction false} AttemptsUnbounded(c: Config, n: nat)
    requires ValidConfig(c)
    ensures exists s: State :: Reachable(c, s) && 0 in s.rows && s.rows[0].attempts == n
  {
    var steps := CrashLoop(c, n);
    CrashLoopRuns(c, n);
    var s := After(c, Initial(0), steps);
    assert Reachable(c, s);
  }

  function CrashLoop(c: Config, n: nat): seq<Step> {
    if n == 0 then [Insert(0, true, 0)]
    else CrashLoop(c, n - 1) + CrashOnce(c, n - 1)
  }

  function CrashOnce(c: Config, k: nat): seq<Step> {
    var at := k * Max(0, c.leaseDuration);
    [ClaimBatch(0, at, [Pick(0, at)]), Stop(0), Tick(Max(0, c.leaseDuration))]
  }

  lemma {:induction false} RunsAppend(c: Config, s: State, a: seq<Step>, b: seq<Step>)
    requires Runs(c, s, a) && Runs(c, After(c, s, a), b)
    ensures Runs(c, s, a + b) && After(c, s, a + b) == After(c, After(c, s, a), b)
    decreases |a|
  {
    if a == [] {
      assert a + b == b;
    } else {
      RunsAppend(c, Do(c, s, a[0]), a[1..], b);
      assert (a + b)[1..] == a[1..] + b;
    }
  }

  predicate Abandoned(c: Config, s: State, n: nat) {
    && s.now == n * c.leaseDuration && s.relays == map[] && 0 in s.rows && s.rows[0].attempts == n
    && Eligible(s.rows[0], s.now)
  }

  lemma CrashOnceRuns(c: Config, s: State, k: nat)
    requires ValidConfig(c) && Abandoned(c, s, k)
    ensures Runs(c, s, CrashOnce(c, k)) && Abandoned(c, After(c, s, CrashOnce(c, k)), k + 1)
  {
    var at := s.now;
    var steps := CrashOnce(c, k);
    var pick := Pick(0, at);
    var open := OpenBatch(s, 0, at);
    var claimed := ClaimOne(c, open, 0, at, pick);
    assert [pick][1..] == [];
    assert MayClaimAll(c, claimed, 0, at, []);
    assert MayClaimAll(c, open, 0, at, [pick]);
    assert ClaimAllIn(c, claimed, 0, at, []) == claimed;
    assert ClaimAllIn(c, open, 0, at, [pick]) == claimed;
    assert Do(c, s, steps[0]) == claimed;
    var stopped := Do(c, claimed, Stop(0));
    assert stopped.relays == map[];
    var later := Do(c, stopped, Tick(c.leaseDuration));
    assert later.relays == map[];
    assert steps[1..] == [Stop(0), Tick(c.leaseDuration)];
    assert steps[1..][1..] == [Tick(c.leaseDuration)];
    assert steps[1..][1..][1..] == [];
    assert Runs(c, later, []);
    assert Runs(c, stopped, [Tick(c.leaseDuration)]);
    assert Runs(c, claimed, steps[1..]);
    assert After(c, stopped, [Tick(c.leaseDuration)]) == After(c, later, []) == later;
    assert After(c, claimed, steps[1..]) == later;
    assert (k + 1) * c.leaseDuration == at + c.leaseDuration;
  }

  lemma {:induction false} CrashLoopRuns(c: Config, n: nat)
    requires ValidConfig(c)
    ensures Runs(c, Initial(0), CrashLoop(c, n)) && Abandoned(c, After(c, Initial(0), CrashLoop(c, n)), n)
  {
    if n == 0 {
      var s := Do(c, Initial(0), Insert(0, true, 0));
      assert CrashLoop(c, 0)[1..] == [];
      assert Runs(c, s, []) && After(c, s, []) == s;
    } else {
      CrashLoopRuns(c, n - 1);
      var s := After(c, Initial(0), CrashLoop(c, n - 1));
      CrashOnceRuns(c, s, n - 1);
      RunsAppend(c, Initial(0), CrashLoop(c, n - 1), CrashOnce(c, n - 1));
    }
  }
}
