/** The Outbox configuration check and the relay that drains the table. */
module OutboxConfig {
  import opened Prelude

  /** Durations in microseconds, unbounded. */
  datatype Config = Config(pollInterval: int, batchSize: int, leaseDuration: int, maxAttempts: int,
                           publishTimeout: int, retryBaseDelay: int, retryMaxDelay: int)

  datatype ConfigError = DurationsNotPositive | SizesNotPositive | BaseExceedsMax | LeaseTooShort(minimum: int)

  function Validate(c: Config): Option<ConfigError> {
    if c.pollInterval <= 0 || c.leaseDuration <= 0 || c.publishTimeout <= 0 || c.retryBaseDelay <= 0 || c.retryMaxDelay <= 0
    then Some(DurationsNotPositive)
    else if c.batchSize <= 0 || c.maxAttempts <= 0 then Some(SizesNotPositive)
    else if c.retryBaseDelay > c.retryMaxDelay then Some(BaseExceedsMax)
    else
      var minimumLease := (c.batchSize + 1) * c.publishTimeout;
      if c.leaseDuration < minimumLease then Some(LeaseTooShort(minimumLease)) else None
  }

  predicate ValidConfig(c: Config) {
    Validate(c) == None
  }

  function Power2(n: nat): nat {
    if n == 0 then 1 else 2 * Power2(n - 1)
  }

  /** Exponential backoff capped at the maximum delay; attempts are numbered from one. */
  function Backoff(c: Config, attempt: nat): int {
    Min(c.retryMaxDelay, c.retryBaseDelay * Power2(Max(0, attempt - 1)))
  }

  /** The first attempt waits the base delay; every further attempt doubles the wait, up to the maximum. */
  lemma BackoffDoubles(c: Config, attempt: nat)
    requires ValidConfig(c)
    ensures Backoff(c, 1) == c.retryBaseDelay
    ensures attempt >= 1 ==> Backoff(c, attempt + 1) == Min(c.retryMaxDelay, 2 * Backoff(c, attempt))
  {
    if attempt >= 1 {
      assert Power2(attempt) == 2 * Power2(attempt - 1);
      assert c.retryBaseDelay * Power2(attempt) == 2 * (c.retryBaseDelay * Power2(attempt - 1));
    }
  }

  /** What a configuration must satisfy, and which demand is named first when it does not. */
  lemma ValidExactly(c: Config)
    ensures ValidConfig(c) <==>
      && c.pollInterval > 0 && c.leaseDuration > 0 && c.publishTimeout > 0 && c.batchSize > 0 && c.maxAttempts > 0
      && 0 < c.retryBaseDelay <= c.retryMaxDelay && c.batchSize * c.publishTimeout + c.publishTimeout <= c.leaseDuration
    ensures Validate(c) == Some(DurationsNotPositive) <==>
      c.pollInterval <= 0 || c.leaseDuration <= 0 || c.publishTimeout <= 0 || c.retryBaseDelay <= 0 || c.retryMaxDelay <= 0
    ensures Validate(c) == Some(SizesNotPositive) ==> c.batchSize <= 0 || c.maxAttempts <= 0
    ensures Validate(c) == Some(BaseExceedsMax) ==> c.retryBaseDelay > c.retryMaxDelay
    ensures Validate(c).Some? && Validate(c).value.LeaseTooShort? ==>
      c.leaseDuration < Validate(c).value.minimum == c.batchSize * c.publishTimeout + c.publishTimeout
  {
    assert (c.batchSize + 1) * c.publishTimeout == c.batchSize * c.publishTimeout + c.publishTimeout;
  }

  lemma {:induction false} Power2Grows(m: nat, n: nat)
    requires m <= n
    ensures 1 <= Power2(m) <= Power2(n)
    decreases n
  {
    if m < n {
      Power2Grows(m, n - 1);
    } else if n > 0 {
      Power2Grows(n - 1, n - 1);
    }
  }

  /** Waiting never gets shorter from one attempt to the next, and never leaves the configured range. */
  lemma BackoffMonotone(c: Config, a: nat, b: nat)
    requires ValidConfig(c) && a <= b
    ensures c.retryBaseDelay <= Backoff(c, a) <= Backoff(c, b) <= c.retryMaxDelay
  {
    Power2Grows(Max(0, a - 1), Max(0, b - 1));
    MulGrows(c.retryBaseDelay, 1, Power2(Max(0, a - 1)));
    MulGrows(c.retryBaseDelay, Power2(Max(0, a - 1)), Power2(Max(0, b - 1)));
  }

  lemma MulGrows(k: int, a: int, b: int)
    requires 0 <= k && a <= b
    ensures k * a <= k * b
  {
  }
}

module OutboxRelay {
  import opened Prelude
  import opened OutboxRows
  import opened OutboxTable
  import opened OutboxConfig

  /** What the environment answers while one record is processed: the publish outcome, and whether the update reached the database. */
  datatype Answer = Answer(confirmed: bool, cause: string, reaches: bool, now: int)

  /** The row update that follows one record, given the publish outcome. */
  function Processed(c: Config, rows: Table, record: Record, a: Answer): Table {
    if !a.reaches then rows
    else if !record.valid then Fail(rows, record.id, record.token, UNDECODABLE).0
    else if a.confirmed then Publish(rows, record.id, record.token, a.now).0
    else if record.attempt >= c.maxAttempts then Fail(rows, record.id, record.token, a.cause).0
    else Retry(rows, record.id, record.token, a.now, Backoff(c, record.attempt), a.cause).0
  }

  /** The rows after the first n records of a batch. */
  function Drained(c: Config, rows: Table, records: seq<Record>, answers: seq<Answer>, n: nat): Table
    requires |records| == |answers| && n <= |records|
  {
    if n == 0 then rows else Processed(c, Drained(c, rows, records, answers, n - 1), records[n - 1], answers[n - 1])
  }

  predicate HasRow(rows: Table, record: Record) {
    record.id in rows
  }

  /** The row is still claimed under the record's token. */
  predicate HoldsClaim(rows: Table, record: Record) {
    record.id in rows && rows[record.id].status == Claimed && rows[record.id].token == Some(record.token)
  }

  /** What becomes of the row of a record that was worked on: each outcome of the publication has its own status. */
  predicate Settles(c: Config, was: Row, row: Row, record: Record, a: Answer) {
    && row.owner == None && row.token == None && row.leaseUntil == None && row.attempts == was.attempts
    && (!record.valid ==> row.status == Failed && row.lastError == Some(UNDECODABLE))
    && (record.valid && a.confirmed ==> row.status == Published && row.publishedAt == Some(a.now))
    && (record.valid && !a.confirmed && record.attempt >= c.maxAttempts ==> row.status == Failed && row.lastError == Some(a.cause))
    && (record.valid && !a.confirmed && record.attempt < c.maxAttempts ==>
          row.status == Pending && row.lastError == Some(a.cause) && row.availableAt == a.now + Backoff(c, record.attempt))
  }

  predicate DistinctRecords(records: seq<Record>) {
    forall i, j :: 0 <= i < j < |records| ==> records[i].id != records[j].id
  }

  lemma {:induction false} DrainedElsewhere(c: Config, rows: Table, records: seq<Record>, answers: seq<Answer>, n: nat, id: EventId)
    requires |records| == |answers| && n <= |records|
    requires forall j :: 0 <= j < n ==> records[j].id != id
    ensures id in Drained(c, rows, records, answers, n) <==> id in rows
    ensures id in rows ==> Drained(c, rows, records, answers, n)[id] == rows[id]
  {
    hide Backoff;
    if n > 0 {
      DrainedElsewhere(c, rows, records, answers, n - 1, id);
    }
  }

  /** Working through a batch settles each record's row once, by its own answer, whatever the others bring. */
  lemma {:induction false} DrainedEach(c: Config, rows: Table, records: seq<Record>, answers: seq<Answer>, n: nat, i: nat)
    requires |records| == |answers| && i < n <= |records| && DistinctRecords(records)
    requires HoldsClaim(rows, records[i])
    ensures var after := Drained(c, rows, records, answers, n);
      && HasRow(after, records[i])
      && if answers[i].reaches then Settles(c, rows[records[i].id], after[records[i].id], records[i], answers[i])
         else after[records[i].id] == rows[records[i].id]
  {
    hide Backoff;
    if i == n - 1 {
      DrainedElsewhere(c, rows, records, answers, i, records[i].id);
    } else {
      DrainedEach(c, rows, records, answers, n - 1, i);
    }
  }

  /** What one batch makes of a claimed row: settled by its answer, or still under its claim when the update never ran. */
  predicate Worked(c: Config, was: Row, row: Row, p: Pick, owner: RelayId, token: Token, answer: Option<Answer>) {
    && row.attempts == was.attempts + 1
    && if answer == None || !answer.value.reaches
       then row.status == Claimed && row.owner == Some(owner) && row.token == Some(token) && row.leaseUntil == Some(p.at + c.leaseDuration)
       else
         var a := answer.value;
         && row.owner == None && row.token == None && row.leaseUntil == None
         && (row.status == Published <==> was.valid && a.confirmed)
         && (row.status == Pending <==> was.valid && !a.confirmed && was.attempts + 1 < c.maxAttempts)
         && (row.status == Failed <==> !was.valid || (!a.confirmed && was.attempts + 1 >= c.maxAttempts))
         && (row.status == Published ==> row.publishedAt == Some(a.now))
         && (row.status == Pending ==> row.availableAt == a.now + Backoff(c, was.attempts + 1))
         && (row.status != Published ==> row.lastError == Some(if was.valid then a.cause else UNDECODABLE))
  }

  lemma BatchWorks(c: Config, before: Table, claimed: Table, records: seq<Record>, owner: RelayId, picks: seq<Pick>, token: Token,
                   answers: seq<Answer>, n: nat, i: nat)
    requires |answers| == |records| == |picks| && i < |picks| && n <= |picks| && DistinctPicks(picks) && picks[i].id in before && picks[i].id in claimed
    requires forall j :: 0 <= j < |picks| ==> records[j].id == picks[j].id
    requires Agree(before[picks[i].id], claimed[picks[i].id], records[i], picks[i], owner, token + i, c.leaseDuration)
    ensures picks[i].id in Drained(c, claimed, records, answers, n)
    ensures Worked(c, before[picks[i].id], Drained(c, claimed, records, answers, n)[picks[i].id], picks[i], owner, token + i,
                   if i < n then Some(answers[i]) else None)
  {
    hide Backoff, Drained;
    if i < n {
      DrainedEach(c, claimed, records, answers, n, i);
    } else {
      DrainedElsewhere(c, claimed, records, answers, n, picks[i].id);
    }
  }

  lemma RecordsAre(before: Table, claimed: Table, records: seq<Record>, owner: RelayId, picks: seq<Pick>, token: Token, lease: int)
    requires |records| == |picks| && claimed.Keys == before.Keys && forall p <- picks :: p.id in before
    requires forall i :: 0 <= i < |picks| ==> picks[i].id in before && Agree(before[picks[i].id], claimed[picks[i].id], records[i], picks[i], owner, token + i, lease)
    ensures forall j :: 0 <= j < |picks| ==> records[j].id == picks[j].id
  {
  }

  class Relay {
    const config: Config
    const table: OutboxTable

    constructor (config: Config, table: OutboxTable)
      requires ValidConfig(config)
      ensures this.config == config && this.table == table
    {
      this.config, this.table := config, table;
    }

    /** The doubling loop with early exits computes the capped power of two. */
    method RetryDelay(attempt: nat) returns (delay: int)
      requires ValidConfig(config)
      ensures delay == Backoff(config, attempt)
    {
      delay := config.retryBaseDelay;
      var current: nat := 1;
      while current < attempt && delay < config.retryMaxDelay
        invariant 1 <= current <= Max(1, attempt)
        invariant delay == config.retryBaseDelay * Power2(current - 1) <= config.retryMaxDelay
      {
        delay := delay * 2;
        assert delay == config.retryBaseDelay * Power2(current);
        if delay > config.retryMaxDelay {
          Power2Grows(current, attempt - 1);
          MulGrows(config.retryBaseDelay, Power2(current), Power2(attempt - 1));
          return config.retryMaxDelay;
        }
        current := current + 1;
      }
      Power2Grows(current - 1, Max(0, attempt - 1));
      MulGrows(config.retryBaseDelay, Power2(current - 1), Power2(Max(0, attempt - 1)));
    }

    method MarkFailed(record: Record, cause: string, a: Answer)
      modifies table`rows
      ensures table.rows == if a.reaches then Fail(old(table.rows), record.id, record.token, cause).0 else old(table.rows)
    {
      if a.reaches {
        var _ := table.MarkFailed(record.id, record.token, cause, a.now);
      }
    }

    /** An update whose database call fails is only logged: the relay moves on and the claim is left to expire. */
    method Process(record: Record, a: Answer)
      requires ValidConfig(config)
      modifies table`rows
      ensures table.rows == Processed(config, old(table.rows), record, a)
      ensures !a.reaches || !HoldsClaim(old(table.rows), record) ==> table.rows == old(table.rows)
      ensures a.reaches && HoldsClaim(old(table.rows), record) ==>
                HasRow(table.rows, record) && Settles(config, old(table.rows)[record.id], table.rows[record.id], record, a)
                && table.rows == old(table.rows)[record.id := table.rows[record.id]]
    {
      if !record.valid {
        MarkFailed(record, UNDECODABLE, a);
        return;
      }
      if a.confirmed {
        if a.reaches {
          var _ := table.MarkPublished(record.id, record.token, a.now);
        }
        return;
      }
      if record.attempt >= config.maxAttempts {
        MarkFailed(record, a.cause, a);
        return;
      }
      var delay := RetryDelay(record.attempt);
      if a.reaches {
        var _ := table.ScheduleRetry(record.id, record.token, delay, a.cause, a.now);
      }
    }

    /** The loop of a batch: record after record, until the relay is told to stop. */
    method WorkThrough(records: seq<Record>, answers: seq<Answer>, stopAfter: nat)
      requires ValidConfig(config) && |answers| == |records|
      modifies table`rows
      ensures table.rows == Drained(config, old(table.rows), records, answers, Min(stopAfter, |records|))
    {
      hide Processed, ValidConfig;
      var i := 0;
      while i < |records| && i < stopAfter
        invariant 0 <= i <= Min(stopAfter, |records|)
        invariant table.rows == Drained(config, old(table.rows), records, answers, i)
      {
        Process(records[i], answers[i]);
        i := i + 1;
      }
    }

    /** Claims a batch and works through it in order. */
    method ProcessBatch(owner: RelayId, picks: seq<Pick>, broken: Option<nat>, answers: seq<Answer>, stopAfter: nat)
      requires ValidConfig(config) && DistinctPicks(picks) && |answers| == |picks|
      requires forall p <- picks :: p.id in table.rows
      modifies table
      ensures broken.Some? && broken.value < |picks| ==> table.rows == old(table.rows)
      ensures !(broken.Some? && broken.value < |picks|) ==>
        exists records: seq<Record> ::
          && HandedOut(records, old(table.rows), picks, old(table.nextToken)) && |records| == |answers|
          && table.rows == Drained(config, ClaimAll(old(table.rows), owner, picks, old(table.nextToken), config.leaseDuration),
                                   records, answers, Min(stopAfter, |picks|))
      ensures !(broken.Some? && broken.value < |picks|) ==>
        forall i :: 0 <= i < |picks| ==>
          && picks[i].id in table.rows
          && Worked(config, old(table.rows)[picks[i].id], table.rows[picks[i].id], picks[i], owner, old(table.nextToken) + i,
                    if i < stopAfter then Some(answers[i]) else None)
      ensures forall id <- old(table.rows) :: (forall p <- picks :: p.id != id) ==> id in table.rows && table.rows[id] == old(table.rows)[id]
    {
      hide Drained, ClaimAll, ValidConfig, HandedOut, Agree, Worked, DistinctPicks;
      ghost var before := table.rows;
      var claimed := table.ClaimBatch(owner, picks, config.leaseDuration, broken);
      if claimed.Err? {
        return;
      }
      ghost var middle := table.rows;
      ghost var n := Min(stopAfter, |picks|);
      var records := claimed.value;
      WorkThrough(records, answers, stopAfter);
      forall i | 0 <= i < |picks|
        ensures picks[i].id in table.rows
        ensures Worked(config, before[picks[i].id], table.rows[picks[i].id], picks[i], owner, old(table.nextToken) + i,
                       if i < stopAfter then Some(answers[i]) else None)
      {
        RecordsAre(before, middle, records, owner, picks, old(table.nextToken), config.leaseDuration);
        BatchWorks(config, before, middle, records, owner, picks, old(table.nextToken), answers, n, i);
      }
      forall id <- before | forall p <- picks :: p.id != id
        ensures id in table.rows && table.rows[id] == before[id]
      {
        RecordsAre(before, middle, records, owner, picks, old(table.nextToken), config.leaseDuration);
        assert forall j :: 0 <= j < n ==> records[j].id == picks[j].id && picks[j] in picks;
        DrainedElsewhere(config, middle, records, answers, n, id);
      }
    }
  }
}
