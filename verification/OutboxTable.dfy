/**
 The outbox_events table: what each statement of the Outbox repository does to its rows.
 A claim carries a fresh token; every later update of a claimed row is fenced by that token.
 */
module OutboxRows {
  import opened Prelude

  type EventId = nat
  type RelayId = nat
  type Token = nat

  datatype Status = Pending | Claimed | Published | Failed

  /** `valid` says whether the stored payload decodes to a valid event; times are database microseconds. */
  datatype Row = Row(status: Status, valid: bool, createdAt: int, availableAt: int, owner: Option<RelayId>,
                     token: Option<Token>, leaseUntil: Option<int>, attempts: nat, lastError: Option<string>, publishedAt: Option<int>)

  type Table = map<EventId, Row>

  /** What a relay records for a payload it cannot decode. */
  const UNDECODABLE := "invalid Outbox event payload"

  function NewRow(valid: bool, at: int): Row {
    Row(Pending, valid, at, at, None, None, None, 0, None, None)
  }

  /** The WHERE clause of the claim query. */
  predicate Eligible(row: Row, now: int) {
    || (row.status == Pending && row.availableAt <= now)
    || (row.status == Claimed && row.leaseUntil.Some? && row.leaseUntil.value <= now)
  }

  function ClaimRow(row: Row, owner: RelayId, token: Token, leaseUntil: int): Row {
    row.(status := Claimed, owner := Some(owner), token := Some(token), leaseUntil := Some(leaseUntil), attempts := row.attempts + 1)
  }

  /** The WHERE clause of every update of a claimed row. */
  predicate Fenced(rows: Table, id: EventId, token: Token) {
    id in rows && rows[id].status == Claimed && rows[id].token == Some(token)
  }

  function Release(row: Row, status: Status): Row {
    row.(status := status, owner := None, token := None, leaseUntil := None)
  }

  function Publish(rows: Table, id: EventId, token: Token, now: int): (Table, bool) {
    if Fenced(rows, id, token)
    then (rows[id := Release(rows[id], Published).(publishedAt := Some(now))], true)
    else (rows, false)
  }

  function Retry(rows: Table, id: EventId, token: Token, now: int, delay: int, cause: string): (Table, bool) {
    if Fenced(rows, id, token)
    then (rows[id := Release(rows[id], Pending).(lastError := Some(cause), availableAt := now + delay)], true)
    else (rows, false)
  }

  function Fail(rows: Table, id: EventId, token: Token, cause: string): (Table, bool) {
    if Fenced(rows, id, token)
    then (rows[id := Release(rows[id], Failed).(lastError := Some(cause))], true)
    else (rows, false)
  }

  /** When a row can be claimed: at once when new, after the delay when retried, after the lease when claimed, never when done. */
  lemma WhenEligible(row: Row, at: int, owner: RelayId, token: Token, leaseUntil: int, id: EventId, now: int, delay: int, cause: string)
    requires row.status == Claimed && row.token == Some(token)
    ensures Eligible(NewRow(true, at), now) <==> at <= now
    ensures Eligible(ClaimRow(row, owner, token, leaseUntil), now) <==> leaseUntil <= now
    ensures forall later: int :: Eligible(Retry(map[id := row], id, token, now, delay, cause).0[id], later) <==> now + delay <= later
    ensures forall later: int :: !Eligible(Publish(map[id := row], id, token, now).0[id], later)
    ensures forall later: int :: !Eligible(Fail(map[id := row], id, token, cause).0[id], later)
  {
  }

  /** One row picked by the claim query, and the database time at which its own update ran. */
  datatype Pick = Pick(id: EventId, at: int)

  /** The claims of one transaction, in candidate order, with consecutive fresh tokens. */
  function ClaimAll(rows: Table, owner: RelayId, picks: seq<Pick>, firstToken: Token, lease: int): (r: Table)
    requires forall p <- picks :: p.id in rows
    ensures r.Keys == rows.Keys
  {
    if picks == [] then rows else
      var n := |picks| - 1;
      var before := ClaimAll(rows, owner, picks[..n], firstToken, lease);
      before[picks[n].id := ClaimRow(before[picks[n].id], owner, firstToken + n, picks[n].at + lease)]
  }

  lemma {:induction false} ClaimAllFrame(rows: Table, owner: RelayId, picks: seq<Pick>, firstToken: Token, lease: int, id: EventId)
    requires forall p <- picks :: p.id in rows
    requires id in rows && forall p <- picks :: p.id != id
    ensures ClaimAll(rows, owner, picks, firstToken, lease)[id] == rows[id]
  {
    if picks != [] {
      ClaimAllFrame(rows, owner, picks[..|picks| - 1], firstToken, lease, id);
    }
  }

  /** A transaction is its first claim followed by the others. */
  lemma {:induction false} ClaimAllFirst(rows: Table, owner: RelayId, picks: seq<Pick>, firstToken: Token, lease: int)
    requires picks != [] && forall p <- picks :: p.id in rows
    ensures var once := rows[picks[0].id := ClaimRow(rows[picks[0].id], owner, firstToken, picks[0].at + lease)];
      ClaimAll(rows, owner, picks, firstToken, lease) == ClaimAll(once, owner, picks[1..], firstToken + 1, lease)
  {
    hide ClaimRow;
    var n := |picks| - 1;
    if n > 0 {
      ClaimAllFirst(rows, owner, picks[..n], firstToken, lease);
      assert picks[..n][0] == picks[0] && picks[..n][1..] == picks[1..][..n - 1];
      assert picks[1..][n - 1] == picks[n];
    }
  }

  lemma ClaimAllNext(rows: Table, owner: RelayId, picks: seq<Pick>, firstToken: Token, lease: int, i: nat)
    requires i < |picks| && DistinctPicks(picks) && forall p <- picks :: p.id in rows
    ensures var before := ClaimAll(rows, owner, picks[..i], firstToken, lease);
      && picks[i].id in before && before[picks[i].id] == rows[picks[i].id]
      && ClaimAll(rows, owner, picks[..i + 1], firstToken, lease)
         == before[picks[i].id := ClaimRow(rows[picks[i].id], owner, firstToken + i, picks[i].at + lease)]
  {
    assert picks[..i + 1][..i] == picks[..i];
    ClaimAllFrame(rows, owner, picks[..i], firstToken, lease, picks[i].id);
  }

  predicate DistinctPicks(picks: seq<Pick>) {
    forall i, j :: 0 <= i < j < |picks| ==> picks[i].id != picks[j].id
  }

  /** Each picked row is claimed exactly once, under a token of its own; every other row is untouched. */
  lemma {:induction false} ClaimAllAt(rows: Table, owner: RelayId, picks: seq<Pick>, firstToken: Token, lease: int, i: nat)
    requires forall p <- picks :: p.id in rows
    requires DistinctPicks(picks) && i < |picks|
    ensures ClaimAll(rows, owner, picks, firstToken, lease)[picks[i].id]
         == ClaimRow(rows[picks[i].id], owner, firstToken + i, picks[i].at + lease)
  {
    var n := |picks| - 1;
    if i == n {
      ClaimAllFrame(rows, owner, picks[..n], firstToken, lease, picks[n].id);
    } else {
      ClaimAllAt(rows, owner, picks[..n], firstToken, lease, i);
    }
  }
}

module OutboxTable {
  import opened Prelude
  import opened OutboxRows

  /** What ClaimBatch hands to the relay: the row as read, with the claim's own token and attempt number. */
  datatype Record = Record(id: EventId, valid: bool, token: Token, attempt: nat)

  function RecordOf(rows: Table, p: Pick, token: Token): Record
    requires p.id in rows
  {
    Record(p.id, rows[p.id].valid, token, rows[p.id].attempts + 1)
  }

  /** The records a claim of these picks hands out: each with its own token, and its attempt counted. */
  predicate HandedOut(records: seq<Record>, rows: Table, picks: seq<Pick>, token: Token) {
    && |records| == |picks|
    && forall i :: 0 <= i < |picks| ==> picks[i].id in rows && records[i] == RecordOf(rows, picks[i], token + i)
  }

  predicate Known(rows: Table, picks: seq<Pick>) {
    DistinctPicks(picks) && forall p <- picks :: p.id in rows
  }

  /** How far a transaction that began at `before` has come: its first n claims are made and recorded. */
  predicate Midway(before: Table, rows: Table, records: seq<Record>, owner: RelayId, picks: seq<Pick>, token: Token, lease: int, n: nat) {
    && n <= |picks| && Known(before, picks)
    && rows == ClaimAll(before, owner, picks[..n], token, lease)
    && HandedOut(records, before, picks[..n], token)
  }

  lemma KnownPicks(rows: Table, picks: seq<Pick>)
    requires DistinctPicks(picks) && forall p <- picks :: p.id in rows
    ensures Known(rows, picks)
  {
  }

  lemma ClaimedNone(before: Table, owner: RelayId, picks: seq<Pick>, token: Token, lease: int)
    requires Known(before, picks)
    ensures Midway(before, before, [], owner, picks, token, lease, 0)
  {
  }

  lemma ClaimedNext(before: Table, rows: Table, records: seq<Record>, owner: RelayId, picks: seq<Pick>, token: Token, lease: int, n: nat)
    requires n < |picks| && Midway(before, rows, records, owner, picks, token, lease, n)
    ensures picks[n].id in rows
    ensures var p := picks[n];
      Midway(before, rows[p.id := ClaimRow(rows[p.id], owner, token + n, p.at + lease)],
              records + [RecordOf(rows, p, token + n)], owner, picks, token, lease, n + 1)
  {
    ClaimAllNext(before, owner, picks, token, lease, n);
    hide ClaimAll, ClaimRow;
  }

  lemma ClaimedEverything(before: Table, rows: Table, records: seq<Record>, owner: RelayId, picks: seq<Pick>, token: Token, lease: int)
    requires Midway(before, rows, records, owner, picks, token, lease, |picks|)
    ensures rows == ClaimAll(before, owner, picks, token, lease) && HandedOut(records, before, picks, token)
  {
    assert picks[..|picks|] == picks;
  }

  /** What a claim leaves of one row, and the record that goes with it. */
  predicate Agree(was: Row, row: Row, record: Record, p: Pick, owner: RelayId, token: Token, lease: int) {
    && record.id == p.id && record.valid == row.valid && Some(record.token) == row.token && record.token == token
    && record.attempt == row.attempts == was.attempts + 1
    && row.status == Claimed && row.owner == Some(owner) && row.leaseUntil == Some(p.at + lease)
    && row.valid == was.valid && row.createdAt == was.createdAt && row.availableAt == was.availableAt
    && row.lastError == was.lastError && row.publishedAt == was.publishedAt
  }

  lemma ClaimedRecord(before: Table, records: seq<Record>, owner: RelayId, picks: seq<Pick>, token: Token, lease: int, i: nat)
    requires i < |picks| && Known(before, picks) && HandedOut(records, before, picks, token)
    ensures |records| == |picks| && picks[i].id in before
    ensures Agree(before[picks[i].id], ClaimAll(before, owner, picks, token, lease)[picks[i].id], records[i], picks[i], owner, token + i, lease)
  {
    ClaimAllAt(before, owner, picks, token, lease, i);
    hide ClaimAll;
  }

  lemma ClaimedRecords(before: Table, rows: Table, records: seq<Record>, owner: RelayId, picks: seq<Pick>, token: Token, lease: int)
    requires Known(before, picks) && rows == ClaimAll(before, owner, picks, token, lease) && HandedOut(records, before, picks, token)
    ensures |records| == |picks| && rows.Keys == before.Keys
    ensures forall i :: 0 <= i < |picks| ==>
              picks[i].id in before && Agree(before[picks[i].id], rows[picks[i].id], records[i], picks[i], owner, token + i, lease)
    ensures forall id <- before :: (forall p <- picks :: p.id != id) ==> rows[id] == before[id]
  {
    assert |records| == |picks| && forall p <- picks :: p.id in before;
    hide Agree, HandedOut, ClaimAll, Known;
    forall i | 0 <= i < |picks|
      ensures Agree(before[picks[i].id], rows[picks[i].id], records[i], picks[i], owner, token + i, lease)
    {
      ClaimedRecord(before, records, owner, picks, token, lease, i);
    }
    forall id <- before | forall p <- picks :: p.id != id
      ensures rows[id] == before[id]
    {
      ClaimAllFrame(before, owner, picks, token, lease, id);
    }
  }

  class OutboxTable {
    var rows: Table
    var nextToken: Token

    constructor ()
      ensures rows == map[] && nextToken == 0
    {
      rows, nextToken := map[], 0;
    }

    /**
     One claim transaction. `picks` are the candidates the locking query returned, each with the time
     of its update; `broken` names a statement that fails, after which the whole transaction rolls back.
     */
    method ClaimBatch(owner: RelayId, picks: seq<Pick>, lease: int, broken: Option<nat>) returns (claimed: Result<seq<Record>, string>)
      requires DistinctPicks(picks) && forall p <- picks :: p.id in rows
      modifies this
      ensures claimed.Err? <==> broken.Some? && broken.value < |picks|
      ensures claimed.Err? ==> rows == old(rows)
      ensures nextToken >= old(nextToken)
      ensures claimed.Ok? ==>
        && nextToken == old(nextToken) + |picks|
        && rows == ClaimAll(old(rows), owner, picks, old(nextToken), lease)
        && HandedOut(claimed.value, old(rows), picks, old(nextToken))
      ensures claimed.Ok? ==> |claimed.value| == |picks| && rows.Keys == old(rows).Keys
      ensures claimed.Ok? ==> forall i :: 0 <= i < |picks| ==>
                Agree(old(rows)[picks[i].id], rows[picks[i].id], claimed.value[i], picks[i], owner, old(nextToken) + i, lease)
      ensures forall id <- old(rows) :: (forall p <- picks :: p.id != id) ==> rows[id] == old(rows)[id]
    {
      hide *;
      var before := rows;
      var records: seq<Record> := [];
      assert Known(rows, picks) by { KnownPicks(rows, picks); }
      ClaimedNone(before, owner, picks, old(nextToken), lease);
      var i := 0;
      while i < |picks|
        invariant 0 <= i <= |picks| && nextToken == old(nextToken) + i
        invariant broken.Some? ==> broken.value >= i
        invariant Midway(before, rows, records, owner, picks, old(nextToken), lease, i)
      {
        if broken == Some(i) {
          rows := before;
          return Err("claim Outbox event");
        }
        ClaimedNext(before, rows, records, owner, picks, old(nextToken), lease, i);
        var p, token := picks[i], nextToken;
        nextToken := nextToken + 1;
        records := records + [RecordOf(rows, p, token)];
        rows := rows[p.id := ClaimRow(rows[p.id], owner, token, p.at + lease)];
        i := i + 1;
      }
      ClaimedEverything(before, rows, records, owner, picks, old(nextToken), lease);
      ClaimedRecords(before, rows, records, owner, picks, old(nextToken), lease);
      return Ok(records);
    }

    method MarkPublished(id: EventId, token: Token, now: int) returns (updated: bool)
      modifies this`rows
      ensures (rows, updated) == Publish(old(rows), id, token, now)
      ensures updated <==> id in old(rows) && old(rows)[id].status == Claimed && old(rows)[id].token == Some(token)
      ensures updated ==> rows == old(rows)[id := rows[id]] && rows[id].status == Published && rows[id].publishedAt == Some(now)
      ensures updated ==> rows[id].owner == None && rows[id].token == None && rows[id].leaseUntil == None
      ensures updated ==> rows[id].attempts == old(rows)[id].attempts && rows[id].valid == old(rows)[id].valid && rows[id].lastError == old(rows)[id].lastError
      ensures !updated ==> rows == old(rows)
    {
      updated := Fenced(rows, id, token);
      if updated {
        rows := rows[id := rows[id].(status := Published, publishedAt := Some(now), owner := None, token := None, leaseUntil := None)];
      }
    }

    method ScheduleRetry(id: EventId, token: Token, delay: int, cause: string, now: int) returns (updated: bool)
      modifies this`rows
      ensures (rows, updated) == Retry(old(rows), id, token, now, delay, cause)
      ensures updated <==> id in old(rows) && old(rows)[id].status == Claimed && old(rows)[id].token == Some(token)
      ensures updated ==> rows == old(rows)[id := rows[id]] && rows[id].status == Pending && rows[id].availableAt == now + delay
      ensures updated ==> rows[id].owner == None && rows[id].token == None && rows[id].leaseUntil == None
      ensures updated ==> rows[id].attempts == old(rows)[id].attempts && rows[id].valid == old(rows)[id].valid && rows[id].lastError == Some(cause)
      ensures !updated ==> rows == old(rows)
    {
      updated := UpdateFailure(id, token, Pending, delay, cause, now);
    }

    method MarkFailed(id: EventId, token: Token, cause: string, now: int) returns (updated: bool)
      modifies this`rows
      ensures (rows, updated) == Fail(old(rows), id, token, cause)
      ensures updated <==> id in old(rows) && old(rows)[id].status == Claimed && old(rows)[id].token == Some(token)
      ensures updated ==> rows == old(rows)[id := rows[id]] && rows[id].status == Failed && rows[id].availableAt == old(rows)[id].availableAt
      ensures updated ==> rows[id].owner == None && rows[id].token == None && rows[id].leaseUntil == None
      ensures updated ==> rows[id].attempts == old(rows)[id].attempts && rows[id].valid == old(rows)[id].valid && rows[id].lastError == Some(cause)
      ensures !updated ==> rows == old(rows)
    {
      updated := UpdateFailure(id, token, Failed, 0, cause, now);
    }

    method UpdateFailure(id: EventId, token: Token, status: Status, delay: int, cause: string, now: int) returns (updated: bool)
      requires status == Pending || status == Failed
      modifies this`rows
      ensures status == Pending ==> (rows, updated) == Retry(old(rows), id, token, now, delay, cause)
      ensures status == Failed ==> (rows, updated) == Fail(old(rows), id, token, cause)
    {
      updated := Fenced(rows, id, token);
      if updated {
        var row := rows[id].(status := status, lastError := Some(cause), owner := None, token := None, leaseUntil := None);
        if status == Pending {
          row := row.(availableAt := now + delay);
        }
        rows := rows[id := row];
      }
    }
  }
}
