/**
 Any number of relays over one outbox table, interleaved at every database call and at the start and
 end of every publication. A relay may stop or crash at any moment; claims it leaves behind expire.

 The log and the list of publications are history: no step reads them.
 */
module OutboxMachine {
  import opened Prelude
  import opened OutboxRows
  import opened OutboxConfig

  /** A committed claim; its token is its index in the list of claims. */
  datatype Claim = Claim(event: EventId, selectedAt: int, leaseUntil: int)

  datatype Job = Job(event: EventId, token: Token, attempt: nat, valid: bool)

  datatype Phase = Ready | Publishing(since: int) | Confirmed | Refused

  /**
   A relay working through its batch: `job` is the next record, `began` the time of the claim query,
   `database` and `published` the time the batch has spent on database work and on ended publications.
   */
  datatype Work = Work(jobs: seq<Job>, job: nat, phase: Phase, began: int, database: int, published: int)

  /** A publication that ended, for whatever reason; confirmed says the broker confirmed it to the relay. */
  datatype Publication = Publication(token: Token, start: int, end: int, confirmed: bool)

  datatype Cause = InvalidPayload | Exhausted

  datatype Update = Marked(event: EventId, token: Token)
                  | Retried(event: EventId, token: Token)
                  | GaveUp(event: EventId, token: Token, attempt: nat, cause: Cause)

  datatype State = State(now: int, rows: Table, claims: seq<Claim>, relays: map<RelayId, Work>,
                         publications: seq<Publication>, log: seq<Update>)

  datatype Step = Insert(event: EventId, valid: bool, at: int)
                | ClaimBatch(relay: RelayId, selectedAt: int, picks: seq<Pick>)
                | BeginPublish(relay: RelayId)
                | EndPublish(relay: RelayId, confirmed: bool)
                | Settle(relay: RelayId, reaches: bool)
                | Stop(relay: RelayId)
                | Tick(ms: nat)

  function Initial(now: int): State {
    State(now, map[], [], map[], [], [])
  }

  // ---- Claiming ----

  predicate MayClaim(s: State, relay: RelayId, selectedAt: int, p: Pick) {
    p.id in s.rows && Eligible(s.rows[p.id], selectedAt) && selectedAt <= p.at <= s.now
  }

  /** The claim of one row inside a transaction that has already claimed others for the same relay. */
  function ClaimOne(c: Config, s: State, relay: RelayId, selectedAt: int, p: Pick): State
    requires MayClaim(s, relay, selectedAt, p) && relay in s.relays
  {
    var token := |s.claims|;
    var row := ClaimRow(s.rows[p.id], relay, token, p.at + c.leaseDuration);
    var work := s.relays[relay];
    s.(rows := s.rows[p.id := row],
       claims := s.claims + [Claim(p.id, selectedAt, p.at + c.leaseDuration)],
       relays := s.relays[relay := work.(jobs := work.jobs + [Job(p.id, token, row.attempts, row.valid)])])
  }

  function OpenBatch(s: State, relay: RelayId, selectedAt: int): State {
    s.(relays := s.relays[relay := Work([], 0, Ready, selectedAt, s.now - selectedAt, 0)])
  }

  /** The rows a transaction may claim were all eligible when it selected them, and stay locked until it commits. */
  predicate MayClaimAll(c: Config, s: State, relay: RelayId, selectedAt: int, picks: seq<Pick>)
    requires relay in s.relays
    decreases |picks|
  {
    picks != [] ==>
      && MayClaim(s, relay, selectedAt, picks[0])
      && MayClaimAll(c, ClaimOne(c, s, relay, selectedAt, picks[0]), relay, selectedAt, picks[1..])
  }

  function ClaimAllIn(c: Config, s: State, relay: RelayId, selectedAt: int, picks: seq<Pick>): State
    requires relay in s.relays && MayClaimAll(c, s, relay, selectedAt, picks)
    decreases |picks|
  {
    if picks == [] then s
    else ClaimAllIn(c, ClaimOne(c, s, relay, selectedAt, picks[0]), relay, selectedAt, picks[1..])
  }

  // ---- Working through a batch ----

  function Current(w: Work): Job
    requires w.job < |w.jobs|
  {
    w.jobs[w.job]
  }

  predicate Busy(s: State, relay: RelayId) {
    relay in s.relays && s.relays[relay].job < |s.relays[relay].jobs|
  }

  function SetWork(s: State, relay: RelayId, w: Work): State {
    s.(relays := s.relays[relay := w])
  }

  /** The relay moves to its next record, or drops a finished batch. */
  function Advance(s: State, relay: RelayId): State
    requires Busy(s, relay)
  {
    var w := s.relays[relay];
    if w.job + 1 < |w.jobs| then SetWork(s, relay, w.(job := w.job + 1, phase := Ready))
    else s.(relays := s.relays - {relay})
  }

  function Ended(s: State, relay: RelayId, confirmed: bool): Publication
    requires Busy(s, relay) && s.relays[relay].phase.Publishing?
  {
    Publication(Current(s.relays[relay]).token, s.relays[relay].phase.since, s.now, confirmed)
  }

  /** The fenced update the relay makes for its current record, on the rows and on the log. */
  function ApplyUpdate(c: Config, s: State, job: Job, phase: Phase): State
    requires phase == Confirmed || phase == Refused || (phase == Ready && !job.valid)
  {
    match phase
    case Confirmed =>
      var (rows, updated) := Publish(s.rows, job.event, job.token, s.now);
      s.(rows := rows, log := if updated then s.log + [Marked(job.event, job.token)] else s.log)
    case Ready =>
      var (rows, updated) := Fail(s.rows, job.event, job.token, UNDECODABLE);
      s.(rows := rows, log := if updated then s.log + [GaveUp(job.event, job.token, job.attempt, InvalidPayload)] else s.log)
    case Refused =>
      if job.attempt >= c.maxAttempts then
        var (rows, updated) := Fail(s.rows, job.event, job.token, "");
        s.(rows := rows, log := if updated then s.log + [GaveUp(job.event, job.token, job.attempt, Exhausted)] else s.log)
      else
        var (rows, updated) := Retry(s.rows, job.event, job.token, s.now, Backoff(c, job.attempt), "");
        s.(rows := rows, log := if updated then s.log + [Retried(job.event, job.token)] else s.log)
  }

  predicate MaySettle(s: State, relay: RelayId) {
    && Busy(s, relay)
    && var w := s.relays[relay];
       || w.phase == Confirmed || w.phase == Refused || (w.phase == Ready && !Current(w).valid)
  }

  predicate Enabled(c: Config, s: State, step: Step) {
    match step
    case Insert(event, _, at) => event !in s.rows && at <= s.now
    case ClaimBatch(relay, selectedAt, picks) =>
      && relay !in s.relays && selectedAt <= s.now && 0 < |picks| <= c.batchSize
      && MayClaimAll(c, OpenBatch(s, relay, selectedAt), relay, selectedAt, picks)
    case BeginPublish(relay) => Busy(s, relay) && s.relays[relay].phase == Ready && Current(s.relays[relay]).valid
    case EndPublish(relay, _) => Busy(s, relay) && s.relays[relay].phase.Publishing?
    case Settle(relay, _) => MaySettle(s, relay)
    case Stop(relay) => Busy(s, relay)
    case Tick(_) => true
  }

  /** Time passing is charged to every batch: to its publication while one runs, to its database work otherwise. */
  function Charge(w: Work, ms: nat): Work {
    if w.phase.Publishing? then w else w.(database := w.database + ms)
  }

  function Do(c: Config, s: State, step: Step): State
    requires Enabled(c, s, step)
  {
    match step
    case Insert(event, valid, at) => s.(rows := s.rows[event := NewRow(valid, at)])
    case ClaimBatch(relay, selectedAt, picks) => ClaimAllIn(c, OpenBatch(s, relay, selectedAt), relay, selectedAt, picks)
    case BeginPublish(relay) => SetWork(s, relay, s.relays[relay].(phase := Publishing(s.now)))
    case EndPublish(relay, confirmed) => EndOne(s, relay, confirmed)
    case Settle(relay, reaches) =>
      var w := s.relays[relay];
      Advance(if reaches then ApplyUpdate(c, s, Current(w), w.phase) else s, relay)
    case Stop(relay) => StopOne(s, relay)
    case Tick(ms) => s.(now := s.now + ms, relays := map r | r in s.relays :: Charge(s.relays[r], ms))
  }

  function EndOne(s: State, relay: RelayId, confirmed: bool): State
    requires Busy(s, relay) && s.relays[relay].phase.Publishing?
  {
    var w := s.relays[relay];
    SetWork(s, relay, w.(phase := if confirmed then Confirmed else Refused, published := w.published + (s.now - w.phase.since)))
      .(publications := s.publications + [Ended(s, relay, confirmed)])
  }

  function StopOne(s: State, relay: RelayId): State
    requires Busy(s, relay)
  {
    var ended := if s.relays[relay].phase.Publishing? then [Ended(s, relay, false)] else [];
    s.(relays := s.relays - {relay}, publications := s.publications + ended)
  }

  // ---- Runs ----

  predicate Runs(c: Config, s: State, steps: seq<Step>)
    decreases |steps|
  {
    steps != [] ==> Enabled(c, s, steps[0]) && Runs(c, Do(c, s, steps[0]), steps[1..])
  }

  function After(c: Config, s: State, steps: seq<Step>): State
    requires Runs(c, s, steps)
    decreases |steps|
  {
    if steps == [] then s else After(c, Do(c, s, steps[0]), steps[1..])
  }

  function ClaimCount(claims: seq<Claim>, event: EventId): nat {
    if claims == [] then 0 else
      ClaimCount(claims[..|claims| - 1], event) + (if claims[|claims| - 1].event == event then 1 else 0)
  }

  function RetryCount(log: seq<Update>, event: EventId): nat {
    if log == [] then 0 else
      var last := log[|log| - 1];
      RetryCount(log[..|log| - 1], event) + (if last.Retried? && last.event == event then 1 else 0)
  }

  /** The most recent claim of an event. */
  predicate Latest(claims: seq<Claim>, event: EventId, token: Token) {
    && token < |claims| && claims[token].event == event
    && forall t :: token < t < |claims| ==> claims[t].event != event
  }

  // ---- The invariant of every run ----

  predicate RowsOk(s: State) {
    forall e <- s.rows ::
      && (s.rows[e].status == Claimed ==>
            && s.rows[e].token.Some? && Latest(s.claims, e, s.rows[e].token.value)
            && s.rows[e].leaseUntil == Some(s.claims[s.rows[e].token.value].leaseUntil))
      && s.rows[e].attempts == ClaimCount(s.claims, e)
  }

  predicate ClaimsKnown(s: State) {
    forall t :: 0 <= t < |s.claims| ==> s.claims[t].event in s.rows
  }

  predicate JobOk(s: State, job: Job) {
    && job.token < |s.claims| && s.claims[job.token].event == job.event && job.event in s.rows
    && job.valid == s.rows[job.event].valid
    && job.attempt == ClaimCount(s.claims[..job.token + 1], job.event)
  }

  predicate WorkOk(s: State, w: Work) {
    && w.job <= |w.jobs|
    && (forall j <- w.jobs :: JobOk(s, j))
    && (w.phase != Ready ==> w.job < |w.jobs| && Current(w).valid)
    && (w.phase.Publishing? ==> w.phase.since <= s.now)
    && (w.phase == Confirmed ==> exists p <- s.publications :: p.token == Current(w).token && p.confirmed)
    && (w.phase == Refused ==> exists p <- s.publications :: p.token == Current(w).token && !p.confirmed)
  }

  predicate RelaysOk(s: State) {
    forall r <- s.relays :: WorkOk(s, s.relays[r])
  }

  ghost predicate RetriesOk(c: Config, s: State) {
    forall e: EventId ::
      && (e !in s.rows ==> RetryCount(s.log, e) == 0)
      && (e in s.rows ==>
           && RetryCount(s.log, e) <= Max(0, c.maxAttempts - 1)
           && RetryCount(s.log, e) <= s.rows[e].attempts - (if s.rows[e].status == Claimed then 1 else 0))
  }

  predicate EntryOk(c: Config, s: State, u: Update) {
    && u.event in s.rows && u.token < |s.claims| && s.claims[u.token].event == u.event
    && match u
       case Marked(e, t) => s.rows[e].status == Published && exists p <- s.publications :: p.token == t && p.confirmed
       case Retried(e, t) => exists p <- s.publications :: p.token == t && !p.confirmed
       case GaveUp(e, t, attempt, cause) =>
         && s.rows[e].status == Failed && attempt == s.rows[e].attempts
         && (if cause == InvalidPayload then !s.rows[e].valid
             else attempt >= c.maxAttempts && exists p <- s.publications :: p.token == t && !p.confirmed)
  }

  /** PUBLISHED and FAILED rows are exactly those with such an entry, and have one entry each. */
  predicate LogOk(c: Config, s: State) {
    && (forall u <- s.log :: EntryOk(c, s, u))
    && (forall e <- s.rows :: s.rows[e].status == Published ==> exists u <- s.log :: u.Marked? && u.event == e)
    && (forall e <- s.rows :: s.rows[e].status == Failed ==> exists u <- s.log :: u.GaveUp? && u.event == e)
    && (forall i, j :: 0 <= i < j < |s.log| && s.log[i].event == s.log[j].event ==> s.log[i].Retried?)
  }

  ghost predicate Inv(c: Config, s: State) {
    RowsOk(s) && ClaimsKnown(s) && RelaysOk(s) && RetriesOk(c, s) && LogOk(c, s)
  }
}
