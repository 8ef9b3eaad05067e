/** How one delivery is decided: what the worker tells the broker, given the body and the persistence outcome. */
module ChatConsumer {
  import opened Prelude
  import opened ChatStore

  /** A message body either decodes to a valid chat.message.accepted event or it does not. */
  datatype Body = Malformed | Good(event: Event)

  datatype Verdict = Ack | Requeue | DeadLetter

  const CONSUMER := "chat-persistence-v1"

  /** `persisted` is what Persist returned; it is not consulted for a malformed body. */
  function Decide(body: Body, persisted: Result<PersistResult, string>): Verdict {
    match body
    case Malformed => DeadLetter
    case Good(_) =>
      match persisted
      case Err(_) => Requeue
      case Ok(result) => if result == Conflicting then DeadLetter else Ack
  }

  /** Not yet processed, and its key is stored with other content. */
  predicate Contradicts(inbox: set<(string, EventId)>, messages: map<Key, Stored>, e: Event) {
    (CONSUMER, e.id) !in inbox && e.key in messages && messages[e.key].content != e.content
  }

  class Consumer {
    const repository: ChatRepository

    constructor (repository: ChatRepository)
      ensures this.repository == repository
    {
      this.repository := repository;
    }

    /** `sent` says whether the verdict reached the broker; when it did not, the worker reports an error and its session ends. */
    method HandleDelivery(body: Body, fate: Fate, sent: bool) returns (verdict: Verdict, failed: bool)
      modifies repository
      ensures failed == !sent
      ensures body.Malformed? ==> verdict == DeadLetter && repository.View() == old(repository.View())
      ensures body.Good? && fate == Commits ==> verdict != Requeue
      ensures body.Good? ==>
                var e := body.event;
                verdict == Requeue <==>
                || fate == FailsAt(0)
                || (fate == FailsAt(1) && (CONSUMER, e.id) !in old(repository.inbox))
                || (fate == FailsAt(2) && (CONSUMER, e.id) !in old(repository.inbox) && e.key in old(repository.messages))
                || (fate == ReplyLost && !Contradicts(old(repository.inbox), old(repository.messages), e))
      ensures body.Good? && verdict != Requeue ==>
                var e := body.event;
                verdict == if (CONSUMER, e.id) !in old(repository.inbox) && e.key in old(repository.messages)
                              && old(repository.messages)[e.key].content != e.content
                           then DeadLetter else Ack
      ensures body.Good? && verdict == DeadLetter ==>
                repository.inbox == old(repository.inbox) && repository.messages == old(repository.messages)
      ensures body.Good? && verdict == Ack ==>
                var e := body.event;
                && repository.inbox == old(repository.inbox) + {(CONSUMER, e.id)}
                && repository.messages ==
                   if (CONSUMER, e.id) in old(repository.inbox) || e.key in old(repository.messages) then old(repository.messages)
                   else old(repository.messages)[e.key := Stored(old(repository.nextId), e.id, e.content, e.acceptedAt)]
      ensures body.Good? && verdict == Requeue ==>
                || repository.View() == Transact(old(repository.View()), CONSUMER, body.event).0
                || (repository.inbox == old(repository.inbox) && repository.messages == old(repository.messages))
    {
      failed := !sent;
      match body
      case Malformed =>
        verdict := DeadLetter;
      case Good(event) =>
        var persisted := repository.Persist(CONSUMER, event, fate);
        if persisted.Err? {
          verdict := Requeue;
        } else if persisted.value == Conflicting {
          verdict := DeadLetter;
        } else {
          verdict := Ack;
        }
    }
  }
}

/**
 The persistence queue and its competing consumers: deliveries, workers, transactions whose replies may
 be lost, verdicts that may not arrive, and sessions that end while workers are still busy.
 */
module ConsumerMachine {
  import opened Prelude
  import opened ChatStore
  import opened ChatConsumer

  type MessageId = nat
  type SessionId = nat
  type JobId = nat

  datatype Held = Held(session: SessionId, count: nat)

  datatype Stage = Received | Decided(persisted: Result<PersistResult, string>)

  /** A worker's copy of a delivery; it outlives the session when the broker closes the channel first. */
  datatype Job = Job(message: MessageId, session: SessionId, stage: Stage)

  datatype Reason = BadBody | Conflict | Exhausted(count: nat)

  /** `bodies` is every message ever routed to the queue; the four collections after it are where messages are. */
  datatype State = State(db: Db, bodies: map<MessageId, Body>,
                         queued: map<MessageId, nat>, unacked: map<MessageId, Held>, dead: map<MessageId, Reason>, acked: set<MessageId>,
                         live: set<SessionId>, jobs: map<JobId, Job>)

  datatype Step = Route(message: MessageId, body: Body)
                | Open(session: SessionId)
                | Deliver(job: JobId, message: MessageId, session: SessionId)
                | RunPersist(job: JobId, committed: bool, replied: bool)
                | Finish(job: JobId, sent: bool)
                | Abandon(job: JobId)
                | Close(session: SessionId, counted: set<MessageId>)

  const INITIAL := State(EMPTY, map[], map[], map[], map[], {}, {}, map[])

  /** A redelivery counts against the delivery limit; past it the broker dead-letters the message itself. */
  function Return(limit: nat, s: State, m: MessageId, count: nat): State {
    if count > limit then s.(unacked := s.unacked - {m}, dead := s.dead[m := Exhausted(count)])
    else s.(unacked := s.unacked - {m}, queued := s.queued[m := count])
  }

  function HeldBy(s: State, session: SessionId): set<MessageId> {
    set m | m in s.unacked && s.unacked[m].session == session
  }

  predicate MayFinish(s: State, job: JobId) {
    && job in s.jobs && s.jobs[job].message in s.bodies
    && (s.jobs[job].stage.Decided? || s.bodies[s.jobs[job].message].Malformed?)
  }

  predicate Enabled(s: State, step: Step) {
    match step
    case Route(m, body) =>
      && m !in s.bodies
      && (forall k <- s.bodies :: body.Good? && s.bodies[k].Good? ==> SameEvent(body.event, s.bodies[k].event))
    case Open(session) => session !in s.live && HeldBy(s, session) == {} && forall j <- s.jobs :: s.jobs[j].session != session
    case Deliver(job, m, session) => job !in s.jobs && m in s.queued && session in s.live
    case RunPersist(job, committed, replied) =>
      && job in s.jobs && s.jobs[job].stage == Received
      && s.jobs[job].message in s.bodies && s.bodies[s.jobs[job].message].Good?
      && (replied ==> committed)
    case Finish(job, _) => MayFinish(s, job)
    case Abandon(job) => job in s.jobs
    case Close(session, _) => session in s.live
  }

  /** The broker carries out a verdict only on the channel that holds the delivery. */
  function Carry(limit: nat, s: State, m: MessageId, verdict: Verdict, reason: Reason): State
    requires m in s.unacked
  {
    match verdict
    case Ack => s.(unacked := s.unacked - {m}, acked := s.acked + {m})
    case DeadLetter => s.(unacked := s.unacked - {m}, dead := s.dead[m := reason])
    case Requeue => Return(limit, s, m, s.unacked[m].count + 1)
  }

  function FinishJob(limit: nat, s: State, job: JobId, sent: bool): State
    requires MayFinish(s, job)
  {
    var j := s.jobs[job];
    var body := s.bodies[j.message];
    var rest := s.(jobs := s.jobs - {job});
    if sent && j.session in s.live && j.message in s.unacked && s.unacked[j.message].session == j.session then
      var persisted := if j.stage.Decided? then j.stage.persisted else Err("");
      Carry(limit, rest, j.message, Decide(body, persisted), if body.Malformed? then BadBody else Conflict)
    else rest
  }

  /** All deliveries the session held go back; which of them the broker counts is its own affair. */
  function ReturnAll(limit: nat, s: State, messages: set<MessageId>, counted: set<MessageId>): State
    requires messages <= s.unacked.Keys
  {
    var count := (m: MessageId) requires m in s.unacked => s.unacked[m].count + (if m in counted then 1 else 0);
    s.(unacked := s.unacked - messages,
       queued := s.queued + (map m | m in messages && count(m) <= limit :: count(m)),
       dead := s.dead + (map m | m in messages && count(m) > limit :: Exhausted(count(m))))
  }

  function Do(limit: nat, s: State, step: Step): State
    requires Enabled(s, step)
  {
    match step
    case Route(m, body) => s.(bodies := s.bodies[m := body], queued := s.queued[m := 0])
    case Open(session) => s.(live := s.live + {session})
    case Deliver(job, m, session) =>
      s.(queued := s.queued - {m}, unacked := s.unacked[m := Held(session, s.queued[m])],
         jobs := s.jobs[job := Job(m, session, Received)])
    case RunPersist(job, committed, replied) =>
      var j := s.jobs[job];
      var (after, result) := Transact(s.db, CONSUMER, s.bodies[j.message].event);
      s.(db := if committed then after else s.db,
         jobs := s.jobs[job := j.(stage := Decided(if replied then Ok(result) else Err("persist")))])
    case Finish(job, sent) => FinishJob(limit, s, job, sent)
    case Abandon(job) => s.(jobs := s.jobs - {job})
    case Close(session, counted) => ReturnAll(limit, s, HeldBy(s, session), counted).(live := s.live - {session})
  }

  predicate Runs(limit: nat, s: State, steps: seq<Step>)
    decreases |steps|
  {
    steps != [] ==> Enabled(s, steps[0]) && Runs(limit, Do(limit, s, steps[0]), steps[1..])
  }

  function After(limit: nat, s: State, steps: seq<Step>): State
    requires Runs(limit, s, steps)
    decreases |steps|
  {
    if steps == [] then s else After(limit, Do(limit, s, steps[0]), steps[1..])
  }

  // ---- The invariant ----

  /** Every routed message is in exactly one place. */
  ghost predicate Conserved(s: State) {
    forall m: MessageId :: Places(s, m) == if m in s.bodies then 1 else 0
  }

  function Places(s: State, m: MessageId): nat {
    (if m in s.queued then 1 else 0) + (if m in s.unacked then 1 else 0)
    + (if m in s.dead then 1 else 0) + (if m in s.acked then 1 else 0)
  }

  predicate OneMeaning(s: State) {
    forall k, l :: k in s.bodies && l in s.bodies && s.bodies[k].Good? && s.bodies[l].Good? ==> SameEvent(s.bodies[k].event, s.bodies[l].event)
  }

  function Events(s: State): set<Event> {
    set m | m in s.bodies && s.bodies[m].Good? :: s.bodies[m].event
  }

  predicate Safe(s: State, m: MessageId) {
    m in s.bodies && s.bodies[m].Good? && Holds(s.db, s.bodies[m].event)
  }

  predicate Clashes(s: State, m: MessageId) {
    && m in s.bodies && s.bodies[m].Good?
    && s.bodies[m].event.key in s.db.messages && s.db.messages[s.bodies[m].event.key].content != s.bodies[m].event.content
  }

  predicate JobOk(s: State, j: Job) {
    && j.message in s.bodies
    && (j.stage.Decided? ==> s.bodies[j.message].Good?)
    && (j.stage.Decided? && j.stage.persisted.Ok? ==>
          if j.stage.persisted.value == Conflicting then Clashes(s, j.message) else Safe(s, j.message))
  }

  predicate DeadOk(limit: nat, s: State, m: MessageId)
    requires m in s.dead
  {
    match s.dead[m]
    case BadBody => m in s.bodies && s.bodies[m].Malformed?
    case Conflict => Clashes(s, m)
    case Exhausted(count) => count > limit
  }

  predicate DbOk(s: State) {
    OneMeaning(s) && InboxBacked(s.db, Events(s)) && IdsOk(s.db)
  }

  predicate JobsOk(s: State) {
    forall j <- s.jobs :: JobOk(s, s.jobs[j])
  }

  predicate EndsOk(limit: nat, s: State) {
    && (forall m <- s.acked :: Safe(s, m))
    && (forall m <- s.dead :: DeadOk(limit, s, m))
  }

  ghost predicate Inv(limit: nat, s: State) {
    Conserved(s) && DbOk(s) && JobsOk(s) && EndsOk(limit, s)
  }

  /** Stored messages are never changed or removed, so what a worker or a verdict relied on stays true. */
  predicate Grows(s: State, t: State) {
    && (forall k <- s.db.messages :: k in t.db.messages && t.db.messages[k] == s.db.messages[k])
    && (forall m <- s.bodies :: m in t.bodies && t.bodies[m] == s.bodies[m])
  }

  lemma GrowsKeeps(s: State, t: State)
    requires Grows(s, t)
    ensures forall m: MessageId :: Safe(s, m) ==> Safe(t, m)
    ensures forall m: MessageId :: Clashes(s, m) ==> Clashes(t, m)
  {
  }

  lemma CarryPlaces(limit: nat, s: State, held: MessageId, verdict: Verdict, reason: Reason, m: MessageId)
    requires held in s.unacked && Places(s, held) == 1
    ensures Places(Carry(limit, s, held, verdict, reason), m) == Places(s, m)
  {
  }

  lemma ReturnAllPlaces(limit: nat, s: State, messages: set<MessageId>, counted: set<MessageId>, m: MessageId)
    requires messages <= s.unacked.Keys && (m in messages ==> Places(s, m) == 1)
    ensures Places(ReturnAll(limit, s, messages, counted), m) == Places(s, m)
  {
  }

  lemma FinishPlaces(limit: nat, s: State, job: JobId, sent: bool, m: MessageId)
    requires MayFinish(s, job) && Places(s, s.jobs[job].message) == 1
    ensures Places(FinishJob(limit, s, job, sent), m) == Places(s, m)
  {
    var j := s.jobs[job];
    var rest := s.(jobs := s.jobs - {job});
    hide Decide, Carry;
    if sent && j.session in s.live && j.message in s.unacked && s.unacked[j.message].session == j.session {
      var persisted := if j.stage.Decided? then j.stage.persisted else Err("");
      var body := s.bodies[j.message];
      CarryPlaces(limit, rest, j.message, Decide(body, persisted), if body.Malformed? then BadBody else Conflict, m);
    }
  }

  lemma PlacesOf(s: State, m: MessageId)
    requires Conserved(s)
    ensures Places(s, m) == if m in s.bodies then 1 else 0
  {
  }

  lemma StepPlaces(limit: nat, s: State, step: Step, m: MessageId)
    requires Conserved(s) && Enabled(s, step)
    ensures var t := Do(limit, s, step); Places(t, m) == if m in t.bodies then 1 else 0
  {
    hide Conserved, Transact, SameEvent, ReturnAll, FinishJob;
    PlacesOf(s, m);
    match step
    case Finish(job, sent) =>
      PlacesOf(s, s.jobs[job].message);
      FinishPlaces(limit, s, job, sent, m);
      FinishFrame(limit, s, job, sent);
      hide Places;
    case Close(session, counted) =>
      ReturnAllPlaces(limit, s, HeldBy(s, session), counted, m);
      CloseFrame(limit, s, session, counted);
    case _ =>
  }

  lemma StepConserves(limit: nat, s: State, step: Step)
    requires Conserved(s) && Enabled(s, step)
    ensures Conserved(Do(limit, s, step))
  {
    forall m: MessageId
      ensures Places(Do(limit, s, step), m) == if m in Do(limit, s, step).bodies then 1 else 0
    {
      StepPlaces(limit, s, step, m);
    }
    hide Do, Places, Enabled;
  }

  /** What finishing a job may do: nothing, or move the one message its channel still holds. */
  lemma FinishFrame(limit: nat, s: State, job: JobId, sent: bool)
    requires MayFinish(s, job)
    ensures var t := FinishJob(limit, s, job, sent);
      && t.bodies == s.bodies && t.db == s.db && t.live == s.live && t.jobs == s.jobs - {job}
      && var m := s.jobs[job].message;
         var stage := s.jobs[job].stage;
         && (forall n <- t.acked :: n in s.acked || (n == m && stage.Decided? && stage.persisted.Ok? && stage.persisted.value != Conflicting))
         && (forall n <- t.dead :: (n in s.dead && t.dead[n] == s.dead[n])
              || (n == m && t.dead[n] == BadBody && s.bodies[m].Malformed?)
              || (n == m && t.dead[n] == Conflict && stage.Decided? && stage.persisted == Ok(Conflicting))
              || (t.dead[n].Exhausted? && t.dead[n].count > limit))
  {
    var rest := s.(jobs := s.jobs - {job});
    assert rest.bodies == s.bodies && rest.db == s.db;
  }

  lemma CloseFrame(limit: nat, s: State, session: SessionId, counted: set<MessageId>)
    ensures var t := ReturnAll(limit, s, HeldBy(s, session), counted);
      && t.bodies == s.bodies && t.db == s.db && t.acked == s.acked && t.jobs == s.jobs
      && (forall n <- t.dead :: (n in s.dead && t.dead[n] == s.dead[n]) || (t.dead[n].Exhausted? && t.dead[n].count > limit))
  {
  }

  lemma StepGrows(limit: nat, s: State, step: Step)
    requires DbOk(s) && Enabled(s, step)
    ensures DbOk(Do(limit, s, step)) && Grows(s, Do(limit, s, step))
  {
    var t := Do(limit, s, step);
    match step
    case Route(m, body) =>
      forall e <- Events(s)
        ensures e in Events(t)
      {
        var n :| n in s.bodies && s.bodies[n].Good? && s.bodies[n].event == e;
        assert n in t.bodies && t.bodies[n] == s.bodies[n];
      }
      BackedByMore(s.db, Events(s), Events(t));
    case RunPersist(job, committed, replied) =>
      PersistGrows(limit, s, job, committed, replied);
    case Finish(job, sent) =>
      FinishFrame(limit, s, job, sent);
      hide FinishJob;
    case Close(session, counted) =>
      CloseFrame(limit, s, session, counted);
      hide ReturnAll;
    case _ =>
  }

  lemma PersistGrows(limit: nat, s: State, job: JobId, committed: bool, replied: bool)
    requires DbOk(s) && Enabled(s, RunPersist(job, committed, replied))
    ensures var t := Do(limit, s, RunPersist(job, committed, replied)); DbOk(t) && Grows(s, t)
  {
    var t := Do(limit, s, RunPersist(job, committed, replied));
    var e := s.bodies[s.jobs[job].message].event;
    PersistIsFirstWrite(s.db, CONSUMER, e, Events(s));
    PersistKeepsIds(s.db, CONSUMER, e);
    hide Transact, InboxBacked, IdsOk;
    assert e in Events(s);
    assert Events(s) + {e} == Events(s) == Events(t);
  }

  lemma StepJobs(limit: nat, s: State, step: Step)
    requires DbOk(s) && JobsOk(s) && Conserved(s) && Enabled(s, step)
    ensures JobsOk(Do(limit, s, step))
  {
    var t := Do(limit, s, step);
    StepGrows(limit, s, step);
    GrowsKeeps(s, t);
    match step
    case RunPersist(job, committed, replied) =>
      PersistOutcome(limit, s, job, committed, replied);
      hide DbOk, Safe, Clashes, Transact;
    case Deliver(job, m, session) =>
      assert Places(s, m) == 1;
      hide DbOk, Safe, Clashes;
    case Finish(job, sent) =>
      FinishFrame(limit, s, job, sent);
      hide DbOk, Safe, Clashes, FinishJob;
    case Close(session, counted) =>
      CloseFrame(limit, s, session, counted);
      hide DbOk, Safe, Clashes, ReturnAll;
    case _ =>
      hide DbOk, Safe, Clashes;
  }

  /** What the worker learns from the reply is true of the database. */
  lemma PersistOutcome(limit: nat, s: State, job: JobId, committed: bool, replied: bool)
    requires DbOk(s) && Enabled(s, RunPersist(job, committed, replied))
    ensures var t := Do(limit, s, RunPersist(job, committed, replied)); JobOk(t, t.jobs[job])
    ensures forall j <- s.jobs :: j != job ==> Do(limit, s, RunPersist(job, committed, replied)).jobs[j] == s.jobs[j]
  {
    var e := s.bodies[s.jobs[job].message].event;
    assert e in Events(s);
    PersistIsFirstWrite(s.db, CONSUMER, e, Events(s));
    hide InboxBacked, IdsOk, SameEvent;
  }

  /** Ends that were true stay true while the database only grows; a message past the limit needs no more. */
  lemma EndsGrow(limit: nat, s: State, t: State)
    requires EndsOk(limit, s) && Grows(s, t)
    requires forall n <- t.acked :: n in s.acked || Safe(t, n)
    requires forall n <- t.dead :: (n in s.dead && t.dead[n] == s.dead[n]) || DeadOk(limit, t, n)
    ensures EndsOk(limit, t)
  {
    GrowsKeeps(s, t);
    hide Safe, Clashes, Grows;
  }

  lemma FinishEnds(limit: nat, s: State, job: JobId, sent: bool)
    requires JobsOk(s) && EndsOk(limit, s) && MayFinish(s, job)
    ensures EndsOk(limit, FinishJob(limit, s, job, sent))
  {
    var t := FinishJob(limit, s, job, sent);
    FinishFrame(limit, s, job, sent);
    assert JobOk(s, s.jobs[job]);
    hide FinishJob, JobsOk, EndsOk;
    assert Grows(s, t);
    GrowsKeeps(s, t);
    hide Safe, Clashes, Grows;
    EndsGrow(limit, s, t);
  }

  lemma StepEnds(limit: nat, s: State, step: Step)
    requires DbOk(s) && JobsOk(s) && EndsOk(limit, s) && Enabled(s, step)
    ensures EndsOk(limit, Do(limit, s, step))
  {
    hide DbOk, JobsOk, EndsOk, Safe, Clashes, Transact;
    match step
    case Finish(job, sent) => FinishEnds(limit, s, job, sent);
    case Close(session, counted) =>
      StepGrows(limit, s, step);
      CloseFrame(limit, s, session, counted);
      hide ReturnAll;
      EndsGrow(limit, s, Do(limit, s, step));
    case _ =>
      StepGrows(limit, s, step);
      EndsGrow(limit, s, Do(limit, s, step));
  }

  lemma StepKeeps(limit: nat, s: State, step: Step)
    requires Inv(limit, s) && Enabled(s, step)
    ensures Inv(limit, Do(limit, s, step)) && Grows(s, Do(limit, s, step))
  {
    hide Do, Conserved, DbOk, JobsOk, EndsOk, Grows;
    StepConserves(limit, s, step);
    StepGrows(limit, s, step);
    StepJobs(limit, s, step);
    StepEnds(limit, s, step);
  }

  lemma {:induction false} RunKeeps(limit: nat, s: State, steps: seq<Step>)
    requires Inv(limit, s) && Runs(limit, s, steps)
    ensures Inv(limit, After(limit, s, steps)) && Grows(s, After(limit, s, steps))
    decreases |steps|
  {
    if steps != [] {
      var next := Do(limit, s, steps[0]);
      StepKeeps(limit, s, steps[0]);
      RunKeeps(limit, next, steps[1..]);
      GrowsOnward(s, next, After(limit, next, steps[1..]));
    }
  }

  lemma GrowsOnward(s: State, t: State, u: State)
    requires Grows(s, t) && Grows(t, u)
    ensures Grows(s, u)
  {
  }

  lemma InitialOk(limit: nat)
    ensures Inv(limit, INITIAL)
  {
  }

  /** The channel that carries the job's message is still open and still holds it. */
  predicate StillHolds(s: State, job: JobId) {
    && job in s.jobs && s.jobs[job].session in s.live && s.jobs[job].message in s.unacked
    && s.unacked[s.jobs[job].message].session == s.jobs[job].session
  }

  /** What the broker does with the message of a job that finishes on its own channel: each verdict moves it to one place. */
  lemma FinishMoves(limit: nat, s: State, job: JobId)
    requires MayFinish(s, job) && StillHolds(s, job)
    ensures var t := Do(limit, s, Finish(job, true));
      var m := s.jobs[job].message;
      var stage := s.jobs[job].stage;
      var count := s.unacked[m].count + 1;
      && t.unacked == s.unacked - {m} && t.db == s.db && t.bodies == s.bodies && job !in t.jobs
      && (s.bodies[m].Malformed? ==> t.dead == s.dead[m := BadBody] && t.acked == s.acked && t.queued == s.queued)
      && (s.bodies[m].Good? && stage.persisted == Ok(Conflicting) ==>
            t.dead == s.dead[m := Conflict] && t.acked == s.acked && t.queued == s.queued)
      && (s.bodies[m].Good? && stage.persisted.Ok? && stage.persisted != Ok(Conflicting) ==>
            t.acked == s.acked + {m} && t.dead == s.dead && t.queued == s.queued)
      && (s.bodies[m].Good? && stage.persisted.Err? ==>
            t.acked == s.acked && if count <= limit then t.queued == s.queued[m := count] && t.dead == s.dead
                                  else t.queued == s.queued && t.dead == s.dead[m := Exhausted(count)])
  {
  }

  /** An undisturbed delivery of a waiting event that contradicts nothing: after three steps it is acknowledged and stored. */
  lemma DeliveryStores(limit: nat, steps: seq<Step>, job: JobId, m: MessageId, session: SessionId)
    requires Runs(limit, INITIAL, steps)
    requires var s := After(limit, INITIAL, steps);
      && job !in s.jobs && m in s.queued && session in s.live && m in s.bodies && s.bodies[m].Good?
      && !Contradicts(s.db.inbox, s.db.messages, s.bodies[m].event)
    ensures var s := After(limit, INITIAL, steps);
      && Enabled(s, Deliver(job, m, session))
      && var t := Do(limit, s, Deliver(job, m, session));
         && Enabled(t, RunPersist(job, true, true))
         && var u := Do(limit, t, RunPersist(job, true, true));
            && Enabled(u, Finish(job, true))
            && var v := Do(limit, u, Finish(job, true));
               m in v.acked && m !in v.unacked && Holds(v.db, s.bodies[m].event)
  {
    InitialOk(limit);
    RunKeeps(limit, INITIAL, steps);
    var s := After(limit, INITIAL, steps);
    hide Conserved, JobsOk, EndsOk, DbOk, Runs, After, Transact, Holds;
    DeliverThenPersist(limit, s, job, m, session);
    var u := Do(limit, Do(limit, s, Deliver(job, m, session)), RunPersist(job, true, true));
    FinishMoves(limit, u, job);
    hide Do, Transact;
  }

  lemma DeliverThenPersist(limit: nat, s: State, job: JobId, m: MessageId, session: SessionId)
    requires DbOk(s) && job !in s.jobs && m in s.queued && session in s.live && m in s.bodies && s.bodies[m].Good?
    requires !Contradicts(s.db.inbox, s.db.messages, s.bodies[m].event)
    ensures Enabled(s, Deliver(job, m, session))
    ensures var t := Do(limit, s, Deliver(job, m, session));
      && Enabled(t, RunPersist(job, true, true))
      && var u := Do(limit, t, RunPersist(job, true, true));
         && MayFinish(u, job) && StillHolds(u, job) && u.bodies == s.bodies
         && u.jobs[job].message == m && u.jobs[job].stage.persisted.Ok? && u.jobs[job].stage.persisted.value != Conflicting
         && Holds(u.db, s.bodies[m].event)
  {
    var e := s.bodies[m].event;
    assert e in Events(s);
    PersistIsFirstWrite(s.db, CONSUMER, e, Events(s));
    PersistAnswers(s.db, e);
    hide Transact, InboxBacked, Holds, Events, OneMeaning, IdsOk, Contradicts;
  }

  lemma PersistAnswers(db: Db, e: Event)
    ensures Transact(db, CONSUMER, e).1 == Conflicting <==> Contradicts(db.inbox, db.messages, e)
  {
  }

  /**
   In every run each routed event is queued, held by a consumer, dead-lettered or acknowledged, and in no
   two of these at once: worker failures, lost verdicts and session restarts neither lose nor duplicate it.
   */
  lemma EveryEventInOnePlace(limit: nat, steps: seq<Step>)
    requires Runs(limit, INITIAL, steps)
    ensures var s := After(limit, INITIAL, steps);
      && s.queued.Keys + s.unacked.Keys + s.dead.Keys + s.acked == s.bodies.Keys
      && s.queued.Keys !! s.unacked.Keys !! s.dead.Keys !! s.acked
  {
    InitialOk(limit);
    RunKeeps(limit, INITIAL, steps);
    var s := After(limit, INITIAL, steps);
    hide DbOk, JobsOk, EndsOk, Runs, After, Grows;
    assert forall m: MessageId :: Places(s, m) == if m in s.bodies then 1 else 0;
  }

  /** An acknowledged event is stored under its business key with the very content it carried, for good. */
  lemma AckedIsStored(limit: nat, steps: seq<Step>, later: seq<Step>, m: MessageId)
    requires Runs(limit, INITIAL, steps) && m in After(limit, INITIAL, steps).acked
    requires Runs(limit, After(limit, INITIAL, steps), later)
    ensures var s := After(limit, After(limit, INITIAL, steps), later);
      m in s.bodies && s.bodies[m].Good? && Holds(s.db, s.bodies[m].event)
  {
    InitialOk(limit);
    RunKeeps(limit, INITIAL, steps);
    RunKeeps(limit, After(limit, INITIAL, steps), later);
    assert Safe(After(limit, INITIAL, steps), m);
  }

  /** The dead-letter queue holds malformed bodies, contradictions of a stored message, and messages past the delivery limit. */
  lemma DeadForAReason(limit: nat, steps: seq<Step>, m: MessageId)
    requires Runs(limit, INITIAL, steps) && m in After(limit, INITIAL, steps).dead
    ensures var s := After(limit, INITIAL, steps);
      match s.dead[m]
      case BadBody => m in s.bodies && s.bodies[m].Malformed?
      case Conflict => m in s.bodies && s.bodies[m].Good? && !Holds(s.db, s.bodies[m].event) && s.bodies[m].event.key in s.db.messages
      case Exhausted(count) => count > limit
  {
    InitialOk(limit);
    RunKeeps(limit, INITIAL, steps);
    assert DeadOk(limit, After(limit, INITIAL, steps), m);
  }

  /** Being dead-lettered does not mean being lost: commits whose replies never arrive exhaust the limit of a stored event. */
  lemma DeadMayBeStored()
    ensures exists steps: seq<Step> :: Runs(1, INITIAL, steps) && DeadAndStored(After(1, INITIAL, steps))
  {
    var e := Event(5, Key(7, 42, 1), "hello", 0);
    var round := [Deliver(0, 0, 0), RunPersist(0, true, false), Finish(0, true)];
    var s1 := Do(1, INITIAL, Route(0, Good(e)));
    var s2 := Do(1, s1, Open(0));
    var s3, s4 := Rejected(e, 1), Rejected(e, 2);
    assert s2 == Rejected(e, 0);
    RoundRuns(e, 1, []);
    RoundRuns(e, 0, round + []);
    var steps := [Open(0)] + (round + (round + []));
    Prefixed(1, s1, Open(0), round + (round + []));
    Prefixed(1, INITIAL, Route(0, Good(e)), steps);
    assert DeadAndStored(s4);
  }

  lemma Prefixed(limit: nat, s: State, step: Step, rest: seq<Step>)
    requires Enabled(s, step) && Runs(limit, Do(limit, s, step), rest)
    ensures Runs(limit, s, [step] + rest) && After(limit, s, [step] + rest) == After(limit, Do(limit, s, step), rest)
  {
    assert ([step] + rest)[1..] == rest;
  }

  predicate DeadAndStored(s: State) {
    0 in s.dead && 0 in s.bodies && s.bodies[0].Good? && Holds(s.db, s.bodies[0].event)
  }

  /** One event after n rejected deliveries, with a delivery limit of one; every delivery committed. */
  function Rejected(e: Event, n: nat): State {
    var db := if n == 0 then EMPTY else Transact(EMPTY, CONSUMER, e).0;
    var waiting := State(db, map[0 := Good(e)], map[0 := n], map[], map[], {}, {0}, map[]);
    if n <= 1 then waiting else waiting.(queued := map[], dead := map[0 := Exhausted(n)])
  }

  lemma RoundStates(e: Event, n: nat)
    requires n <= 1
    ensures var s := Rejected(e, n);
      && Enabled(s, Deliver(0, 0, 0))
      && var a := Do(1, s, Deliver(0, 0, 0));
         && Enabled(a, RunPersist(0, true, false))
         && var b := Do(1, a, RunPersist(0, true, false));
            && Enabled(b, Finish(0, true)) && Do(1, b, Finish(0, true)) == Rejected(e, n + 1)
  {
  }

  lemma RoundRuns(e: Event, n: nat, rest: seq<Step>)
    requires n <= 1 && Runs(1, Rejected(e, n + 1), rest)
    ensures var steps := [Deliver(0, 0, 0), RunPersist(0, true, false), Finish(0, true)] + rest;
      Runs(1, Rejected(e, n), steps) && After(1, Rejected(e, n), steps) == After(1, Rejected(e, n + 1), rest)
  {
    RoundStates(e, n);
    hide Rejected, Do, Enabled, Runs, After;
    var s := Rejected(e, n);
    var steps := [Deliver(0, 0, 0), RunPersist(0, true, false), Finish(0, true)] + rest;
    var a := Do(1, s, Deliver(0, 0, 0));
    var b := Do(1, a, RunPersist(0, true, false));
    Prefixed(1, b, Finish(0, true), rest);
    Prefixed(1, a, RunPersist(0, true, false), [Finish(0, true)] + rest);
    Prefixed(1, s, Deliver(0, 0, 0), [RunPersist(0, true, false)] + ([Finish(0, true)] + rest));
    assert steps == [Deliver(0, 0, 0)] + ([RunPersist(0, true, false)] + ([Finish(0, true)] + rest));
  }
}
