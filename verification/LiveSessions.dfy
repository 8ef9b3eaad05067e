/** live_sessions with its constraints, and the two conditional transitions on it; ending also writes the outbox, in one transaction. */
module LiveSessions {
  import opened Prelude

  type SessionId = nat
  type UserId = nat

  datatype Status = Scheduled | Live | Ended

  datatype Session = Session(host: UserId, status: Status)

  /** SHA-256 of "type:id", taken as injective. */
  datatype StableId = LiveSessionEnded(session: SessionId)

  datatype Event = Event(session: SessionId, host: UserId, endedAt: int)

  /** Ids come from a counter that starts at one. */
  datatype Db = Db(sessions: map<SessionId, Session>, outbox: map<StableId, Event>, nextId: SessionId)

  const EMPTY := Db(map[], map[], 1)

  /** uk_live_sessions_active_host: another LIVE session of this host. */
  predicate HostIsLive(db: Db, host: UserId, besides: SessionId) {
    exists id <- db.sessions :: id != besides && db.sessions[id] == Session(host, Live)
  }

  datatype UpdateError = DuplicateKey | RolledBack

  function Create(db: Db, host: UserId): Db {
    db.(sessions := db.sessions[db.nextId := Session(host, Scheduled)], nextId := db.nextId + 1)
  }

  predicate Matches(db: Db, id: SessionId, host: UserId, status: Status) {
    id in db.sessions && db.sessions[id] == Session(host, status)
  }

  /** UPDATE ... SET status = 'LIVE' WHERE id, host and SCHEDULED. */
  function Start(db: Db, id: SessionId, host: UserId): (Db, Result<bool, UpdateError>) {
    if !Matches(db, id, host, Scheduled) then (db, Ok(false))
    else if HostIsLive(db, host, id) then (db, Err(DuplicateKey))
    else (db.(sessions := db.sessions[id := Session(host, Live)]), Ok(true))
  }

  /** The envelope check of a live_session.ended event. */
  predicate ValidEvent(e: Event) {
    e.session > 0 && e.host > 0
  }

  /** The transaction: the transition and its outbox row, or neither. */
  function End(db: Db, id: SessionId, host: UserId, at: int): (Db, Result<bool, UpdateError>) {
    if !Matches(db, id, host, Live) then (db, Ok(false))
    else if !ValidEvent(Event(id, host, at)) || LiveSessionEnded(id) in db.outbox then (db, Err(RolledBack))
    else (db.(sessions := db.sessions[id := Session(host, Ended)],
              outbox := db.outbox[LiveSessionEnded(id) := Event(id, host, at)]), Ok(true))
  }

  class Repository {
    var sessions: map<SessionId, Session>
    var outbox: map<StableId, Event>
    var nextId: SessionId

    function View(): Db
      reads this
    {
      Db(sessions, outbox, nextId)
    }

    constructor ()
      ensures View() == EMPTY
    {
      sessions, outbox, nextId := map[], map[], 1;
    }

    method Insert(host: UserId) returns (id: SessionId)
      modifies this
      ensures id == old(nextId) && View() == Create(old(View()), host)
      ensures sessions == old(sessions)[id := Session(host, Scheduled)] && outbox == old(outbox) && nextId == old(nextId) + 1
    {
      id := nextId;
      sessions := sessions[id := Session(host, Scheduled)];
      nextId := nextId + 1;
    }

    method StartSession(id: SessionId, host: UserId) returns (updated: Result<bool, UpdateError>)
      modifies this`sessions
      ensures (View(), updated) == Start(old(View()), id, host)
      ensures var mine := id in old(sessions) && old(sessions)[id] == Session(host, Scheduled);
              var taken := exists other <- old(sessions) :: other != id && old(sessions)[other].host == host && old(sessions)[other].status == Live;
              updated == if !mine then Ok(false) else if taken then Err(DuplicateKey) else Ok(true)
      ensures sessions == if updated == Ok(true) then old(sessions)[id := Session(host, Live)] else old(sessions)
    {
      if !(id in sessions && sessions[id].host == host && sessions[id].status == Scheduled) {
        return Ok(false);
      }
      if exists other <- sessions :: other != id && sessions[other].host == host && sessions[other].status == Live {
        assert HostIsLive(View(), host, id);
        return Err(DuplicateKey);
      }
      assert !HostIsLive(View(), host, id);
      sessions := sessions[id := sessions[id].(status := Live)];
      return Ok(true);
    }

    /** `broken` names a statement that fails: 1 the insert of the outbox row, 2 the final read. Either undoes the transition. */
    method EndSession(id: SessionId, host: UserId, at: int, broken: nat) returns (updated: Result<bool, UpdateError>)
      modifies this
      ensures updated.Err? ==> View() == old(View())
      ensures broken == 0 || updated.Ok? ==> (View(), updated) == End(old(View()), id, host, at)
      ensures updated == Ok(true) ==> broken != 1 && broken != 2
      ensures var mine := id in old(sessions) && old(sessions)[id] == Session(host, Live);
              && (updated == Ok(false) <==> !mine)
              && (updated == Ok(true) <==>
                    mine && broken != 1 && broken != 2 && id > 0 && host > 0 && LiveSessionEnded(id) !in old(outbox))
      ensures sessions == if updated == Ok(true) then old(sessions)[id := Session(host, Ended)] else old(sessions)
      ensures outbox == if updated == Ok(true) then old(outbox)[LiveSessionEnded(id) := Event(id, host, at)] else old(outbox)
    {
      var sessionsBefore, outboxBefore := sessions, outbox;
      if !(id in sessions && sessions[id].host == host && sessions[id].status == Live) {
        return Ok(false);
      }
      sessions := sessions[id := sessions[id].(status := Ended)];
      var event := Event(id, host, at);
      if !ValidEvent(event) || broken == 1 || LiveSessionEnded(id) in outbox {
        sessions := sessionsBefore;
        return Err(RolledBack);
      }
      outbox := outbox[LiveSessionEnded(id) := event];
      if broken == 2 {
        sessions, outbox := sessionsBefore, outboxBefore;
        return Err(RolledBack);
      }
      return Ok(true);
    }
  }
}

/** The service's Create, Start and End, interleaved at every database call by any number of concurrent requests. */
module SessionMachine {
  import opened Prelude
  import opened LiveSessions

  type CallId = nat

  datatype Kind = Starting | Ending

  datatype Refusal = NotFound | Forbidden | InvalidState | HostAlreadyLive | Failed

  /** A Start or End call: it has read the session, has made its update, or has answered. */
  datatype Call = Reading(kind: Kind, session: SessionId, user: UserId)
                | Checked(kind: Kind, session: SessionId, user: UserId)
                | Updated(kind: Kind, session: SessionId, user: UserId)
                | Answered(kind: Kind, session: SessionId, user: UserId, refusal: Option<Refusal>)

  /** `log` is history: which call made which transition. */
  datatype Transition = Transition(kind: Kind, session: SessionId, call: CallId)

  datatype State = State(db: Db, calls: map<CallId, Call>, log: seq<Transition>)

  datatype Step = NewSession(host: UserId)
                | Begin(call: CallId, kind: Kind, session: SessionId, user: UserId)
                | Read(call: CallId, fails: bool)
                | Update(call: CallId, at: int, fails: bool, replyLost: bool)
                | Reread(call: CallId, fails: bool)

  const INITIAL := State(EMPTY, map[], [])

  predicate Enabled(s: State, step: Step) {
    match step
    case NewSession(_) => true
    case Begin(c, _, _, _) => c !in s.calls
    case Read(c, _) => c in s.calls && s.calls[c].Reading?
    case Update(c, _, _, _) => c in s.calls && s.calls[c].Checked?
    case Reread(c, _) => c in s.calls && s.calls[c].Updated?
  }

  function Answer(s: State, c: CallId, refusal: Option<Refusal>): State
    requires c in s.calls
  {
    var call := s.calls[c];
    s.(calls := s.calls[c := Answered(call.kind, call.session, call.user, refusal)])
  }

  /** The checks a call makes on the session it read; the status may be stale by the time it updates. */
  function Check(db: Db, call: Call): Option<Refusal> {
    if call.session !in db.sessions then Some(NotFound)
    else if db.sessions[call.session].host != call.user then Some(Forbidden)
    else if db.sessions[call.session].status != (if call.kind == Starting then Scheduled else Live) then Some(InvalidState)
    else None
  }

  function Do(s: State, step: Step): State
    requires Enabled(s, step)
  {
    match step
    case NewSession(host) => s.(db := Create(s.db, host))
    case Begin(c, kind, session, user) => s.(calls := s.calls[c := Reading(kind, session, user)])
    case Read(c, fails) =>
      var call := s.calls[c];
      var refusal := if fails then Some(Failed) else Check(s.db, call);
      if refusal.Some? then Answer(s, c, refusal)
      else s.(calls := s.calls[c := Checked(call.kind, call.session, call.user)])
    case Update(c, at, fails, replyLost) => if fails then Answer(s, c, Some(Failed)) else DoUpdate(s, c, at, replyLost)
    case Reread(c, fails) => Answer(s, c, if fails then Some(Failed) else None)
  }

  function DoUpdate(s: State, c: CallId, at: int, replyLost: bool): State
    requires c in s.calls && s.calls[c].Checked?
  {
    var call := s.calls[c];
    var (db, updated) := if call.kind == Starting then Start(s.db, call.session, call.user) else End(s.db, call.session, call.user, at);
    var t := s.(db := db, log := if updated == Ok(true) then s.log + [Transition(call.kind, call.session, c)] else s.log);
    if replyLost then Answer(t, c, Some(Failed))
    else match updated
      case Err(DuplicateKey) => Answer(t, c, Some(HostAlreadyLive))
      case Err(RolledBack) => Answer(t, c, Some(Failed))
      case Ok(false) => Answer(t, c, Some(InvalidState))
      case Ok(true) =>
        if call.kind == Starting then t.(calls := t.calls[c := Updated(call.kind, call.session, call.user)])
        else Answer(t, c, None)
  }

  predicate Runs(s: State, steps: seq<Step>)
    decreases |steps|
  {
    steps != [] ==> Enabled(s, steps[0]) && Runs(Do(s, steps[0]), steps[1..])
  }

  function After(s: State, steps: seq<Step>): State
    requires Runs(s, steps)
    decreases |steps|
  {
    if steps == [] then s else After(Do(s, steps[0]), steps[1..])
  }

  // ---- The invariant ----

  predicate Made(s: State, kind: Kind, id: SessionId) {
    exists i :: 0 <= i < |s.log| && s.log[i].kind == kind && s.log[i].session == id
  }

  predicate BothLive(x: Session, y: Session) {
    x.host == y.host && x.status == Live && y.status == Live
  }

  predicate DbOk(db: Db) {
    && 0 < db.nextId && (forall id <- db.sessions :: 0 < id < db.nextId)
    && (forall x <- db.outbox :: x.session in db.sessions && db.sessions[x.session].status == Ended
                                 && db.outbox[x].session == x.session && db.outbox[x].host == db.sessions[x.session].host)
    && (forall id <- db.sessions :: db.sessions[id].status == Ended ==> LiveSessionEnded(id) in db.outbox)
    && (forall a <- db.sessions, b <- db.sessions :: BothLive(db.sessions[a], db.sessions[b]) ==> a == b)
  }

  predicate StatusLogged(s: State, id: SessionId)
    requires id in s.db.sessions
  {
    && (Made(s, Starting, id) <==> s.db.sessions[id].status != Scheduled)
    && (Made(s, Ending, id) <==> s.db.sessions[id].status == Ended)
  }

  predicate LoggedOnce(s: State) {
    forall i, j :: 0 <= i < j < |s.log| ==>
      (s.log[i].kind, s.log[i].session) != (s.log[j].kind, s.log[j].session) && s.log[i].call != s.log[j].call
  }

  /** Per session the log holds exactly the transitions its status says, each once. */
  predicate LogOk(s: State) {
    && (forall i :: 0 <= i < |s.log| ==> s.log[i].session in s.db.sessions && s.log[i].call in s.calls)
    && (forall id <- s.db.sessions :: StatusLogged(s, id))
    && LoggedOnce(s)
  }

  predicate Owns(s: State, c: CallId, call: Call) {
    exists i :: 0 <= i < |s.log| && s.log[i] == Transition(call.kind, call.session, c)
  }

  /** Not yet updated, or refused by a check or a lost race. Only an answer of Failed leaves it open. */
  predicate MadeNothing(call: Call) {
    call.Reading? || call.Checked? || (call.Answered? && call.refusal.Some? && call.refusal != Some(Failed))
  }

  predicate Succeeded(call: Call) {
    call.Updated? || (call.Answered? && call.refusal == None)
  }

  predicate CallsOk(s: State) {
    forall c <- s.calls ::
      && (MadeNothing(s.calls[c]) ==> forall i :: 0 <= i < |s.log| ==> s.log[i].call != c)
      && (Succeeded(s.calls[c]) ==> Owns(s, c, s.calls[c]))
  }

  predicate Inv(s: State) {
    DbOk(s.db) && LogOk(s) && CallsOk(s)
  }

  lemma StartKeepsDb(db: Db, id: SessionId, host: UserId)
    requires DbOk(db)
    ensures DbOk(Start(db, id, host).0)
  {
  }

  lemma EndKeepsDb(db: Db, id: SessionId, host: UserId, at: int)
    requires DbOk(db)
    ensures DbOk(End(db, id, host, at).0)
  {
  }

  /** An update that went through is logged: the log and the statuses move together. */
  lemma TransitionKeeps(s: State, t: State, c: CallId, call: Call)
    requires Inv(s) && c in s.calls && s.calls[c] == call && call.Checked?
    requires t.log == s.log + [Transition(call.kind, call.session, c)] && t.calls.Keys == s.calls.Keys
    requires call.session in s.db.sessions
    requires t.db.sessions == s.db.sessions[call.session := s.db.sessions[call.session].(status := if call.kind == Starting then Live else Ended)]
    requires s.db.sessions[call.session].status == (if call.kind == Starting then Scheduled else Live)
    ensures LogOk(t)
    ensures forall d: CallId, k: Call :: Owns(s, d, k) ==> Owns(t, d, k)
    ensures Owns(t, c, call)
  {
    MadeGrows(s, t, c, call);
    assert StatusLogged(s, call.session);
    NotMadeTwice(s, t, c, call);
    hide Made, LoggedOnce;
    forall id <- t.db.sessions
      ensures StatusLogged(t, id)
    {
      assert StatusLogged(s, id);
    }
    hide StatusLogged;
  }

  lemma NotMadeTwice(s: State, t: State, c: CallId, call: Call)
    requires LoggedOnce(s) && !Made(s, call.kind, call.session)
    requires forall i :: 0 <= i < |s.log| ==> s.log[i].call != c
    requires t.log == s.log + [Transition(call.kind, call.session, c)]
    ensures LoggedOnce(t)
  {
    hide Made;
    var n := |s.log|;
    forall i, j | 0 <= i < j < |t.log|
      ensures (t.log[i].kind, t.log[i].session) != (t.log[j].kind, t.log[j].session) && t.log[i].call != t.log[j].call
    {
      MadeHas(s, i);
    }
  }

  lemma MadeHas(s: State, i: nat)
    requires i < |s.log|
    ensures Made(s, s.log[i].kind, s.log[i].session)
  {
  }

  lemma MadeGrows(s: State, t: State, c: CallId, call: Call)
    requires t.log == s.log + [Transition(call.kind, call.session, c)]
    ensures forall kind: Kind, id: SessionId :: Made(t, kind, id) <==> Made(s, kind, id) || (kind == call.kind && id == call.session)
    ensures forall d: CallId, k: Call :: Owns(s, d, k) ==> Owns(t, d, k)
    ensures Owns(t, c, call)
  {
    var n := |s.log|;
    assert t.log[n] == Transition(call.kind, call.session, c);
    assert forall i :: 0 <= i < n ==> t.log[i] == s.log[i];
  }

  /** What an update does to the database: one transition of the named row, or nothing. */
  lemma UpdateFrame(s: State, c: CallId, at: int, replyLost: bool)
    requires c in s.calls && s.calls[c].Checked?
    ensures var call, t := s.calls[c], DoUpdate(s, c, at, replyLost);
      && t.calls == s.calls[c := t.calls[c]]
      && t.calls[c].kind == call.kind && t.calls[c].session == call.session
      && (if t.log == s.log
          then t.db == s.db && !Succeeded(t.calls[c])
          else && t.log == s.log + [Transition(call.kind, call.session, c)]
               && !MadeNothing(t.calls[c])
               && Matches(s.db, call.session, call.user, if call.kind == Starting then Scheduled else Live)
               && t.db.sessions == s.db.sessions[call.session := Session(call.user, if call.kind == Starting then Live else Ended)])
  {
  }

  lemma UpdateKeepsDb(s: State, c: CallId, at: int, replyLost: bool)
    requires DbOk(s.db) && c in s.calls && s.calls[c].Checked?
    ensures DbOk(DoUpdate(s, c, at, replyLost).db)
  {
    hide DbOk;
    var call := s.calls[c];
    StartKeepsDb(s.db, call.session, call.user);
    EndKeepsDb(s.db, call.session, call.user, at);
    hide Start, End;
  }

  lemma UpdateKeeps(s: State, c: CallId, at: int, replyLost: bool)
    requires Inv(s) && c in s.calls && s.calls[c].Checked?
    ensures Inv(DoUpdate(s, c, at, replyLost))
  {
    hide DbOk;
    UpdateFrame(s, c, at, replyLost);
    UpdateKeepsDb(s, c, at, replyLost);
    var t := DoUpdate(s, c, at, replyLost);
    hide DoUpdate;
    if t.log == s.log {
      SameLog(s, t);
      SameCalls(s, t, c);
    } else {
      TransitionKeeps(s, t, c, s.calls[c]);
      CallUpdated(s, t, c);
    }
  }

  lemma CallUpdated(s: State, t: State, c: CallId)
    requires CallsOk(s) && c in s.calls && s.calls[c].Checked?
    requires c in t.calls && t.calls == s.calls[c := t.calls[c]]
    requires !MadeNothing(t.calls[c])
    requires t.calls[c].kind == s.calls[c].kind && t.calls[c].session == s.calls[c].session
    requires t.log == s.log + [Transition(s.calls[c].kind, s.calls[c].session, c)]
    requires forall d: CallId, k: Call :: Owns(s, d, k) ==> Owns(t, d, k)
    ensures CallsOk(t)
  {
    assert t.log[|s.log|] == Transition(t.calls[c].kind, t.calls[c].session, c);
    assert Owns(t, c, t.calls[c]);
  }

  /** A step that changes one call and no transition: the call may only move on if it may claim what it claims. */
  lemma SameCalls(s: State, t: State, c: CallId)
    requires CallsOk(s) && t.log == s.log && c in t.calls && t.calls == s.calls[c := t.calls[c]]
    requires MadeNothing(t.calls[c]) ==> forall i :: 0 <= i < |s.log| ==> s.log[i].call != c
    requires Succeeded(t.calls[c]) ==> Owns(s, c, t.calls[c])
    ensures CallsOk(t)
  {
    assert forall d: CallId, k: Call :: Owns(s, d, k) == Owns(t, d, k);
  }

  lemma SameLog(s: State, t: State)
    requires LogOk(s) && t.log == s.log && s.calls.Keys <= t.calls.Keys
    requires forall id <- s.db.sessions :: id in t.db.sessions && t.db.sessions[id] == s.db.sessions[id]
    requires forall id <- t.db.sessions :: id !in s.db.sessions ==> t.db.sessions[id].status == Scheduled
    ensures LogOk(t)
  {
    forall kind: Kind, id: SessionId
      ensures Made(t, kind, id) == Made(s, kind, id)
      ensures Made(t, kind, id) ==> id in s.db.sessions
    {
    }
    hide Made;
    forall id <- t.db.sessions
      ensures StatusLogged(t, id)
    {
      assert id in s.db.sessions ==> StatusLogged(s, id);
    }
  }

  lemma CreateKeepsDb(db: Db, host: UserId)
    requires DbOk(db)
    ensures DbOk(Create(db, host))
  {
  }

  lemma NewSessionKeeps(s: State, host: UserId)
    requires Inv(s)
    ensures Inv(s.(db := Create(s.db, host)))
  {
    var t := s.(db := Create(s.db, host));
    CreateKeepsDb(s.db, host);
    assert forall id <- s.db.sessions :: id in t.db.sessions && t.db.sessions[id] == s.db.sessions[id] by {
      assert forall id <- s.db.sessions :: id != s.db.nextId;
    }
    hide DbOk;
    SameLog(s, t);
    hide LogOk;
    assert forall d: CallId, k: Call :: Owns(s, d, k) == Owns(t, d, k);
  }

  lemma StepKeeps(s: State, step: Step)
    requires Inv(s) && Enabled(s, step)
    ensures Inv(Do(s, step))
  {
    hide DbOk;
    var t := Do(s, step);
    match step
    case NewSession(host) => NewSessionKeeps(s, host);
    case Update(c, at, fails, replyLost) =>
      if fails {
        SameLog(s, t);
        SameCalls(s, t, c);
      } else {
        UpdateKeeps(s, c, at, replyLost);
        hide Inv;
      }
    case _ =>
      var c := step.call;
      SameLog(s, t);
      SameCalls(s, t, c);
  }

  lemma {:induction false} RunKeeps(s: State, steps: seq<Step>)
    requires Inv(s) && Runs(s, steps)
    ensures Inv(After(s, steps))
    decreases |steps|
  {
    hide Inv, Do;
    if steps != [] {
      StepKeeps(s, steps[0]);
      RunKeeps(Do(s, steps[0]), steps[1..]);
    }
  }

  /** In any interleaving a session goes live at most once and ends at most once, and no call makes two transitions. */
  lemma TransitionsHappenOnce(steps: seq<Step>, i: nat, j: nat)
    requires Runs(INITIAL, steps)
    requires var log := After(INITIAL, steps).log;
      i < |log| && j < |log| && ((log[i].kind == log[j].kind && log[i].session == log[j].session) || log[i].call == log[j].call)
    ensures i == j
  {
    RunKeeps(INITIAL, steps);
  }

  /** A call that answered success made its own transition; one refused by a check or a lost race made none. */
  lemma SuccessOwnsItsTransition(steps: seq<Step>, c: CallId)
    requires Runs(INITIAL, steps) && c in After(INITIAL, steps).calls && After(INITIAL, steps).calls[c].Answered?
    ensures var s := After(INITIAL, steps);
      var made := exists i :: 0 <= i < |s.log| && s.log[i] == Transition(s.calls[c].kind, s.calls[c].session, c);
      match s.calls[c].refusal
      case None => made
      case Some(Failed) => true
      case Some(_) => forall i :: 0 <= i < |s.log| ==> s.log[i].call != c
  {
    RunKeeps(INITIAL, steps);
  }

  /** The first two database calls of a request, with none of another in between and none failing. */
  function AfterAlone(s: State, c: CallId, kind: Kind, id: SessionId, user: UserId): State
    requires c !in s.calls
  {
    Do(Do(s, Begin(c, kind, id, user)), Read(c, false))
  }

  /**
   An undisturbed Start: refused for an unknown session, another's session, or one that is not scheduled; then refused exactly
   when the host has a LIVE session; and otherwise the session is LIVE.
   */
  lemma StartAlone(s: State, c: CallId, id: SessionId, user: UserId, at: int)
    requires c !in s.calls
    ensures var t := AfterAlone(s, c, Starting, id, user);
      && c in t.calls && t.db == s.db
      && if id !in s.db.sessions then t.calls[c] == Answered(Starting, id, user, Some(NotFound))
         else if s.db.sessions[id].host != user then t.calls[c] == Answered(Starting, id, user, Some(Forbidden))
         else if s.db.sessions[id].status != Scheduled then t.calls[c] == Answered(Starting, id, user, Some(InvalidState))
         else
           && Enabled(t, Update(c, at, false, false))
           && var u := Do(t, Update(c, at, false, false));
              && c in u.calls
              && if exists other <- s.db.sessions :: other != id && s.db.sessions[other].host == user && s.db.sessions[other].status == Live
                 then u.calls[c] == Answered(Starting, id, user, Some(HostAlreadyLive)) && u.db == s.db
                 else u.db.sessions == s.db.sessions[id := Session(user, Live)] && u.calls[c] == Updated(Starting, id, user)
                      && Enabled(u, Reread(c, false)) && Do(u, Reread(c, false)).calls[c] == Answered(Starting, id, user, None)
  {
  }

  /** An undisturbed End of a reachable system: refused the same way, and otherwise the session is ENDED with its outbox row; user zero has no events. */
  lemma EndAlone(steps: seq<Step>, c: CallId, id: SessionId, user: UserId, at: int)
    requires Runs(INITIAL, steps) && c !in After(INITIAL, steps).calls
    ensures var s := After(INITIAL, steps);
      var t := AfterAlone(s, c, Ending, id, user);
      && c in t.calls && t.db == s.db
      && if id !in s.db.sessions then t.calls[c] == Answered(Ending, id, user, Some(NotFound))
         else if s.db.sessions[id].host != user then t.calls[c] == Answered(Ending, id, user, Some(Forbidden))
         else if s.db.sessions[id].status != Live then t.calls[c] == Answered(Ending, id, user, Some(InvalidState))
         else
           && Enabled(t, Update(c, at, false, false))
           && var u := Do(t, Update(c, at, false, false));
              && c in u.calls
              && if user == 0 then u.calls[c] == Answered(Ending, id, user, Some(Failed)) && u.db == s.db
                 else && u.calls[c] == Answered(Ending, id, user, None)
                      && u.db.sessions == s.db.sessions[id := Session(user, Ended)]
                      && u.db.outbox == s.db.outbox[LiveSessionEnded(id) := Event(id, user, at)]
  {
    RunKeeps(INITIAL, steps);
  }

  lemma OneLiveSessionPerHost(steps: seq<Step>, a: SessionId, b: SessionId)
    requires Runs(INITIAL, steps)
    requires var db := After(INITIAL, steps).db;
      a in db.sessions && b in db.sessions && db.sessions[a].host == db.sessions[b].host
      && db.sessions[a].status == Live && db.sessions[b].status == Live
    ensures a == b
  {
    RunKeeps(INITIAL, steps);
  }

  /** A session is ENDED exactly when its outbox row exists; the row carries the session and its host. */
  lemma EndedIffOutbox(steps: seq<Step>, id: SessionId)
    requires Runs(INITIAL, steps)
    ensures var db := After(INITIAL, steps).db;
      && (Matches(db, id, (if id in db.sessions then db.sessions[id].host else 0), Ended) <==> LiveSessionEnded(id) in db.outbox)
      && (LiveSessionEnded(id) in db.outbox ==>
            id in db.sessions && db.outbox[LiveSessionEnded(id)].session == id && db.outbox[LiveSessionEnded(id)].host == db.sessions[id].host)
  {
    RunKeeps(INITIAL, steps);
  }
}
