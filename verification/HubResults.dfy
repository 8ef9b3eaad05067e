/** What holds of the hub over every run, whatever the interleaving of joins, leaves, broadcasts, rooms and shutdowns. */
module HubResults {
  import opened Prelude
  import opened WsClient
  import opened WsRoom
  import opened HubMachine
  import opened HubFrames
  import opened HubSafety

  lemma HubAttached(s: State, id: SessionId)
    requires Inv(s) && id in s.hub
    ensures var r := s.hub[id]; r in s.cells && Attached(s, r) && s.cells[r].room.id == id
  {
  }

  lemma ClaimedFacts(s: State, session: SessionId, c: ClientId)
    requires Inv(s) && s.lock == Some(Claimed(session, c))
    ensures c in s.peers && !s.peers[c].client.closed && s.peers[c].home == None && session > 0 && !s.closed
  {
    assert c in s.peers;
    PeerInv(s, c);
    hide PeersOk, CellsOk, MembersOk, CallsOk, RunningOk;
  }

  lemma AddKeeps(s: State, r: RoomRef)
    requires Inv(s) && Enabled(s, AddClient(r))
    ensures Inv(Do(s, AddClient(r)))
  {
    hide Inv;
    var session, c := s.lock.value.session, s.lock.value.client;
    ClaimedFacts(s, session, c);
    var t := DoAdd(s, session, c, r);
    if session in s.hub {
      if AddError(s.cells[r].room, s.peers[c].client.closed) == None {
        AddExistingKeeps(s, session, c, r);
      } else {
        AddRefusedKeeps(s, session, c, r);
      }
    } else {
      AddNewKeeps(s, session, c, r);
    }
  }

  lemma StepKeeps(s: State, step: Step)
    requires Inv(s) && Enabled(s, step)
    ensures Inv(Do(s, step))
  {
    hide Inv, DoClaim, DoAdd, DoLeave, DoBroadcast, DoShutdown, DoDeliver, CloseAll;
    match step
    case NewClient(c, capacity) => NewClientKeeps(s, c, capacity);
    case EnterJoin(session, c) => if !s.closed { EnterKeeps(s, session, c); }
    case ClaimRoom => ClaimKeeps(s, s.lock.value.session, s.lock.value.client);
    case AddClient(r) => AddKeeps(s, r);
    case RollBack => RollBackKeeps(s, s.lock.value.session, s.lock.value.client);
    case Publish => PublishKeeps(s, s.lock.value.session, s.lock.value.client, s.lock.value.room);
    case Leave(call, session, c) => if session in s.hub { LeaveKeeps(s, call, s.hub[session], session, c); }
    case SendBroadcast(session, m) =>
      if !s.closed && session in s.hub {
        HubAttached(s, session);
        BroadcastKeeps(s, s.hub[session], m);
      }
    case EndSession(session) =>
      if session in s.hub {
        HubAttached(s, session);
        EndSessionKeeps(s, s.hub[session]);
      }
    case BeginShutdown(call) => ShutdownKeeps(s, call);
    case RequestStop(call, r) => RequestStopKeeps(s, call, r);
    case WaitDone(call) => ReturnKeeps(s, call, true);
    case GiveUp(call) => ReturnKeeps(s, call, false);
    case Receive(r) => ReceiveKeeps(s, r);
    case DeliverHeld(r) => DeliverKeeps(s, r);
    case RemoveIfEmpty(r) =>
      if Attached(s, r) && s.cells[r].room.members == {} {
        RemoveKeeps(s, r);
      } else {
        GoOnKeeps(s, r);
      }
    case MarkClosed(r) => MarkClosedKeeps(s, r);
    case StopRoom(r) => StopRoomKeeps(s, r);
    case SendAck(c, id) => AckKeeps(s, c, id);
    case Write(c) => WriteKeeps(s, c);
  }

  lemma {:induction false} RunKeeps(s: State, steps: seq<Step>)
    requires Inv(s) && Runs(s, steps)
    ensures Inv(After(s, steps))
    decreases |steps|
  {
    hide Inv, Do, Enabled;
    if steps != [] {
      StepKeeps(s, steps[0]);
      RunKeeps(Do(s, steps[0]), steps[1..]);
    }
  }

  lemma Reachable(capacity: nat, steps: seq<Step>)
    requires capacity > 0 && Runs(Initial(capacity), steps)
    ensures Inv(After(Initial(capacity), steps))
  {
    assert Alive(map[]) == {};
    RunKeeps(Initial(capacity), steps);
  }

  // ---- Who is where ----

  /** In the hub, about to be put there by the Join that made it, or taken by a Shutdown that has stopped it or still owes the stop. */
  predicate Kept(s: State, r: RoomRef)
    requires r in s.cells
  {
    || Attached(s, r)
    || Building(s, r)
    || (|s.cells[r].detached| == 1 && s.cells[r].detached[0].ByShutdown?
        && (s.cells[r].room.stop || Enabled(s, RequestStop(s.cells[r].detached[0].call, r))))
  }

  lemma MemberExactly(s: State, c: ClientId, r: RoomRef)
    requires MembersOk(s) && c in s.peers && r in s.cells
    ensures c in s.cells[r].room.members <==> s.peers[c].home == Some(r) && !s.peers[c].client.closed
    ensures c in s.cells[r].room.members ==> s.peers[c].client.joined
  {
  }

  lemma PopulatedRoomIsKept(s: State, r: RoomRef)
    requires CallsOk(s) && r in s.cells && CellOk(s, r) && s.cells[r].room.members != {}
    ensures Kept(s, r)
  {
    if !Attached(s, r) && !Building(s, r) {
      var d := s.cells[r].detached;
      assert DetachedOk(s, r, s.cells[r]) && d == [d[0]];
    }
  }

  /** A joined and open client is a member of exactly one room, which the hub or a Shutdown holds; a closed one of none. */
  lemma MembershipIsExact(capacity: nat, steps: seq<Step>, c: ClientId, r: RoomRef)
    requires capacity > 0 && Runs(Initial(capacity), steps)
    ensures var s := After(Initial(capacity), steps);
      c in s.peers && r in s.cells ==>
        var p := s.peers[c];
        && (c in s.cells[r].room.members <==> p.home == Some(r) && !p.client.closed)
        && (c in s.cells[r].room.members ==> p.client.joined && Kept(s, r))
        && (p.client.joined && !p.client.closed && !Claiming(s, c) ==> p.home.Some? && p.home.value in s.cells)
        && p.client.closes == (if p.client.closed then 1 else 0)
  {
    Reachable(capacity, steps);
    var s := After(Initial(capacity), steps);
    hide HubOk, LockOk, CallsOk, RunningOk, CellsOk, PeersOk, MembersOk;
    if c in s.peers && r in s.cells {
      PeerInv(s, c);
      CellInv(s, r);
      MemberExactly(s, c, r);
      hide Kept, CellOk, Claiming;
      if s.cells[r].room.members != {} {
        PopulatedRoomIsKept(s, r);
      }
    }
  }

  /** The room is attached, served, open to sends unless ended, and a broadcast to it is refused only for a full queue. */
  lemma AttachedRoomServes(capacity: nat, steps: seq<Step>, id: SessionId)
    requires capacity > 0 && Runs(Initial(capacity), steps) && id in After(Initial(capacity), steps).hub
    ensures var s := After(Initial(capacity), steps); s.hub[id] in s.cells
    ensures var s := After(Initial(capacity), steps);
      var cell := s.cells[s.hub[id]];
      && !s.closed && cell.room.id == id && !cell.room.closed && !cell.room.stop && cell.detached == []
      && Serving(cell.pc) && (cell.room.members == {} ==> cell.pc == Emptied)
      && (SendAllowed(cell.room) <==> !cell.room.ended)
      && EnqueueError(cell.room, capacity) == (if |cell.room.queue| == capacity then Some(QueueFull) else None)
  {
    Reachable(capacity, steps);
    var s := After(Initial(capacity), steps);
    CapacityStays(Initial(capacity), steps);
    HubAttached(s, id);
    CellInv(s, s.hub[id]);
  }

  lemma CapacityStep(s: State, step: Step)
    requires Enabled(s, step)
    ensures Do(s, step).capacity == s.capacity
  {
    hide OfferAll, CloseAll, Takers, Attached, AddError, EnqueueError, Sent, Claim, NewRoom, Rollback;
  }

  lemma {:induction false} CapacityStays(s: State, steps: seq<Step>)
    requires Runs(s, steps)
    ensures After(s, steps).capacity == s.capacity
    decreases |steps|
  {
    hide Do, Enabled;
    if steps != [] {
      CapacityStep(s, steps[0]);
      CapacityStays(Do(s, steps[0]), steps[1..]);
    }
  }

  /** While a Join holds its claim the add can fail for one reason only, an ended room; a new room admits. */
  lemma JoinFailsOnlyForEndedRooms(capacity: nat, steps: seq<Step>, session: SessionId, c: ClientId)
    requires capacity > 0 && Runs(Initial(capacity), steps)
    requires After(Initial(capacity), steps).lock == Some(Claimed(session, c))
    ensures var s := After(Initial(capacity), steps);
      && c in s.peers && (session in s.hub ==> s.hub[session] in s.cells)
      && var room := if session in s.hub then s.cells[s.hub[session]].room else NewRoom(session);
        AddError(room, s.peers[c].client.closed) == if room.ended then Some(RoomEnded) else None
  {
    Reachable(capacity, steps);
    var s := After(Initial(capacity), steps);
    hide Inv;
    ClaimedFacts(s, session, c);
    if session in s.hub {
      HubAttached(s, session);
      CellInv(s, s.hub[session]);
    }
  }

  // ---- Retired rooms and closed clients stay so ----

  /** Out of the hub and not in the hands of a Join. */
  predicate Detached(s: State, r: RoomRef) {
    r in s.cells && r !in s.hub.Values && !Building(s, r)
  }

  lemma DetachedMeans(s: State, r: RoomRef)
    requires Inv(s) && Detached(s, r)
    ensures !Attached(s, r) && |s.cells[r].detached| == 1 && s.cells[r].pc != Unstarted
  {
    hide LockOk, PeersOk, MembersOk, CallsOk, RunningOk;
    CellInv(s, r);
  }

  lemma NamesStay(s: State, step: Step, r: RoomRef)
    requires Enabled(s, step) && Detached(s, r)
    ensures Detached(Do(s, step), r)
  {
    var t := Do(s, step);
    assert r in t.cells;
    assert forall id <- t.hub :: t.hub[id] != r;
    assert !Building(t, r);
  }

  // ---- How far a retired room's goroutine has to go ----

  /** A step of r's own goroutine. */
  predicate Moves(step: Step, r: RoomRef) {
    step == Receive(r) || step == DeliverHeld(r) || step == RemoveIfEmpty(r) || step == MarkClosed(r) || step == StopRoom(r)
  }

  function Rank(pc: Pc): nat {
    match pc
    case Unstarted => 1
    case Selecting => 1
    case Holding(_) => 3
    case Emptied => 2
    case Removed => 1
    case Finished => 0
  }

  /** Every queued broadcast may still be received, delivered and asked about before the stop is taken. */
  function Measure(cell: Cell): nat {
    if cell.pc == Finished then 0 else 3 * |cell.room.queue| + Rank(cell.pc)
  }

  /** What a step does to a room that is out of the hub: no client and no broadcast enters, and its goroutine only comes closer to its end. */
  predicate Retiring(a: Cell, b: Cell, moves: nat) {
    && b.detached == a.detached && b.accepted == a.accepted && b.room.members <= a.room.members
    && (a.room.stop ==> b.room.stop) && (a.pc == Finished ==> b.pc == Finished)
    && Measure(b) + moves <= Measure(a)
  }

  /** The steps that look a session up in the hub never find this room. */
  lemma HubStepsLeaveItAlone(s: State, step: Step, r: RoomRef)
    requires Enabled(s, step) && Detached(s, r)
    requires step.AddClient? || step.Publish? || step.Leave? || step.SendBroadcast? || step.EndSession? || step.BeginShutdown?
    ensures var t := Do(s, step); r in t.cells && t.cells[r] == s.cells[r]
  {
    hide OfferAll, CloseAll, Takers, Sent, Claim, DoDeliver, DoRemove, AddError, EnqueueError;
  }

  lemma OtherStepsLeaveItAlone(s: State, step: Step, r: RoomRef)
    requires Enabled(s, step) && r in s.cells && !Moves(step, r)
    requires !(step.AddClient? || step.Publish? || step.Leave? || step.SendBroadcast? || step.EndSession? || step.BeginShutdown?)
    ensures var t := Do(s, step);
      r in t.cells && (t.cells[r] == s.cells[r] || t.cells[r] == s.cells[r].(room := ToldToStop(s.cells[r].room)))
  {
    hide OfferAll, CloseAll, Takers, Sent, Claim, Attached, DoAdd, DoLeave, DoBroadcast, DoShutdown;
  }

  lemma OthersLeaveItAlone(s: State, step: Step, r: RoomRef)
    requires Enabled(s, step) && Detached(s, r) && !Moves(step, r)
    ensures var t := Do(s, step);
      r in t.cells && (t.cells[r] == s.cells[r] || t.cells[r] == s.cells[r].(room := ToldToStop(s.cells[r].room)))
  {
    hide Do, Enabled;
    if step.AddClient? || step.Publish? || step.Leave? || step.SendBroadcast? || step.EndSession? || step.BeginShutdown? {
      HubStepsLeaveItAlone(s, step, r);
    } else {
      OtherStepsLeaveItAlone(s, step, r);
    }
  }

  lemma OwnStepMovesOn(s: State, step: Step, r: RoomRef)
    requires Enabled(s, step) && Detached(s, r) && !Attached(s, r) && Moves(step, r)
    ensures var t := Do(s, step); r in t.cells && Retiring(s.cells[r], t.cells[r], 1)
  {
    hide OfferAll, CloseAll, Sent, DoClaim, DoAdd, DoLeave, DoBroadcast, DoShutdown;
  }

  lemma RetiredStep(s: State, step: Step, r: RoomRef)
    requires Inv(s) && Enabled(s, step) && Detached(s, r)
    ensures var t := Do(s, step);
      Inv(t) && Detached(t, r) && Retiring(s.cells[r], t.cells[r], if Moves(step, r) then 1 else 0)
  {
    StepKeeps(s, step);
    NamesStay(s, step, r);
    DetachedMeans(s, r);
    hide Inv, Detached, Attached;
    if Moves(step, r) {
      OwnStepMovesOn(s, step, r);
    } else {
      OthersLeaveItAlone(s, step, r);
    }
    hide Do, Enabled;
  }

  function MovesOf(steps: seq<Step>, r: RoomRef): nat {
    if steps == [] then 0 else (if Moves(steps[0], r) then 1 else 0) + MovesOf(steps[1..], r)
  }

  /**
   A room that is out of the hub stays out; no client joins it and no broadcast reaches it; it is never detached again,
   and its goroutine takes at most Measure more steps, however its selects choose.
   */
  lemma {:induction false} DetachedForGood(s: State, steps: seq<Step>, r: RoomRef)
    requires Inv(s) && Detached(s, r) && Runs(s, steps)
    ensures var t := After(s, steps); Detached(t, r) && Retiring(s.cells[r], t.cells[r], MovesOf(steps, r))
    decreases |steps|
  {
    hide Inv, Do, Enabled, Measure, Moves;
    if steps != [] {
      RetiredStep(s, steps[0], r);
      DetachedForGood(Do(s, steps[0]), steps[1..], r);
    }
  }

  function NextMove(cell: Cell, r: RoomRef): Step {
    match cell.pc
    case Holding(_) => DeliverHeld(r)
    case Emptied => RemoveIfEmpty(r)
    case Removed => MarkClosed(r)
    case _ => StopRoom(r)
  }

  /** A room that was told to stop always has a step to take, once no Join holds the lock; a Join always has one too. */
  lemma StoppedRoomCanMove(capacity: nat, steps: seq<Step>, r: RoomRef)
    requires capacity > 0 && Runs(Initial(capacity), steps)
    ensures var s := After(Initial(capacity), steps);
      r in s.cells && s.cells[r].room.stop && s.cells[r].pc != Finished ==>
        Detached(s, r) && (s.lock == None || s.cells[r].pc != Emptied ==> Enabled(s, NextMove(s.cells[r], r)))
    ensures var s := After(Initial(capacity), steps);
      s.lock.Some? ==> exists step :: Enabled(s, step) && JoinRank(Do(s, step).lock) < JoinRank(s.lock)
  {
    Reachable(capacity, steps);
    hide Inv, Do, Enabled, Detached;
    var s := After(Initial(capacity), steps);
    if r in s.cells && s.cells[r].room.stop && s.cells[r].pc != Finished {
      StoppedCanMove(s, r);
    }
    if s.lock.Some? {
      JoinCanMove(s);
    }
  }

  lemma StoppedCanMove(s: State, r: RoomRef)
    requires Inv(s) && r in s.cells && s.cells[r].room.stop && s.cells[r].pc != Finished
    ensures Detached(s, r) && (s.lock == None || s.cells[r].pc != Emptied ==> Enabled(s, NextMove(s.cells[r], r)))
  {
    hide Inv, Detached;
    StoppedIsDetached(s, r);
  }

  lemma StoppedIsDetached(s: State, r: RoomRef)
    requires Inv(s) && r in s.cells && s.cells[r].room.stop
    ensures Detached(s, r) && (Serving(s.cells[r].pc) || s.cells[r].pc == Finished)
  {
    hide LockOk, PeersOk, MembersOk, CallsOk, RunningOk;
    CellInv(s, r);
  }

  function JoinRank(lock: Option<Joining>): nat {
    match lock
    case None => 0
    case Some(Entered(_, _)) => 3
    case Some(Claimed(_, _)) => 2
    case Some(_) => 1
  }

  lemma JoinCanMove(s: State)
    requires Inv(s) && s.lock.Some?
    ensures exists step :: Enabled(s, step) && JoinRank(Do(s, step).lock) < JoinRank(s.lock)
  {
    hide CellsOk, PeersOk, MembersOk, CallsOk, RunningOk;
    match s.lock.value
    case Entered(_, _) => assert Enabled(s, ClaimRoom);
    case Claimed(session, _) =>
      var r := if session in s.hub then s.hub[session] else FreshRoom(s.cells.Keys);
      assert Enabled(s, AddClient(r));
    case Refused(_, _) => assert Enabled(s, RollBack);
    case Created(_, _, _) => assert Enabled(s, Publish);
  }

  /** A number no room bears. */
  ghost function FreshRoom(used: set<RoomRef>): (r: RoomRef)
    ensures r !in used
  {
    FreshExists(used);
    var r :| r !in used;
    r
  }

  lemma FreshExists(used: set<RoomRef>)
    ensures exists r: RoomRef :: r !in used
  {
    if forall r: RoomRef :: r in used {
      SubsetSize(Range(|used| + 1), used);
    }
  }

  // ---- A client's one lifetime ----

  /** One home for life, never reopened, and nothing sent after the close. */
  predicate LivesOn(p: Peer, q: Peer) {
    && (p.home.Some? ==> q.home == p.home && q.from == p.from)
    && (p.client.closed ==> q.client.closed && q.sent == p.sent)
    && p.sent <= q.sent
  }

  lemma FramesLiveOn(p: Peer, item: Item)
    ensures LivesOn(p, Sent(p, item)) && LivesOn(p, Offered(p, item)) && LivesOn(p, Shut(p))
  {
  }

  lemma ClientStep(s: State, step: Step, c: ClientId)
    requires LockOk(s) && Enabled(s, step) && c in s.peers
    ensures var t := Do(s, step); c in t.peers && LivesOn(s.peers[c], t.peers[c])
  {
    if step.DeliverHeld? || step.StopRoom? || step.Leave? {
      ServedClientStep(s, step, c);
    } else {
      OwnClientStep(s, step, c);
    }
    hide *;
  }

  lemma ServedClientStep(s: State, step: Step, c: ClientId)
    requires Enabled(s, step) && c in s.peers && (step.DeliverHeld? || step.StopRoom? || step.Leave?)
    ensures var t := Do(s, step); c in t.peers && LivesOn(s.peers[c], t.peers[c])
  {
    FramesLiveOn(s.peers[c], if step.DeliverHeld? then Broadcast(s.cells[step.room].pc.message) else Ack(0));
    hide Takers, Sent, Offered, LivesOn, Close;
    assert LivesOn(s.peers[c], s.peers[c]) by { SelfLivesOn(s.peers[c]); }
  }

  lemma SelfLivesOn(p: Peer)
    ensures LivesOn(p, p)
  {
  }

  lemma OwnClientStep(s: State, step: Step, c: ClientId)
    requires LockOk(s) && Enabled(s, step) && c in s.peers && !step.DeliverHeld? && !step.StopRoom? && !step.Leave?
    ensures var t := Do(s, step); c in t.peers && LivesOn(s.peers[c], t.peers[c])
  {
    if step.SendAck? {
      FramesLiveOn(s.peers[c], Ack(step.id));
    }
    hide AddError, EnqueueError, Attached, NewRoom, Sent, DoDeliver, DoLeave, CloseAll;
  }

  lemma ClosedClientStep(s: State, step: Step, c: ClientId)
    requires HubOk(s) && Enabled(s, step) && c in s.peers && s.closed
    ensures Do(s, step).closed && c in Do(s, step).peers && Do(s, step).peers[c].home == s.peers[c].home
  {
    ClosedStep(s, step);
    hide *;
  }

  /** Over any continuation a client keeps its room, a closed one stays closed, and once the hub is closed no client joins. */
  lemma {:induction false} OneLifetime(s: State, steps: seq<Step>, c: ClientId)
    requires Inv(s) && Runs(s, steps) && c in s.peers
    ensures var t := After(s, steps);
      c in t.peers && LivesOn(s.peers[c], t.peers[c]) && (s.closed ==> t.closed && t.peers[c].home == s.peers[c].home)
    decreases |steps|
  {
    hide CellsOk, PeersOk, MembersOk, CallsOk, RunningOk;
    if steps != [] {
      StepKeeps(s, steps[0]);
      ClientStep(s, steps[0], c);
      if s.closed {
        ClosedClientStep(s, steps[0], c);
      }
      hide Inv, Do, Enabled;
      OneLifetime(Do(s, steps[0]), steps[1..], c);
    }
  }

  /**
   What was ever queued for a client of its room's broadcasts is a segment without gaps of what the room delivered, up to the
   last delivery while it is open. What a room took from its queue is a prefix of what it accepted. Both queues are in order and bounded.
   */
  lemma BroadcastsAreASegment(capacity: nat, steps: seq<Step>, c: ClientId)
    requires capacity > 0 && Runs(Initial(capacity), steps)
    requires c in After(Initial(capacity), steps).peers && After(Initial(capacity), steps).peers[c].home.Some?
    ensures var s := After(Initial(capacity), steps); s.peers[c].home.value in s.cells
    ensures var s := After(Initial(capacity), steps);
      var p := s.peers[c];
      var cell := s.cells[p.home.value];
      var n := |Heard(p.sent)|;
      && p.from + n <= |cell.delivered| && Heard(p.sent) == cell.delivered[p.from..p.from + n]
      && (!p.client.closed ==> p.from + n == |cell.delivered|)
      && cell.accepted == cell.delivered + Held(cell.pc) + cell.room.queue && |cell.room.queue| <= capacity
      && |p.client.queue| <= p.client.capacity
      && |p.client.queue| <= |p.sent| && p.client.queue == p.sent[|p.sent| - |p.client.queue|..]
  {
    hide *;
    Reachable(capacity, steps);
    CapacityStays(Initial(capacity), steps);
    SegmentNow(After(Initial(capacity), steps), c);
    InitialCapacity(capacity);
  }

  lemma InitialCapacity(capacity: nat)
    ensures Initial(capacity).capacity == capacity
  {
  }

  lemma SegmentNow(s: State, c: ClientId)
    requires Inv(s) && c in s.peers && s.peers[c].home.Some?
    ensures s.peers[c].home.value in s.cells
    ensures
      var p := s.peers[c];
      var cell := s.cells[p.home.value];
      var n := |Heard(p.sent)|;
      && p.from + n <= |cell.delivered| && Heard(p.sent) == cell.delivered[p.from..p.from + n]
      && (!p.client.closed ==> p.from + n == |cell.delivered|)
      && cell.accepted == cell.delivered + Held(cell.pc) + cell.room.queue && |cell.room.queue| <= s.capacity
      && |p.client.queue| <= p.client.capacity
      && |p.client.queue| <= |p.sent| && p.client.queue == p.sent[|p.sent| - |p.client.queue|..]
  {
    hide Inv, Claiming, DetachedOk, AttachedOk, BuildingOk, Attached, Building, Heard;
    PeerInv(s, c);
    CellInv(s, s.peers[c].home.value);
  }

  // ---- Shutdown ----

  lemma FinishedRoomsAreEmpty(s: State, r: RoomRef)
    requires CellsOk(s) && r in s.cells && s.cells[r].pc == Finished
    ensures s.cells[r].room.closed && s.cells[r].room.members == {}
  {
    assert CellOk(s, r);
  }

  /** A Shutdown that returned nil leaves every goroutine ended and every client that ever joined closed exactly once. */
  lemma ShutdownIsComplete(capacity: nat, steps: seq<Step>, call: CallId)
    requires capacity > 0 && Runs(Initial(capacity), steps)
    requires var s := After(Initial(capacity), steps); call in s.calls && s.calls[call] == Returned(true)
    ensures var s := After(Initial(capacity), steps);
      && s.closed && s.hub == map[]
      && (forall r <- s.cells :: s.cells[r].pc == Finished && s.cells[r].room.closed && s.cells[r].room.members == {})
      && (forall c <- s.peers :: s.peers[c].home.Some? ==> s.peers[c].client.closed && s.peers[c].client.closes == 1)
  {
    Reachable(capacity, steps);
    var s := After(Initial(capacity), steps);
    assert s.closed && s.hub == map[] && forall r <- s.cells :: s.cells[r].pc == Finished;
    hide HubOk, LockOk, CallsOk, RunningOk, CellsOk, PeersOk, MembersOk;
    forall r <- s.cells
      ensures s.cells[r].room.closed && s.cells[r].room.members == {}
    {
      FinishedRoomsAreEmpty(s, r);
    }
    forall c <- s.peers | s.peers[c].home.Some?
      ensures s.peers[c].client.closed && s.peers[c].client.closes == 1
    {
      PeerInv(s, c);
      MemberExactly(s, c, s.peers[c].home.value);
    }
  }

  /** ... and whatever happens afterwards, no client joins and no room comes to be. */
  lemma NoJoinAfterShutdown(capacity: nat, steps: seq<Step>, more: seq<Step>)
    requires capacity > 0 && Runs(Initial(capacity), steps) && After(Initial(capacity), steps).closed
    requires Runs(After(Initial(capacity), steps), more)
    ensures var s, t := After(Initial(capacity), steps), After(After(Initial(capacity), steps), more);
      && t.closed && t.hub == map[] && t.cells.Keys == s.cells.Keys
      && forall c <- t.peers :: t.peers[c].home == if c in s.peers then s.peers[c].home else None
  {
    Reachable(capacity, steps);
    ClosedHub(After(Initial(capacity), steps), more);
  }

  lemma ClosedStep(s: State, step: Step)
    requires HubOk(s) && s.closed && Enabled(s, step)
    ensures var t := Do(s, step);
      && t.closed && t.cells.Keys == s.cells.Keys && s.peers.Keys <= t.peers.Keys
      && forall c <- t.peers :: t.peers[c].home == if c in s.peers then s.peers[c].home else None
  {
    hide DoAdd, DoClaim, DoLeave, DoBroadcast, Takers, Attached;
  }

  lemma {:induction false} ClosedHub(s: State, steps: seq<Step>)
    requires Inv(s) && s.closed && Runs(s, steps)
    ensures var t := After(s, steps);
      && t.closed && t.hub == map[] && t.cells.Keys == s.cells.Keys && s.peers.Keys <= t.peers.Keys
      && forall c <- t.peers :: t.peers[c].home == if c in s.peers then s.peers[c].home else None
    decreases |steps|
  {
    hide LockOk, CellsOk, PeersOk, MembersOk, CallsOk, RunningOk;
    if steps != [] {
      StepKeeps(s, steps[0]);
      ClosedStep(s, steps[0]);
      hide Inv, Do, Enabled;
      ClosedHub(Do(s, steps[0]), steps[1..]);
    }
  }

  // ---- An ended room ----

  lemma EndedAdd(s: State, added: RoomRef, r: RoomRef)
    requires Enabled(s, AddClient(added)) && r in s.cells && s.cells[r].room.ended
    ensures var t := Do(s, AddClient(added)); r in t.cells && t.cells[r] == s.cells[r]
  {
  }

  lemma EndedStep(s: State, step: Step, r: RoomRef)
    requires Enabled(s, step) && r in s.cells && s.cells[r].room.ended
    ensures var t := Do(s, step);
      r in t.cells && t.cells[r].room.ended && t.cells[r].room.members <= s.cells[r].room.members
  {
    if step.AddClient? {
      EndedAdd(s, step.room, r);
      hide Do;
    }
    hide OfferAll, CloseAll, Sent, Claim, Attached, Rollback, EnqueueError, DoAdd, AddError;
  }

  lemma {:induction false} EndedRun(s: State, steps: seq<Step>, r: RoomRef)
    requires Runs(s, steps) && r in s.cells && s.cells[r].room.ended
    ensures var t := After(s, steps);
      r in t.cells && t.cells[r].room.ended && t.cells[r].room.members <= s.cells[r].room.members
    decreases |steps|
  {
    hide Do, Enabled;
    if steps != [] {
      EndedStep(s, steps[0], r);
      EndedRun(Do(s, steps[0]), steps[1..], r);
    }
  }

  /** Once a session is marked ended its room allows no send and admits nobody, for as long as that room exists. */
  lemma EndedRoomAdmitsNobody(s: State, id: SessionId, steps: seq<Step>)
    requires Inv(s) && Enabled(s, EndSession(id)) && id in s.hub && Runs(Do(s, EndSession(id)), steps)
    ensures var r := s.hub[id];
      var t := After(Do(s, EndSession(id)), steps);
      && r in s.cells && r in t.cells && !SendAllowed(t.cells[r].room) && AddError(t.cells[r].room, false).Some?
      && t.cells[r].room.members <= s.cells[r].room.members
  {
    HubAttached(s, id);
    EndNow(s, id);
    hide Inv, Do, Enabled, Attached;
    EndedRun(Do(s, EndSession(id)), steps, s.hub[id]);
  }

  lemma EndNow(s: State, id: SessionId)
    requires Enabled(s, EndSession(id)) && id in s.hub
    ensures var r := s.hub[id];
      var u := Do(s, EndSession(id));
      r in u.cells && u.cells[r].room.ended && u.cells[r].room.members == s.cells[r].room.members
  {
  }

  /** What a delivery does to a client in the machine is what the room's method does to the object. */
  lemma OfferedIsOffer(p: Peer, item: Item)
    ensures Offered(p, item).client == Offer(p.client, item)
    ensures Offered(p, item).client.closed <==> p.client.closed || |p.client.queue| >= p.client.capacity
    ensures !Offered(p, item).client.closed ==> Offered(p, item).client.queue == p.client.queue + [item]
  {
  }
}
