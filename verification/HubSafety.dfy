/** What every interleaving of the hub keeps: the steps that move rooms, and the results over whole runs. */
module HubSafety {
  import opened Prelude
  import opened WsClient
  import opened WsRoom
  import opened HubMachine
  import opened HubFrames

  // ---- Counting goroutines ----

  lemma OneMoreRunning(s: State, t: State, r: RoomRef)
    requires RunningOk(s) && t.running == s.running + 1 && r in s.cells && s.cells[r].pc == Unstarted
    requires r in t.cells && t.cells == s.cells[r := t.cells[r]] && t.cells[r].pc == Selecting
    ensures RunningOk(t)
  {
    assert Alive(t.cells) == Alive(s.cells) + {r};
  }

  lemma OneLessRunning(s: State, t: State, r: RoomRef)
    requires RunningOk(s) && t.running == s.running - 1 && r in s.cells && s.cells[r].pc != Unstarted && s.cells[r].pc != Finished
    requires r in t.cells && t.cells == s.cells[r := t.cells[r]] && t.cells[r].pc == Finished
    ensures RunningOk(t)
  {
    assert Alive(s.cells) == Alive(t.cells) + {r};
  }

  lemma NoneRunning(s: State)
    requires RunningOk(s) && s.running == 0
    ensures forall r <- s.cells :: s.cells[r].pc == Unstarted || s.cells[r].pc == Finished
  {
    assert Alive(s.cells) == {};
    assert forall r <- s.cells :: r !in Alive(s.cells);
  }

  // ---- A room leaves the hub on its own ----

  lemma RemoveKeeps(s: State, r: RoomRef)
    requires Inv(s) && s.lock == None && Holds(s, r, Emptied) && Attached(s, r) && s.cells[r].room.members == {}
    ensures Inv(DoRemove(s, r))
  {
    hide LockOk, PeersOk, MembersOk, CallsOk, RunningOk, HubOk, CellsOk;
    CellInv(s, r);
    var t := DoRemove(s, r);
    RemoveCell(s, r);
    assert s.cells[r].detached == [];
    hide CellOk, OthersStand, Attached;
    FrameCells(s, t, r);
    FrameHub(s, t);
    FrameLock(s, t);
    FramePeers(s, t);
    FrameCalls(s, t);
    assert Alive(t.cells) == Alive(s.cells);
    FrameRunning(s, t);
  }

  lemma RemoveCell(s: State, r: RoomRef)
    requires s.lock == None && Holds(s, r, Emptied) && Attached(s, r) && s.cells[r].room.members == {} && CellOk(s, r)
    ensures CellOk(DoRemove(s, r), r) && OthersStand(s, DoRemove(s, r), r)
  {
  }

  function Marked(s: State, r: RoomRef): State
    requires r in s.cells
  {
    s.(running := s.running - 1, cells := s.cells[r := s.cells[r].(pc := Finished, room := MarkedClosed(s.cells[r].room))])
  }

  lemma MarkClosedKeeps(s: State, r: RoomRef)
    requires Inv(s) && Holds(s, r, Removed)
    ensures Inv(Marked(s, r))
  {
    hide LockOk, PeersOk, MembersOk, CallsOk, RunningOk, HubOk, CellsOk;
    CellInv(s, r);
    var t := Marked(s, r);
    assert CellOk(t, r) && OthersStand(s, t, r);
    hide CellOk, OthersStand;
    FrameCells(s, t, r);
    FrameHub(s, t);
    FrameLock(s, t);
    FramePeers(s, t);
    FrameCalls(s, t);
    OneLessRunning(s, t, r);
  }

  // ---- The stops that are owed ----

  function Stopped(s: State, call: CallId, r: RoomRef): State
    requires r in s.cells && call in s.calls && !s.calls[call].Returned?
  {
    InRoom(s, r, ToldToStop(s.cells[r].room)).(calls := s.calls[call := s.calls[call].(rooms := Owed(s.calls[call]) - {r})])
  }

  lemma RequestStopKeeps(s: State, call: CallId, r: RoomRef)
    requires Inv(s) && call in s.calls && r in Owed(s.calls[call]) && r in s.cells
    ensures Inv(Stopped(s, call, r))
  {
    hide LockOk, PeersOk, MembersOk, RunningOk, HubOk, CellsOk, CallsOk;
    CellInv(s, r);
    var t := Stopped(s, call, r);
    StoppedCalls(s, call, r);
    StoppedCell(s, call, r);
    hide CellOk, OthersStand;
    FrameCells(s, t, r);
    FrameHub(s, t);
    FrameLock(s, t);
    FramePeers(s, t);
    assert Alive(t.cells) == Alive(s.cells);
    FrameRunning(s, t);
  }

  lemma StoppedCalls(s: State, call: CallId, r: RoomRef)
    requires CallsOk(s) && call in s.calls && r in Owed(s.calls[call])
    ensures r in s.cells && CallsOk(Stopped(s, call, r))
  {
    assert s.cells[r].detached == [ByLeave(call)] || s.cells[r].detached == [ByShutdown(call)];
  }

  lemma StoppedCell(s: State, call: CallId, r: RoomRef)
    requires CallsOk(s) && call in s.calls && r in Owed(s.calls[call]) && r in s.cells && CellOk(s, r)
    ensures CellOk(Stopped(s, call, r), r) && OthersStand(s, Stopped(s, call, r), r)
  {
    assert !s.cells[r].room.stop && (s.cells[r].detached == [ByLeave(call)] || s.cells[r].detached == [ByShutdown(call)]);
    hide CallsOk;
  }

  /** A Shutdown returns nil only when the wait group is at zero. */
  lemma ReturnKeeps(s: State, call: CallId, complete: bool)
    requires Inv(s) && Waits(s, call) && (complete ==> s.running == 0)
    ensures Inv(s.(calls := s.calls[call := Returned(complete)]))
  {
    var t := s.(calls := s.calls[call := Returned(complete)]);
    hide LockOk, PeersOk, MembersOk, HubOk;
    assert CellsOk(t) by {
      hide CallsOk, RunningOk;
      forall q <- t.cells
        ensures CellOk(t, q)
      {
        assert CellOk(s, q);
        assert Attached(t, q) == Attached(s, q) && Building(t, q) == Building(s, q);
        hide AttachedOk, BuildingOk, Attached, Building;
      }
    }
    assert CallsOk(t) by { ReturnCalls(s, call, complete); }
    hide CallsOk, CellsOk;
    FrameHub(s, t);
    FrameLock(s, t);
    FramePeers(s, t);
    FrameRunning(s, t);
  }

  lemma ReturnCalls(s: State, call: CallId, complete: bool)
    requires HubOk(s) && CellsOk(s) && CallsOk(s) && RunningOk(s) && Waits(s, call) && (complete ==> s.running == 0)
    ensures CallsOk(s.(calls := s.calls[call := Returned(complete)]))
  {
    if complete {
      NoneRunning(s);
      forall r <- s.cells
        ensures s.cells[r].pc == Finished
      {
        assert CellOk(s, r);
      }
    }
    hide CellsOk, CellOk, RunningOk;
  }

  // ---- Join puts a room into the hub ----

  function Published(s: State, session: SessionId, r: RoomRef): State
    requires r in s.cells
  {
    s.(lock := None, hub := s.hub[session := r], running := s.running + 1, cells := s.cells[r := s.cells[r].(pc := Selecting)])
  }

  lemma PublishKeeps(s: State, session: SessionId, c: ClientId, r: RoomRef)
    requires Inv(s) && s.lock == Some(Created(session, c, r)) && r in s.cells
    ensures Inv(Published(s, session, r))
  {
    hide PeersOk, MembersOk, RunningOk, CellsOk, CallsOk;
    CellInv(s, r);
    var t := Published(s, session, r);
    PublishCell(s, session, c, r);
    assert !s.closed && HubOk(t);
    assert s.cells[r].pc == Unstarted;
    hide HubOk, CellOk, OthersStand;
    FrameCells(s, t, r);
    FramePeers(s, t);
    FrameCalls(s, t);
    OneMoreRunning(s, t, r);
  }

  lemma PublishCell(s: State, session: SessionId, c: ClientId, r: RoomRef)
    requires HubOk(s) && LockOk(s) && s.lock == Some(Created(session, c, r)) && r in s.cells && CellOk(s, r)
    ensures CellOk(Published(s, session, r), r) && OthersStand(s, Published(s, session, r), r)
    ensures s.cells[r].pc == Unstarted
  {
  }

  // ---- Join adds a client ----

  lemma AddRefusedKeeps(s: State, session: SessionId, c: ClientId, r: RoomRef)
    requires Inv(s) && s.lock == Some(Claimed(session, c)) && c in s.peers
    ensures Inv(s.(lock := Some(Refused(session, c))))
  {
    hide CellsOk, MembersOk, CallsOk, RunningOk;
    var t := s.(lock := Some(Refused(session, c)));
    assert !s.closed;
    hide HubOk;
    PeerInv(s, c);
    hide PeersOk;
    assert PeerOk(t, c) && LockOk(t) by { hide SegmentOk, Heard, ClientOk; }
    hide PeerOk, LockOk;
    PeerChangeKeeps(s, t, c);
  }

  /** The client and its room after an add; `base` is the room before it. */
  predicate Added(s: State, t: State, c: ClientId, r: RoomRef, base: Cell) {
    && c in s.peers && t.peers == s.peers[c := s.peers[c].(home := Some(r), from := |base.delivered|)]
    && t.cells == s.cells[r := base.(room := With(base.room, c))]
    && (if r in s.cells then base == s.cells[r] else base.room.members == {} && base.delivered == [])
  }

  lemma AddedMembers(s: State, t: State, c: ClientId, r: RoomRef, base: Cell)
    requires MembersOk(s) && Added(s, t, c, r, base)
    requires s.peers[c].home == None && !s.peers[c].client.closed && s.peers[c].client.joined
    ensures MembersOk(t)
  {
    forall d <- t.peers | t.peers[d].home.Some?
      ensures var q := t.peers[d].home.value;
        && q in t.cells && (d in t.cells[q].room.members <==> !t.peers[d].client.closed)
        && (!t.peers[d].client.closed ==> t.peers[d].client.joined)
    {
    }
  }

  lemma AddedPeer(s: State, t: State, session: SessionId, c: ClientId, r: RoomRef, base: Cell, d: ClientId)
    requires d in s.peers && PeerOk(s, d) && Added(s, t, c, r, base) && s.lock == Some(Claimed(session, c)) && s.peers[c].home == None
    requires d != c && s.peers[d].home == Some(r) ==> r in s.cells
    ensures PeerOk(t, d)
  {
    hide Heard;
    if d == c {
      assert base.delivered[|base.delivered|..|base.delivered|] == [];
    } else {
      hide SegmentOk, ClientOk;
    }
  }

  lemma AddedPeers(s: State, t: State, session: SessionId, c: ClientId, r: RoomRef, base: Cell)
    requires PeersOk(s) && Added(s, t, c, r, base) && s.lock == Some(Claimed(session, c)) && s.peers[c].home == None
    ensures PeersOk(t)
  {
    forall d <- t.peers
      ensures PeerOk(t, d)
    {
      assert PeerOk(s, d);
      AddedPeer(s, t, session, c, r, base, d) by { hide ClientOk, SegmentOk; }
    }
  }

  lemma AddCommon(s: State, t: State, session: SessionId, c: ClientId, r: RoomRef, base: Cell)
    requires Inv(s) && s.lock == Some(Claimed(session, c)) && c in s.peers && Added(s, t, c, r, base)
    ensures PeersOk(t) && MembersOk(t) && !s.closed
  {
    PeerInv(s, c);
    hide CellsOk, CallsOk, RunningOk;
    assert !s.closed && s.peers[c].home == None && s.peers[c].client.joined && !s.peers[c].client.closed;
    hide HubOk, LockOk, PeersOk, MembersOk, PeerOk, Added;
    AddedMembers(s, t, c, r, base);
    AddedPeers(s, t, session, c, r, base);
  }

  lemma AddExistingKeeps(s: State, session: SessionId, c: ClientId, r: RoomRef)
    requires Inv(s) && s.lock == Some(Claimed(session, c)) && c in s.peers
    requires session in s.hub && r == s.hub[session] && r in s.cells
    requires AddError(s.cells[r].room, s.peers[c].client.closed) == None
    ensures Inv(DoAdd(s, session, c, r))
  {
    hide PeersOk, MembersOk, CallsOk, RunningOk, CellsOk;
    var t := DoAdd(s, session, c, r);
    assert LockOk(t);
    hide LockOk;
    CellInv(s, r);
    AddCommon(s, t, session, c, r, s.cells[r]);
    HubNames(s, session);
    assert c in t.cells[r].room.members;
    assert CellOk(t, r) && OthersStand(s, t, r);
    hide CellOk, OthersStand, HubOk;
    FrameCells(s, t, r);
    FrameHub(s, t);
    FrameCalls(s, t);
    assert Alive(t.cells) == Alive(s.cells);
    FrameRunning(s, t);
  }

  lemma HubNames(s: State, id: SessionId)
    requires HubOk(s) && id in s.hub
    ensures s.hub[id] in s.cells && s.cells[s.hub[id]].room.id == id
  {
  }

  lemma AddNewKeeps(s: State, session: SessionId, c: ClientId, r: RoomRef)
    requires Inv(s) && s.lock == Some(Claimed(session, c)) && c in s.peers && session !in s.hub && r !in s.cells
    requires !s.peers[c].client.closed
    ensures Inv(DoAdd(s, session, c, r))
  {
    hide PeersOk, MembersOk, CallsOk, RunningOk, CellsOk;
    var t := DoAdd(s, session, c, r);
    AddCommon(s, t, session, c, r, Cell(NewRoom(session), Unstarted, [], [], []));
    assert LockOk(t);
    hide LockOk;
    assert CellOk(t, r) && OthersStand(s, t, r);
    hide CellOk, OthersStand;
    FrameCells(s, t, r);
    FrameHub(s, t);
    FrameCalls(s, t);
    assert Alive(t.cells) == Alive(s.cells);
    FrameRunning(s, t);
  }

  // ---- Steps that close clients ----

  lemma LeaveKeeps(s: State, call: CallId, r: RoomRef, session: SessionId, c: ClientId)
    requires Inv(s) && s.lock == None && call !in s.calls && session in s.hub && r == s.hub[session] && r in s.cells
    ensures Inv(DoLeave(s, call, r, session, c))
  {
    hide LockOk, PeersOk, MembersOk, CallsOk, RunningOk, CellsOk;
    var t := DoLeave(s, call, r, session, c);
    CellInv(s, r);
    HubNames(s, session);
    LeaveCell(s, call, r, session, c);
    assert s.cells[r].detached == [] && !s.cells[r].room.stop;
    hide CellOk, OthersStand;
    FrameCells(s, t, r);
    FrameHub(s, t);
    hide HubOk, Attached;
    LeavePeers(s, call, r, session, c);
    FrameLock(s, t);
    LeaveCalls(s, call, r, session, c);
    assert Alive(t.cells) == Alive(s.cells);
    FrameRunning(s, t);
  }

  lemma LeaveCell(s: State, call: CallId, r: RoomRef, session: SessionId, c: ClientId)
    requires s.lock == None && call !in s.calls && Attached(s, r) && s.cells[r].room.id == session && CellOk(s, r)
    ensures CellOk(DoLeave(s, call, r, session, c), r) && OthersStand(s, DoLeave(s, call, r, session, c), r)
  {
    assert s.cells[r].detached + [ByLeave(call)] == [ByLeave(call)];
  }

  lemma LeaveCalls(s: State, call: CallId, r: RoomRef, session: SessionId, c: ClientId)
    requires CallsOk(s) && call !in s.calls && r in s.cells && s.cells[r].detached == [] && !s.cells[r].room.stop
    ensures CallsOk(DoLeave(s, call, r, session, c))
  {
  }

  lemma MemberFacts(s: State, r: RoomRef, c: ClientId)
    requires PeersOk(s) && MembersOk(s) && r in s.cells && c in s.cells[r].room.members
    ensures c in s.peers && s.peers[c].home == Some(r) && !s.peers[c].client.closed && s.peers[c].client.joined
    ensures ClientOk(s.peers[c]) && SegmentOk(s.peers[c], s.cells[r].delivered)
  {
    assert PeerOk(s, c);
  }

  function Shut(p: Peer): Peer {
    p.(client := Close(p.client))
  }

  lemma ClosedMember(p: Peer, delivered: seq<Message>)
    requires ClientOk(p) && SegmentOk(p, delivered) && p.home.Some?
    ensures ClientOk(Shut(p)) && SegmentOk(Shut(p), delivered) && Shut(p).client.closed && Shut(p).home == p.home
  {
    hide Heard;
  }

  lemma LeavePeers(s: State, call: CallId, r: RoomRef, session: SessionId, c: ClientId)
    requires PeersOk(s) && MembersOk(s) && r in s.cells
    ensures var t := DoLeave(s, call, r, session, c); PeersOk(t) && MembersOk(t) && SameJoins(s, t)
  {
    hide ClientOk, SegmentOk, PeersOk, MembersOk;
    var t := DoLeave(s, call, r, session, c);
    assert Served(s, t, r) by {
      forall d <- s.peers | d in s.cells[r].room.members
        ensures ClientOk(t.peers[d]) && SegmentOk(t.peers[d], t.cells[r].delivered) && t.peers[d].home == s.peers[d].home
        ensures if d == c then t.peers[d].client.closed else t.peers[d] == s.peers[d] && !t.peers[d].client.closed && t.peers[d].client.joined
      {
        MemberFacts(s, r, d);
        ClosedMember(s.peers[d], s.cells[r].delivered);
        assert t.peers[d] == if d == c then Shut(s.peers[d]) else s.peers[d];
        hide Shut;
      }
    }
    hide Served, DoLeave;
    FrameServed(s, t, r);
  }

  /** One delivery to one member: it is sent the message, or closed where it stood. */
  lemma OfferedOk(p: Peer, delivered: seq<Message>, m: Message)
    requires ClientOk(p) && SegmentOk(p, delivered) && !p.client.closed && p.client.joined && p.home.Some?
    ensures var q := Offered(p, Broadcast(m));
      && ClientOk(q) && SegmentOk(q, delivered + [m]) && q.home == p.home
      && (q.client.closed <==> !Accepts(p.client)) && (!q.client.closed ==> q.client.joined)
  {
    if Accepts(p.client) {
      assert Offered(p, Broadcast(m)) == Sent(p, Broadcast(m));
      SentOk(p, Broadcast(m));
      SegmentExtends(p, delivered, m);
      hide Heard, ClientOk, SegmentOk;
    } else {
      assert Offered(p, Broadcast(m)) == Shut(p);
      ClosedMember(p, delivered);
      SegmentStays(Shut(p), delivered, delivered + [m]);
      hide Heard, ClientOk, SegmentOk;
    }
  }

  lemma SegmentExtends(p: Peer, delivered: seq<Message>, m: Message)
    requires SegmentOk(p, delivered) && !p.client.closed && Accepts(p.client)
    requires Heard(Sent(p, Broadcast(m)).sent) == Heard(p.sent) + [m]
    requires Sent(p, Broadcast(m)).from == p.from
    ensures SegmentOk(Sent(p, Broadcast(m)), delivered + [m])
  {
    hide Heard, Sent, Accepts;
    var n := |Heard(p.sent)|;
    assert (delivered + [m])[p.from..p.from + n + 1] == delivered[p.from..p.from + n] + [m];
  }

  lemma DeliverPeers(s: State, r: RoomRef)
    requires PeersOk(s) && MembersOk(s) && r in s.cells && s.cells[r].pc.Holding?
    ensures var t := DoDeliver(s, r); PeersOk(t) && MembersOk(t) && SameJoins(s, t)
  {
    hide ClientOk, SegmentOk, PeersOk, MembersOk;
    var t := DoDeliver(s, r);
    var m := s.cells[r].pc.message;
    assert Served(s, t, r) by {
      forall d <- s.peers | d in s.cells[r].room.members
        ensures
          && t.peers[d].home == s.peers[d].home && ClientOk(t.peers[d]) && SegmentOk(t.peers[d], t.cells[r].delivered)
          && (d in t.cells[r].room.members <==> !t.peers[d].client.closed)
          && (!t.peers[d].client.closed ==> t.peers[d].client.joined)
      {
        MemberFacts(s, r, d);
        OfferedOk(s.peers[d], s.cells[r].delivered, m);
        assert t.peers[d] == Offered(s.peers[d], Broadcast(m));
        hide Offered, Accepts;
      }
    }
    hide Served, DoDeliver;
    FrameServed(s, t, r);
  }

  lemma DeliverKeeps(s: State, r: RoomRef)
    requires Inv(s) && r in s.cells && s.cells[r].pc.Holding?
    ensures Inv(DoDeliver(s, r))
  {
    hide LockOk, PeersOk, MembersOk, CallsOk, RunningOk, CellsOk, HubOk;
    var t := DoDeliver(s, r);
    CellInv(s, r);
    DeliverPeers(s, r);
    assert CellOk(t, r) && OthersStand(s, t, r) by { hide OfferAll; }
    hide CellOk, OthersStand, OfferAll;
    FrameCells(s, t, r);
    FrameHub(s, t);
    FrameLock(s, t);
    FrameCalls(s, t);
    assert Alive(t.cells) == Alive(s.cells);
    FrameRunning(s, t);
  }

  function StoppedRoom(s: State, r: RoomRef): State
    requires r in s.cells
  {
    var room := s.cells[r].room;
    s.(running := s.running - 1, peers := CloseAll(s.peers, room.members),
       cells := s.cells[r := s.cells[r].(pc := Finished, room := AllClosed(room))])
  }

  lemma StopRoomKeeps(s: State, r: RoomRef)
    requires Inv(s) && Holds(s, r, Selecting) && s.cells[r].room.stop
    ensures Inv(StoppedRoom(s, r))
  {
    hide LockOk, PeersOk, MembersOk, CallsOk, RunningOk, CellsOk, HubOk;
    var t := StoppedRoom(s, r);
    CellInv(s, r);
    StopPeers(s, r);
    assert CellOk(t, r) && OthersStand(s, t, r) by { hide CloseAll; }
    hide CellOk, OthersStand, CloseAll;
    FrameCells(s, t, r);
    FrameHub(s, t);
    FrameLock(s, t);
    FrameCalls(s, t);
    OneLessRunning(s, t, r);
  }

  lemma StopPeers(s: State, r: RoomRef)
    requires PeersOk(s) && MembersOk(s) && r in s.cells
    ensures var t := StoppedRoom(s, r); PeersOk(t) && MembersOk(t) && SameJoins(s, t)
  {
    hide ClientOk, SegmentOk, PeersOk, MembersOk;
    var t := StoppedRoom(s, r);
    assert Served(s, t, r) by {
      forall d <- s.peers | d in s.cells[r].room.members
        ensures ClientOk(t.peers[d]) && SegmentOk(t.peers[d], t.cells[r].delivered) && t.peers[d].client.closed && t.peers[d].home == s.peers[d].home
      {
        MemberFacts(s, r, d);
        ClosedMember(s.peers[d], s.cells[r].delivered);
        assert t.peers[d] == Shut(s.peers[d]);
        hide Shut;
      }
    }
    hide Served, StoppedRoom;
    FrameServed(s, t, r);
  }

  // ---- Shutdown takes every room ----

  lemma ShutdownKeeps(s: State, call: CallId)
    requires Inv(s) && s.lock == None && call !in s.calls
    ensures Inv(DoShutdown(s, call))
  {
    hide PeersOk, MembersOk, CallsOk, RunningOk, CellsOk;
    var t := DoShutdown(s, call);
    assert HubOk(t) && LockOk(t);
    forall r <- s.cells
      ensures r in s.hub.Values <==> Attached(s, r)
    {
    }
    hide HubOk, LockOk;
    ShutdownCells(s, call);
    ShutdownCalls(s, call);
    FramePeers(s, t);
    assert Alive(t.cells) == Alive(s.cells);
    FrameRunning(s, t);
  }

  lemma ShutdownCells(s: State, call: CallId)
    requires CellsOk(s) && s.lock == None && call !in s.calls
    requires forall r <- s.cells :: r in s.hub.Values <==> Attached(s, r)
    ensures CellsOk(DoShutdown(s, call))
  {
    var t := DoShutdown(s, call);
    forall r <- t.cells
      ensures CellOk(t, r)
    {
      assert CellOk(s, r);
      assert Attached(s, r) ==> s.cells[r].detached + [ByShutdown(call)] == [ByShutdown(call)];
      hide CellsOk;
    }
  }

  lemma ShutdownCalls(s: State, call: CallId)
    requires CallsOk(s) && CellsOk(s) && call !in s.calls && s.lock == None
    requires s.hub.Values <= s.cells.Keys && forall r <- s.cells :: r in s.hub.Values <==> Attached(s, r)
    ensures CallsOk(DoShutdown(s, call))
  {
    forall r <- s.cells
      ensures r in s.hub.Values ==> s.cells[r].detached == [] && !s.cells[r].room.stop
    {
      assert CellOk(s, r);
    }
    hide CellsOk, Attached;
  }
}
