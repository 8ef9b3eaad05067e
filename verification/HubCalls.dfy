/** What one call of the hub achieves when nothing comes in between: the machine's steps, in order, do what the methods of the objects do. */
module HubCalls {
  import opened Prelude
  import opened WsClient
  import opened WsRoom
  import opened HubMachine
  import opened HubFrames
  import opened HubSafety
  import HubResults

  /** The state once a Join that was let in has its client in room r. */
  predicate JoinedInto(s: State, t: State, session: SessionId, c: ClientId, r: RoomRef)
    requires c in s.peers && (session in s.hub ==> r in s.cells)
  {
    && t.lock == None && !t.closed && t.hub == s.hub[session := r]
    && r in t.cells && t.cells == s.cells[r := t.cells[r]]
    && t.cells[r].room.members == (if session in s.hub then s.cells[r].room.members else {}) + {c}
    && t.cells[r].room.id == session && !t.cells[r].room.closed && !t.cells[r].room.ended && !t.cells[r].room.stop
    && c in t.peers && t.peers == s.peers[c := t.peers[c]]
    && t.peers[c].client == s.peers[c].client.(joined := true) && t.peers[c].home == Some(r)
    && t.running == s.running + (if session in s.hub then 0 else 1)
  }

  /** A Join of a client that is closed or has joined before ends at its claim, without a trace. */
  lemma JoinRefusedAtClaim(s: State, session: SessionId, c: ClientId)
    requires Enabled(s, EnterJoin(session, c)) && !s.closed && (s.peers[c].client.closed || s.peers[c].client.joined)
    ensures var t := Do(s, EnterJoin(session, c)); Enabled(t, ClaimRoom) && Do(t, ClaimRoom) == s
  {
    assert s.(lock := None) == s;
  }

  function ClaimedBy(s: State, session: SessionId, c: ClientId): State
    requires Enabled(s, EnterJoin(session, c)) && !s.closed
  {
    Do(Do(s, EnterJoin(session, c)), ClaimRoom)
  }

  /** A client that may join: open, and in no room yet. */
  predicate Joinable(s: State, session: SessionId, c: ClientId) {
    Enabled(s, EnterJoin(session, c)) && !s.closed && !s.peers[c].client.closed && !s.peers[c].client.joined
  }

  function WithClaim(s: State, session: SessionId, c: ClientId): State
    requires c in s.peers
  {
    s.(lock := Some(Claimed(session, c)), peers := s.peers[c := s.peers[c].(client := s.peers[c].client.(joined := true))])
  }

  lemma ClaimedIs(s: State, session: SessionId, c: ClientId)
    requires Joinable(s, session, c)
    ensures s.lock == None && c in s.peers && Enabled(s, EnterJoin(session, c)) && ClaimedBy(s, session, c) == WithClaim(s, session, c)
  {
  }

  lemma AddIs(s: State, session: SessionId, c: ClientId, r: RoomRef)
    requires c in s.peers && if session in s.hub then r == s.hub[session] && r in s.cells else r !in s.cells
    ensures var t := WithClaim(s, session, c); Enabled(t, AddClient(r)) && Do(t, AddClient(r)) == DoAdd(t, session, c, r)
  {
  }

  /** A Join into an ended room is rolled back: the state is as it was. */
  lemma JoinRefusedByRoom(s: State, session: SessionId, c: ClientId)
    requires Joinable(s, session, c) && c in s.peers && session in s.hub && s.hub[session] in s.cells && s.cells[s.hub[session]].room.ended
    ensures Enabled(s, EnterJoin(session, c))
    ensures var t := ClaimedBy(s, session, c);
      && Enabled(t, AddClient(s.hub[session]))
      && var u := Do(t, AddClient(s.hub[session])); Enabled(u, RollBack) && Do(u, RollBack) == s
  {
    ClaimedIs(s, session, c);
    AddIs(s, session, c, s.hub[session]);
    var u := DoAdd(WithClaim(s, session, c), session, c, s.hub[session]);
    RolledBack(s, session, c);
    hide Do, Enabled, Joinable, WithClaim;
    assert u == WithClaim(s, session, c).(lock := Some(Refused(session, c)));
  }

  lemma RolledBack(s: State, session: SessionId, c: ClientId)
    requires s.lock == None && c in s.peers && !s.peers[c].client.joined && !s.peers[c].client.closed
    ensures var u := WithClaim(s, session, c).(lock := Some(Refused(session, c))); Enabled(u, RollBack) && Do(u, RollBack) == s
  {
    var v := Do(WithClaim(s, session, c).(lock := Some(Refused(session, c))), RollBack);
    assert v.peers[c] == s.peers[c];
    assert v.peers == s.peers;
  }

  /** Into a room that takes members: the client is in it. */
  lemma JoinsExisting(s: State, session: SessionId, c: ClientId, r: RoomRef)
    requires s.lock == None && !s.closed && c in s.peers && !s.peers[c].client.closed
    requires session in s.hub && r == s.hub[session] && r in s.cells
    requires var room := s.cells[r].room; room.id == session && !room.closed && !room.ended && !room.stop
    ensures JoinedInto(s, DoAdd(WithClaim(s, session, c), session, c, r), session, c, r)
  {
    assert s.hub[session := r] == s.hub;
  }

  /** Into a session without a room: the client is in a new one, whose goroutine is started. */
  lemma JoinsNew(s: State, session: SessionId, c: ClientId, r: RoomRef)
    requires s.lock == None && !s.closed && c in s.peers && !s.peers[c].client.closed
    requires session !in s.hub && r !in s.cells
    ensures var u := DoAdd(WithClaim(s, session, c), session, c, r); Enabled(u, Publish) && JoinedInto(s, Do(u, Publish), session, c, r)
  {
    var u := DoAdd(WithClaim(s, session, c), session, c, r);
    assert u.lock == Some(Created(session, c, r)) && r in u.cells;
    Published(u);
    hide Do, Enabled;
    assert u.cells[r := u.cells[r].(pc := Selecting)] == s.cells[r := u.cells[r].(pc := Selecting)];
  }

  lemma Published(u: State)
    requires u.lock.Some? && u.lock.value.Created? && u.lock.value.room in u.cells
    ensures Enabled(u, Publish)
    ensures var j := u.lock.value;
      Do(u, Publish) == u.(lock := None, hub := u.hub[j.session := j.room], running := u.running + 1,
                           cells := u.cells[j.room := u.cells[j.room].(pc := Selecting)])
  {
  }

  /**
   A Join nothing comes in between, in any reachable state: refused without a trace for a client that is closed or joined and for a
   session whose room has ended; otherwise the client is in the room.
   */
  lemma JoinAlone(capacity: nat, steps: seq<Step>, session: SessionId, c: ClientId, r: RoomRef)
    requires capacity > 0 && Runs(Initial(capacity), steps)
    requires var s := After(Initial(capacity), steps);
      && s.lock == None && session > 0 && c in s.peers && !s.closed
      && (if session in s.hub then r == s.hub[session] else r !in s.cells)
    ensures var s := After(Initial(capacity), steps);
      && Enabled(s, EnterJoin(session, c)) && (session in s.hub ==> r in s.cells)
      && if s.peers[c].client.closed || s.peers[c].client.joined then ClaimedBy(s, session, c) == s
         else
           && Enabled(ClaimedBy(s, session, c), AddClient(r))
           && var u := Do(ClaimedBy(s, session, c), AddClient(r));
              if session !in s.hub then Enabled(u, Publish) && JoinedInto(s, Do(u, Publish), session, c, r)
              else if s.cells[r].room.ended then Enabled(u, RollBack) && Do(u, RollBack) == s
              else JoinedInto(s, u, session, c, r)
  {
    HubResults.Reachable(capacity, steps);
    var s := After(Initial(capacity), steps);
    assert Enabled(s, EnterJoin(session, c));
    hide Inv, JoinedInto, WithClaim, DoAdd, Attached, CellOk;
    if s.peers[c].client.closed || s.peers[c].client.joined {
      JoinRefusedAtClaim(s, session, c);
    } else {
      assert Joinable(s, session, c);
      if session in s.hub {
        AttachedRoom(s, session);
      }
      hide Do, Enabled, Joinable;
      ClaimedIs(s, session, c);
      AddIs(s, session, c, r);
      if session !in s.hub {
        JoinsNew(s, session, c, r);
      } else if s.cells[r].room.ended {
        JoinRefusedByRoom(s, session, c);
      } else {
        JoinsExisting(s, session, c, r);
      }
    }
  }

  lemma AttachedRoom(s: State, session: SessionId)
    requires Inv(s) && session in s.hub
    ensures var r := s.hub[session];
      r in s.cells && s.cells[r].room.id == session && !s.cells[r].room.closed && !s.cells[r].room.stop && !s.closed
  {
    HubResults.HubAttached(s, session);
    CellInv(s, s.hub[session]);
  }

  /** The state once client c has left room r, its session's. */
  predicate Left(s: State, t: State, call: CallId, session: SessionId, c: ClientId, r: RoomRef)
    requires r in s.cells
  {
    var members := s.cells[r].room.members;
    && r in t.cells && t.cells[r].room.members == members - {c} && t.cells[r].room.stop == s.cells[r].room.stop
    && (c in members ==> c in t.peers && t.peers[c].client.closed && !t.peers[c].client.joined)
    && (forall d <- s.peers :: d != c || c !in members ==> d in t.peers && t.peers[d] == s.peers[d])
    && t.hub == (if members <= {c} then s.hub - {session} else s.hub)
    && t.calls == (if members <= {c} then s.calls[call := Leaving({r})] else s.calls)
  }

  /**
   A Leave takes the client out of its session's room and closes it if it was there; a room left empty is out of the hub at once and
   its stop is the next step of the call.
   */
  lemma LeaveAlone(capacity: nat, steps: seq<Step>, call: CallId, session: SessionId, c: ClientId)
    requires capacity > 0 && Runs(Initial(capacity), steps)
    requires var s := After(Initial(capacity), steps); s.lock == None && call !in s.calls && session in s.hub
    ensures var s := After(Initial(capacity), steps);
      var r := s.hub[session];
      && Enabled(s, Leave(call, session, c)) && r in s.cells
      && var t := Do(s, Leave(call, session, c));
         && Left(s, t, call, session, c, r)
         && (s.cells[r].room.members <= {c} ==>
               Enabled(t, RequestStop(call, r)) && Holds(t, r, s.cells[r].pc) && r in Do(t, RequestStop(call, r)).cells
               && Do(t, RequestStop(call, r)).cells[r].room.stop)
  {
    HubResults.Reachable(capacity, steps);
    var s := After(Initial(capacity), steps);
    AttachedRoom(s, session);
    var r := s.hub[session];
    assert Enabled(s, Leave(call, session, c)) && Do(s, Leave(call, session, c)) == DoLeave(s, call, r, session, c);
    MembersArePeers(s, c, r);
    hide Inv;
    LeaveDoes(s, call, session, c, r);
    var t := DoLeave(s, call, r, session, c);
    if s.cells[r].room.members <= {c} {
      StopFollows(t, call, r);
    }
    hide Do, Enabled;
  }

  lemma MembersArePeers(s: State, c: ClientId, r: RoomRef)
    requires Inv(s) && r in s.cells
    ensures c in s.cells[r].room.members ==> c in s.peers && (s.peers[c].client.closed ==> !s.peers[c].client.joined)
  {
    if c in s.cells[r].room.members {
      assert c in s.peers;
      PeerInv(s, c);
    }
  }

  lemma LeaveDoes(s: State, call: CallId, session: SessionId, c: ClientId, r: RoomRef)
    requires r in s.cells && (c in s.cells[r].room.members ==> c in s.peers && (s.peers[c].client.closed ==> !s.peers[c].client.joined))
    ensures var t := DoLeave(s, call, r, session, c);
      Left(s, t, call, session, c, r) && Holds(t, r, s.cells[r].pc)
  {
    var members := s.cells[r].room.members;
    assert members - {c} == {} <==> members <= {c};
    assert members * {c} == if c in members then {c} else {};
  }

  lemma StopFollows(t: State, call: CallId, r: RoomRef)
    requires r in t.cells && call in t.calls && t.calls[call] == Leaving({r})
    ensures Enabled(t, RequestStop(call, r)) && r in Do(t, RequestStop(call, r)).cells && Do(t, RequestStop(call, r)).cells[r].room.stop
  {
  }

  /** A broadcast to a session's room is queued behind the others exactly when there is room for it, and otherwise changes nothing. */
  lemma BroadcastAlone(capacity: nat, steps: seq<Step>, session: SessionId, m: Message)
    requires capacity > 0 && Runs(Initial(capacity), steps)
    requires After(Initial(capacity), steps).lock == None
    ensures var s := After(Initial(capacity), steps);
      && Enabled(s, SendBroadcast(session, m)) && (session in s.hub ==> s.hub[session] in s.cells)
      && var t := Do(s, SendBroadcast(session, m));
         if session in s.hub && |s.cells[s.hub[session]].room.queue| < capacity
         then
           var r := s.hub[session];
           && r in t.cells && t == s.(cells := s.cells[r := t.cells[r]])
           && t.cells[r].room.queue == s.cells[r].room.queue + [m]
           && t.cells[r].room.members == s.cells[r].room.members
         else t == s
  {
    HubResults.Reachable(capacity, steps);
    var s := After(Initial(capacity), steps);
    HubResults.CapacityStays(Initial(capacity), steps);
    if session in s.hub {
      HubResults.HubAttached(s, session);
      HubResults.AttachedRoomServes(capacity, steps, session);
    }
    hide Inv, Attached;
  }
}
