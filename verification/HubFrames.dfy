/** What every interleaving of the hub keeps: which parts of the invariant a change leaves alone, and the steps on one client. */
module HubFrames {
  import opened Prelude
  import opened WsClient
  import opened WsRoom
  import opened HubMachine

  // ---- Frames ----

  /** Every cell but r stands as it stood. */
  predicate OthersStand(s: State, t: State, r: RoomRef) {
    && t.capacity == s.capacity && (s.closed ==> t.closed)
    && (forall q <- t.cells :: q != r ==> q in s.cells && t.cells[q] == s.cells[q]
                                          && Attached(t, q) == Attached(s, q) && Building(t, q) == Building(s, q))
    && (forall call <- s.calls :: call in t.calls && Owed(s.calls[call]) - {r} <= Owed(t.calls[call]))
  }

  lemma FrameCells(s: State, t: State, r: RoomRef)
    requires CellsOk(s) && OthersStand(s, t, r)
    requires r in t.cells ==> CellOk(t, r)
    ensures CellsOk(t)
  {
    forall q <- t.cells
      ensures CellOk(t, q)
    {
      if q != r {
        assert CellOk(s, q);
        hide Attached, Building, AttachedOk, BuildingOk, Owed;
      }
    }
  }

  predicate SameRooms(s: State, t: State) {
    t.cells.Keys == s.cells.Keys
    && forall q <- s.cells :: t.cells[q].room.members == s.cells[q].room.members && t.cells[q].delivered == s.cells[q].delivered
  }

  lemma FramePeer(s: State, t: State, c: ClientId)
    requires c in s.peers && PeerOk(s, c) && t.peers == s.peers && SameRooms(s, t)
    requires Claiming(s, c) ==> Claiming(t, c)
    ensures PeerOk(t, c)
  {
    hide ClientOk, SegmentOk, Claiming;
  }

  lemma FrameMembers(s: State, t: State)
    requires MembersOk(s) && t.peers == s.peers && SameRooms(s, t)
    ensures MembersOk(t)
  {
  }

  lemma FramePeers(s: State, t: State)
    requires PeersOk(s) && MembersOk(s) && t.peers == s.peers && SameRooms(s, t)
    requires forall c: ClientId :: Claiming(s, c) ==> Claiming(t, c)
    ensures PeersOk(t) && MembersOk(t)
  {
    FrameMembers(s, t);
    hide MembersOk, SameRooms, Claiming;
    forall c <- t.peers
      ensures PeerOk(t, c)
    {
      assert PeerOk(s, c);
      hide PeerOk;
      FramePeer(s, t, c);
    }
  }

  predicate SameCalls(s: State, t: State) {
    && t.calls == s.calls && t.closed == s.closed && (s.closed ==> t.cells.Keys == s.cells.Keys)
    && forall q <- s.cells ::
         && q in t.cells && t.cells[q].room.stop == s.cells[q].room.stop && (s.cells[q].pc == Finished ==> t.cells[q].pc == Finished)
         && (s.cells[q].detached != [] ==> t.cells[q].detached == s.cells[q].detached)
  }

  lemma FrameCalls(s: State, t: State)
    requires CallsOk(s) && SameCalls(s, t)
    ensures CallsOk(t)
  {
  }

  lemma FrameRunning(s: State, t: State)
    requires RunningOk(s) && t.running == s.running && Alive(t.cells) == Alive(s.cells)
    ensures RunningOk(t)
  {
  }

  predicate SameIds(s: State, t: State) {
    forall q <- s.cells :: q in t.cells && t.cells[q].room.id == s.cells[q].room.id
  }

  lemma FrameHub(s: State, t: State)
    requires HubOk(s) && t.capacity == s.capacity && t.closed == s.closed && SameIds(s, t)
    requires t.lock == s.lock || t.lock == None || !s.closed
    requires forall id <- t.hub :: id in s.hub && t.hub[id] == s.hub[id]
    ensures HubOk(t)
  {
    assert s.hub == map[] ==> t.hub == map[];
  }

  predicate SameJoins(s: State, t: State) {
    forall c <- s.peers ::
      && c in t.peers && t.peers[c].home == s.peers[c].home
      && (s.peers[c].home == None ==> t.peers[c].client.joined == s.peers[c].client.joined)
  }

  lemma FrameLock(s: State, t: State)
    requires LockOk(s) && t.lock == s.lock && SameJoins(s, t) && SameIds(s, t) && t.hub.Keys <= s.hub.Keys
    ensures LockOk(t)
  {
  }

  /** A room's members after it was served: the ones it kept are open, the ones it dropped are closed. */
  predicate Served(s: State, t: State, r: RoomRef) {
    && r in s.cells && t.cells.Keys == s.cells.Keys && t.peers.Keys == s.peers.Keys && t.lock == s.lock
    && (forall q <- s.cells :: q != r ==>
          t.cells[q].room.members == s.cells[q].room.members && t.cells[q].delivered == s.cells[q].delivered)
    && s.cells[r].delivered <= t.cells[r].delivered
    && t.cells[r].room.members <= s.cells[r].room.members
    && (forall c <- s.peers :: c !in s.cells[r].room.members ==> t.peers[c] == s.peers[c])
    && (forall c <- s.peers :: c in s.cells[r].room.members ==>
          && t.peers[c].home == s.peers[c].home && ClientOk(t.peers[c]) && SegmentOk(t.peers[c], t.cells[r].delivered)
          && (c in t.cells[r].room.members <==> !t.peers[c].client.closed)
          && (!t.peers[c].client.closed ==> t.peers[c].client.joined))
  }

  lemma ServedMembers(s: State, t: State, r: RoomRef)
    requires MembersOk(s) && Served(s, t, r)
    ensures MembersOk(t) && SameJoins(s, t)
  {
    hide ClientOk, SegmentOk;
    forall c <- t.peers
      ensures t.peers[c].home == s.peers[c].home
      ensures c !in s.cells[r].room.members ==> t.peers[c] == s.peers[c]
    {
    }
  }

  /** What a closed client was sent stays where it was while more is delivered behind it. */
  lemma SegmentStays(p: Peer, before: seq<Message>, after: seq<Message>)
    requires SegmentOk(p, before) && before <= after && p.client.closed
    ensures SegmentOk(p, after)
  {
    var n := |Heard(p.sent)|;
    assert after[p.from..p.from + n] == before[p.from..p.from + n];
  }

  lemma HomeFacts(s: State, c: ClientId, r: RoomRef)
    requires MembersOk(s) && c in s.peers && r in s.cells
    ensures c in s.cells[r].room.members ==> s.peers[c].home == Some(r)
    ensures c !in s.cells[r].room.members && s.peers[c].home == Some(r) ==> s.peers[c].client.closed
  {
  }

  lemma ServedPeer(s: State, t: State, r: RoomRef, c: ClientId)
    requires MembersOk(s) && Served(s, t, r) && c in t.peers && PeerOk(s, c)
    ensures PeerOk(t, c)
  {
    hide MembersOk, ClientOk, Claiming, Heard, SegmentOk;
    SameLockClaims(s, t);
    HomeFacts(s, c, r);
    if c !in s.cells[r].room.members && s.peers[c].home == Some(r) {
      SegmentStays(s.peers[c], s.cells[r].delivered, t.cells[r].delivered);
    }
  }

  lemma FrameServed(s: State, t: State, r: RoomRef)
    requires PeersOk(s) && MembersOk(s) && Served(s, t, r)
    ensures PeersOk(t) && MembersOk(t) && SameJoins(s, t)
  {
    ServedMembers(s, t, r);
    assert t.peers.Keys == s.peers.Keys;
    hide MembersOk, Served, SameJoins;
    forall c <- t.peers
      ensures PeerOk(t, c)
    {
      assert PeerOk(s, c);
      ServedPeer(s, t, r, c);
    }
  }

  // ---- Steps on one client ----

  lemma PeerInv(s: State, c: ClientId)
    requires Inv(s) && c in s.peers
    ensures PeerOk(s, c)
  {
  }

  lemma CellInv(s: State, r: RoomRef)
    requires Inv(s) && r in s.cells
    ensures CellOk(s, r)
  {
  }

  predicate Creating(s: State) {
    s.lock.Some? && s.lock.value.Created?
  }

  /** Only c's own record, and possibly the lock of a Join that has no room yet. */
  predicate PeerChange(s: State, t: State, c: ClientId) {
    && c in t.peers && t.peers == s.peers[c := t.peers[c]]
    && t == s.(peers := t.peers, lock := t.lock)
    && (t.lock == s.lock || (!Creating(s) && !Creating(t) && (t.lock.Some? ==> !s.closed)))
    && (if c in s.peers
        then && t.peers[c].home == s.peers[c].home && t.peers[c].client.closed == s.peers[c].client.closed
             && (t.peers[c].home.Some? ==> t.peers[c].client.joined == s.peers[c].client.joined)
        else t.peers[c].home == None)
  }

  lemma PeerChangeCells(s: State, t: State, c: ClientId)
    requires CellsOk(s) && PeerChange(s, t, c)
    ensures CellsOk(t)
  {
    forall q <- t.cells
      ensures CellOk(t, q)
    {
      assert CellOk(s, q);
      assert Attached(t, q) == Attached(s, q) && Building(t, q) == Building(s, q);
      hide AttachedOk, BuildingOk, Attached, Building;
    }
  }

  lemma PeerChangeMembers(s: State, t: State, c: ClientId)
    requires MembersOk(s) && PeerChange(s, t, c)
    ensures MembersOk(t)
  {
  }

  lemma PeerChangeOthers(s: State, t: State, c: ClientId, d: ClientId)
    requires d in s.peers && d != c && PeerOk(s, d) && PeerChange(s, t, c) && (Claiming(s, d) ==> Claiming(t, d))
    ensures PeerOk(t, d)
  {
    hide ClientOk, SegmentOk, Claiming;
  }

  lemma PeerChangeRest(s: State, t: State, c: ClientId)
    requires HubOk(s) && CallsOk(s) && RunningOk(s) && PeerChange(s, t, c)
    ensures HubOk(t) && CallsOk(t) && RunningOk(t) && t.peers.Keys == s.peers.Keys + {c}
  {
  }

  lemma PeerChangeKeeps(s: State, t: State, c: ClientId)
    requires Inv(s) && PeerChange(s, t, c)
    requires LockOk(t) && PeerOk(t, c)
    requires forall d: ClientId :: d != c && Claiming(s, d) ==> Claiming(t, d)
    ensures Inv(t)
  {
    hide CellsOk, LockOk, MembersOk, Claiming, HubOk, CallsOk, RunningOk, PeerChange, PeerOk;
    PeerChangeCells(s, t, c);
    PeerChangeMembers(s, t, c);
    PeerChangeRest(s, t, c);
    forall d <- t.peers
      ensures PeerOk(t, d)
    {
      if d != c {
        PeerInv(s, d);
        PeerChangeOthers(s, t, c, d);
      }
    }
  }

  /** The same while the lock stands: the client itself neither joins nor leaves. */
  lemma OwnChangeKeeps(s: State, t: State, c: ClientId)
    requires Inv(s) && PeerChange(s, t, c) && t.lock == s.lock && PeerOk(t, c)
    requires c in s.peers ==> t.peers[c].client.joined == s.peers[c].client.joined
    ensures Inv(t)
  {
    assert LockOk(t);
    hide LockOk, PeerOk;
    PeerChangeKeeps(s, t, c);
  }

  lemma HeardAppend(sent: seq<Item>, item: Item)
    ensures Heard(sent + [item]) == Heard(sent) + (if item.Broadcast? then [item.message] else [])
  {
    assert (sent + [item])[..|sent + [item]| - 1] == sent;
  }

  lemma NewClientKeeps(s: State, c: ClientId, capacity: nat)
    requires Inv(s) && c !in s.peers
    ensures Inv(s.(peers := s.peers[c := Peer(Fresh(capacity), None, 0, [])]))
  {
    hide Inv;
    var t := s.(peers := s.peers[c := Peer(Fresh(capacity), None, 0, [])]);
    assert PeerOk(t, c);
    hide PeerOk;
    OwnChangeKeeps(s, t, c);
  }

  lemma NoOtherClaims(s: State, t: State, c: ClientId)
    requires s.lock.Some? ==> s.lock.value.client == c
    ensures forall d: ClientId :: d != c && Claiming(s, d) ==> Claiming(t, d)
  {
  }

  lemma EnterKeeps(s: State, session: SessionId, c: ClientId)
    requires Inv(s) && s.lock == None && !s.closed && session > 0 && c in s.peers
    ensures Inv(s.(lock := Some(Entered(session, c))))
  {
    hide Inv, ClientOk, SegmentOk, Heard;
    var t := s.(lock := Some(Entered(session, c)));
    PeerInv(s, c);
    NoOtherClaims(s, t, c);
    assert PeerOk(t, c) && LockOk(t);
    hide PeerOk, LockOk, Claiming;
    PeerChangeKeeps(s, t, c);
  }

  lemma JoinerFacts(s: State, c: ClientId)
    requires Inv(s) && s.lock.Some? && s.lock.value.client == c
    ensures !s.closed && s.lock.value.session > 0 && c in s.peers
    ensures !s.peers[c].client.joined && !s.peers[c].client.closed ==> s.peers[c].home == None
    ensures s.lock.value.Claimed? || s.lock.value.Refused? ==> s.peers[c].home == None
  {
    hide CellsOk, PeersOk, CallsOk, RunningOk;
  }

  lemma ClaimedPeer(s: State, session: SessionId, c: ClientId)
    requires c in s.peers && PeerOk(s, c) && s.lock == Some(Entered(session, c)) && session > 0
    requires !s.peers[c].client.joined && !s.peers[c].client.closed ==> s.peers[c].home == None
    ensures var t := DoClaim(s, session, c); PeerOk(t, c) && LockOk(t)
  {
    hide SegmentOk, Heard;
  }

  lemma ClaimKeeps(s: State, session: SessionId, c: ClientId)
    requires Inv(s) && s.lock == Some(Entered(session, c)) && c in s.peers
    ensures Inv(DoClaim(s, session, c))
  {
    hide Inv, PeerOk, LockOk;
    PeerInv(s, c);
    JoinerFacts(s, c);
    ClaimedPeer(s, session, c);
    var t := DoClaim(s, session, c);
    NoOtherClaims(s, t, c);
    hide Claiming;
    PeerChangeKeeps(s, t, c);
  }

  lemma RolledBackPeer(s: State, c: ClientId)
    requires c in s.peers && PeerOk(s, c) && s.peers[c].home == None
    ensures PeerOk(s.(lock := None, peers := s.peers[c := s.peers[c].(client := Rollback(s.peers[c].client))]), c)
  {
    hide SegmentOk, Heard;
  }

  lemma RollBackKeeps(s: State, session: SessionId, c: ClientId)
    requires Inv(s) && s.lock == Some(Refused(session, c)) && c in s.peers
    ensures Inv(s.(lock := None, peers := s.peers[c := s.peers[c].(client := Rollback(s.peers[c].client))]))
  {
    hide Inv, PeerOk;
    PeerInv(s, c);
    JoinerFacts(s, c);
    RolledBackPeer(s, c);
    var t := s.(lock := None, peers := s.peers[c := s.peers[c].(client := Rollback(s.peers[c].client))]);
    assert LockOk(t);
    NoOtherClaims(s, t, c);
    hide Claiming, LockOk;
    PeerChangeKeeps(s, t, c);
  }

  /** Appending to the queue appends to the record of what was sent. */
  lemma SentOk(p: Peer, item: Item)
    requires ClientOk(p)
    ensures ClientOk(Sent(p, item))
    ensures var q := Sent(p, item);
      q.home == p.home && q.from == p.from && q.client.joined == p.client.joined && q.client.closed == p.client.closed
    ensures item.Ack? || !Accepts(p.client) ==> Heard(Sent(p, item).sent) == Heard(p.sent)
    ensures item.Broadcast? && Accepts(p.client) ==> Heard(Sent(p, item).sent) == Heard(p.sent) + [item.message]
  {
    assert Heard(p.sent) + [] == Heard(p.sent);
    HeardAppend(p.sent, item);
  }

  lemma AckKeeps(s: State, c: ClientId, id: nat)
    requires Inv(s) && c in s.peers
    ensures Inv(s.(peers := s.peers[c := Sent(s.peers[c], Ack(id))]))
  {
    hide Inv;
    PeerInv(s, c);
    var t := s.(peers := s.peers[c := Sent(s.peers[c], Ack(id))]);
    SentOk(s.peers[c], Ack(id));
    hide Sent, Accepts, ClientOk, Heard;
    assert PeerOk(t, c) by { hide Claiming; assert Claiming(t, c) == Claiming(s, c) by { SameLockClaims(s, t); } }
    hide PeerOk;
    OwnChangeKeeps(s, t, c);
  }

  lemma SameLockClaims(s: State, t: State)
    requires s.lock == t.lock
    ensures forall c: ClientId :: Claiming(s, c) == Claiming(t, c)
  {
  }

  lemma WriteKeeps(s: State, c: ClientId)
    requires Inv(s) && c in s.peers && s.peers[c].client.queue != []
    ensures Inv(s.(peers := s.peers[c := s.peers[c].(client := s.peers[c].client.(queue := s.peers[c].client.queue[1..]))]))
  {
    hide Inv;
    PeerInv(s, c);
    var p := s.peers[c];
    var q := p.(client := p.client.(queue := p.client.queue[1..]));
    var t := s.(peers := s.peers[c := q]);
    assert ClientOk(q) by { assert q.client.queue == q.sent[|q.sent| - |q.client.queue|..]; }
    hide ClientOk, Heard;
    SameLockClaims(s, t);
    assert PeerOk(t, c) by { hide Claiming; }
    hide PeerOk;
    OwnChangeKeeps(s, t, c);
  }

  // ---- Steps on one room ----

  /** Only r's cell, and of it neither the members nor what was delivered nor its standing with the hub. */
  predicate CellChange(s: State, t: State, r: RoomRef) {
    && r in s.cells && r in t.cells && t == s.(cells := s.cells[r := t.cells[r]])
    && var a, b := s.cells[r], t.cells[r];
      && b.room.id == a.room.id && b.room.members == a.room.members && b.delivered == a.delivered
      && b.room.stop == a.room.stop && b.detached == a.detached
      && a.pc != Unstarted && a.pc != Finished && b.pc != Unstarted && b.pc != Finished
  }

  lemma CellChangeKeeps(s: State, t: State, r: RoomRef)
    requires Inv(s) && CellChange(s, t, r) && CellOk(t, r)
    ensures Inv(t)
  {
    hide LockOk, PeersOk, MembersOk, CallsOk, RunningOk, HubOk, CellOk, CellsOk;
    FrameCells(s, t, r);
    assert Alive(t.cells) == Alive(s.cells);
    hide OthersStand, Attached, Building;
    FrameHub(s, t);
    FrameLock(s, t);
    FramePeers(s, t);
    FrameCalls(s, t);
    FrameRunning(s, t);
  }

  lemma BroadcastKeeps(s: State, r: RoomRef, m: Message)
    requires Inv(s) && Attached(s, r)
    ensures Inv(DoBroadcast(s, r, m))
  {
    hide Inv;
    CellInv(s, r);
    if EnqueueError(s.cells[r].room, s.capacity) == None {
      CellChangeKeeps(s, DoBroadcast(s, r, m), r);
    }
  }

  lemma ReceiveKeeps(s: State, r: RoomRef)
    requires Inv(s) && Holds(s, r, Selecting) && s.cells[r].room.queue != []
    ensures Inv(Do(s, Receive(r)))
  {
    hide Inv;
    CellInv(s, r);
    var t := Do(s, Receive(r));
    var queue := s.cells[r].room.queue;
    assert queue == [queue[0]] + queue[1..];
    CellChangeKeeps(s, t, r);
  }

  lemma EndSessionKeeps(s: State, r: RoomRef)
    requires Inv(s) && Attached(s, r)
    ensures Inv(InRoom(s, r, MarkedEnded(s.cells[r].room)))
  {
    hide Inv;
    CellInv(s, r);
    CellChangeKeeps(s, InRoom(s, r, MarkedEnded(s.cells[r].room)), r);
  }

  /** The question came too late, or a client joined in the meantime: the goroutine goes on. */
  lemma GoOnKeeps(s: State, r: RoomRef)
    requires Inv(s) && Holds(s, r, Emptied) && !(Attached(s, r) && s.cells[r].room.members == {})
    ensures Inv(s.(cells := s.cells[r := s.cells[r].(pc := Selecting)]))
  {
    hide Inv;
    CellInv(s, r);
    CellChangeKeeps(s, s.(cells := s.cells[r := s.cells[r].(pc := Selecting)]), r);
  }
}
