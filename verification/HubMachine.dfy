/**
 The hub, its rooms and its clients as an interleaving of critical sections. Join holds the hub's lock over its claim,
 add and rollback; a room's goroutine receives, delivers, asks to be removed and marks itself closed in separate steps;
 the stop that Leave and Shutdown owe a room they detached comes after the hub's lock is released.
 */
module HubMachine {
  import opened Prelude
  import opened WsClient
  import opened WsRoom
  import WsHub

  type ClientId = nat
  type RoomRef = nat
  type CallId = nat

  /** Where a room's goroutine stands; Removed has taken its room out of the hub and not yet marked it closed. */
  datatype Pc = Unstarted | Selecting | Holding(message: Message) | Emptied | Removed | Finished

  datatype Detacher = Itself | ByLeave(call: CallId) | ByShutdown(call: CallId)

  /** `accepted`, `delivered` and `detached` are history. */
  datatype Cell = Cell(room: RoomState<ClientId>, pc: Pc, accepted: seq<Message>, delivered: seq<Message>, detached: seq<Detacher>)

  /** `home`, `from` and `sent` are history: the room joined, how much it had delivered by then, every frame ever queued. */
  datatype Peer = Peer(client: ClientState, home: Option<RoomRef>, from: nat, sent: seq<Item>)

  /** The Join that holds the hub's lock. */
  datatype Joining = Entered(session: SessionId, client: ClientId)
                   | Claimed(session: SessionId, client: ClientId)
                   | Refused(session: SessionId, client: ClientId)
                   | Created(session: SessionId, client: ClientId, room: RoomRef)

  /** A Leave or Shutdown past its critical section, with the stops it still owes. */
  datatype Call = Leaving(rooms: set<RoomRef>) | Stopping(rooms: set<RoomRef>) | Returned(complete: bool)

  datatype State = State(capacity: nat, hub: map<SessionId, RoomRef>, closed: bool, running: int, lock: Option<Joining>,
                         cells: map<RoomRef, Cell>, peers: map<ClientId, Peer>, calls: map<CallId, Call>)

  datatype Step = NewClient(client: ClientId, capacity: nat)
                | EnterJoin(session: SessionId, client: ClientId)
                | ClaimRoom
                | AddClient(room: RoomRef)
                | RollBack
                | Publish
                | Leave(call: CallId, session: SessionId, client: ClientId)
                | SendBroadcast(session: SessionId, message: Message)
                | EndSession(session: SessionId)
                | BeginShutdown(call: CallId)
                | RequestStop(call: CallId, room: RoomRef)
                | WaitDone(call: CallId)
                | GiveUp(call: CallId)
                | Receive(room: RoomRef)
                | DeliverHeld(room: RoomRef)
                | RemoveIfEmpty(room: RoomRef)
                | MarkClosed(room: RoomRef)
                | StopRoom(room: RoomRef)
                | SendAck(client: ClientId, id: nat)
                | Write(client: ClientId)

  function Initial(capacity: nat): State {
    State(capacity, map[], false, 0, None, map[], map[], map[])
  }

  function Owed(call: Call): set<RoomRef> {
    if call.Returned? then {} else call.rooms
  }

  predicate Holds(s: State, r: RoomRef, pc: Pc) {
    r in s.cells && s.cells[r].pc == pc
  }

  predicate Waits(s: State, call: CallId) {
    call in s.calls && s.calls[call] == Stopping({})
  }

  predicate Enabled(s: State, step: Step) {
    match step
    case NewClient(c, capacity) => c !in s.peers && capacity > 0
    case EnterJoin(session, c) => s.lock == None && session > 0 && c in s.peers
    case ClaimRoom => s.lock.Some? && s.lock.value.Entered? && s.lock.value.client in s.peers
    case AddClient(r) =>
      && s.lock.Some? && s.lock.value.Claimed? && s.lock.value.client in s.peers
      && (if s.lock.value.session in s.hub then r == s.hub[s.lock.value.session] && r in s.cells else r !in s.cells)
    case RollBack => s.lock.Some? && s.lock.value.Refused? && s.lock.value.client in s.peers
    case Publish => s.lock.Some? && s.lock.value.Created? && s.lock.value.room in s.cells
    case Leave(call, session, c) => s.lock == None && call !in s.calls && (session in s.hub ==> s.hub[session] in s.cells)
    case SendBroadcast(session, _) => s.lock == None && (session in s.hub ==> s.hub[session] in s.cells)
    case EndSession(session) => s.lock == None && (session in s.hub ==> s.hub[session] in s.cells)
    case BeginShutdown(call) => s.lock == None && call !in s.calls
    case RequestStop(call, r) => call in s.calls && r in Owed(s.calls[call]) && r in s.cells
    case WaitDone(call) => Waits(s, call) && s.running == 0
    case GiveUp(call) => Waits(s, call)
    case Receive(r) => Holds(s, r, Selecting) && s.cells[r].room.queue != []
    case DeliverHeld(r) => r in s.cells && s.cells[r].pc.Holding?
    case RemoveIfEmpty(r) => s.lock == None && Holds(s, r, Emptied)
    case MarkClosed(r) => Holds(s, r, Removed)
    case StopRoom(r) => Holds(s, r, Selecting) && s.cells[r].room.stop
    case SendAck(c, _) => c in s.peers
    case Write(c) => c in s.peers && s.peers[c].client.queue != []
  }

  function Sent(p: Peer, item: Item): Peer {
    if Accepts(p.client) then p.(client := Enqueue(p.client, item), sent := p.sent + [item]) else p
  }

  function Offered(p: Peer, item: Item): Peer {
    p.(client := Offer(p.client, item), sent := if Accepts(p.client) then p.sent + [item] else p.sent)
  }

  function OfferAll(peers: map<ClientId, Peer>, members: set<ClientId>, item: Item): map<ClientId, Peer> {
    map c <- peers :: if c in members then Offered(peers[c], item) else peers[c]
  }

  function CloseAll(peers: map<ClientId, Peer>, members: set<ClientId>): map<ClientId, Peer> {
    map c <- peers :: if c in members then peers[c].(client := Close(peers[c].client)) else peers[c]
  }

  function Takers(peers: map<ClientId, Peer>, members: set<ClientId>): set<ClientId> {
    set c <- members | c in peers && Accepts(peers[c].client)
  }

  function Do(s: State, step: Step): State
    requires Enabled(s, step)
  {
    match step
    case NewClient(c, capacity) => s.(peers := s.peers[c := Peer(Fresh(capacity), None, 0, [])])
    case EnterJoin(session, c) => if s.closed then s else s.(lock := Some(Entered(session, c)))
    case ClaimRoom => DoClaim(s, s.lock.value.session, s.lock.value.client)
    case AddClient(r) => DoAdd(s, s.lock.value.session, s.lock.value.client, r)
    case RollBack =>
      var c := s.lock.value.client;
      s.(lock := None, peers := s.peers[c := s.peers[c].(client := Rollback(s.peers[c].client))])
    case Publish =>
      var j := s.lock.value;
      s.(lock := None, hub := s.hub[j.session := j.room], running := s.running + 1, cells := s.cells[j.room := s.cells[j.room].(pc := Selecting)])
    case Leave(call, session, c) => if session in s.hub then DoLeave(s, call, s.hub[session], session, c) else s
    case SendBroadcast(session, m) => if s.closed || session !in s.hub then s else DoBroadcast(s, s.hub[session], m)
    case EndSession(session) => if session in s.hub then InRoom(s, s.hub[session], MarkedEnded(s.cells[s.hub[session]].room)) else s
    case BeginShutdown(call) => DoShutdown(s, call)
    case RequestStop(call, r) =>
      var left := Owed(s.calls[call]) - {r};
      InRoom(s, r, ToldToStop(s.cells[r].room)).(calls := s.calls[call := s.calls[call].(rooms := left)])
    case WaitDone(call) => s.(calls := s.calls[call := Returned(true)])
    case GiveUp(call) => s.(calls := s.calls[call := Returned(false)])
    case Receive(r) =>
      var room := s.cells[r].room;
      s.(cells := s.cells[r := s.cells[r].(pc := Holding(room.queue[0]), room := Unqueued(room))])
    case DeliverHeld(r) => DoDeliver(s, r)
    case RemoveIfEmpty(r) => DoRemove(s, r)
    case MarkClosed(r) => s.(running := s.running - 1, cells := s.cells[r := s.cells[r].(pc := Finished, room := MarkedClosed(s.cells[r].room))])
    case StopRoom(r) =>
      var room := s.cells[r].room;
      s.(running := s.running - 1, peers := CloseAll(s.peers, room.members),
         cells := s.cells[r := s.cells[r].(pc := Finished, room := AllClosed(room))])
    case SendAck(c, id) => s.(peers := s.peers[c := Sent(s.peers[c], Ack(id))])
    case Write(c) =>
      var client := s.peers[c].client;
      s.(peers := s.peers[c := s.peers[c].(client := client.(queue := client.queue[1..]))])
  }

  function InRoom(s: State, r: RoomRef, room: RoomState<ClientId>): State
    requires r in s.cells
  {
    s.(cells := s.cells[r := s.cells[r].(room := room)])
  }

  function DoClaim(s: State, session: SessionId, c: ClientId): State
    requires c in s.peers
  {
    var (client, err) := Claim(s.peers[c].client);
    if err.Some? then s.(lock := None)
    else s.(lock := Some(Claimed(session, c)), peers := s.peers[c := s.peers[c].(client := client)])
  }

  function DoAdd(s: State, session: SessionId, c: ClientId, r: RoomRef): State
    requires c in s.peers && (session in s.hub ==> r in s.cells)
  {
    var cell := if session in s.hub then s.cells[r] else Cell(NewRoom(session), Unstarted, [], [], []);
    if AddError(cell.room, s.peers[c].client.closed).Some? then s.(lock := Some(Refused(session, c)))
    else
      s.(lock := if session in s.hub then None else Some(Created(session, c, r)),
         cells := s.cells[r := cell.(room := With(cell.room, c))],
         peers := s.peers[c := s.peers[c].(home := Some(r), from := |cell.delivered|)])
  }

  function DoLeave(s: State, call: CallId, r: RoomRef, session: SessionId, c: ClientId): State
    requires r in s.cells
  {
    var room := s.cells[r].room;
    var left := Without(room, c);
    var t := s.(peers := CloseAll(s.peers, room.members * {c}), hub := WsHub.RoomsAfterLeave(s.hub, session, left.members));
    var cell := s.cells[r].(room := left);
    if left.members == {}
    then t.(calls := s.calls[call := Leaving({r})],
            cells := s.cells[r := cell.(detached := cell.detached + [ByLeave(call)])])
    else t.(cells := s.cells[r := cell])
  }

  function DoBroadcast(s: State, r: RoomRef, m: Message): State
    requires r in s.cells
  {
    var cell := s.cells[r];
    if EnqueueError(cell.room, s.capacity).Some? then s
    else s.(cells := s.cells[r := cell.(room := Queued(cell.room, m), accepted := cell.accepted + [m])])
  }

  function DoShutdown(s: State, call: CallId): State {
    var rooms := s.hub.Values;
    s.(closed := true, hub := map[], calls := s.calls[call := Stopping(rooms)],
       cells := map r <- s.cells :: if r in rooms then s.cells[r].(detached := s.cells[r].detached + [ByShutdown(call)]) else s.cells[r])
  }

  function DoDeliver(s: State, r: RoomRef): State
    requires r in s.cells && s.cells[r].pc.Holding?
  {
    var cell := s.cells[r];
    var m := cell.pc.message;
    var kept := Takers(s.peers, cell.room.members);
    s.(peers := OfferAll(s.peers, cell.room.members, Broadcast(m)),
       cells := s.cells[r := cell.(pc := if kept == {} then Emptied else Selecting,
                                   room := Delivered(cell.room, kept), delivered := cell.delivered + [m])])
  }

  function DoRemove(s: State, r: RoomRef): State
    requires r in s.cells
  {
    var cell := s.cells[r];
    if WsHub.Removable(s.hub, cell.room.id, r, cell.room.members)
    then s.(hub := s.hub - {cell.room.id}, cells := s.cells[r := cell.(pc := Removed, detached := cell.detached + [Itself])])
    else s.(cells := s.cells[r := cell.(pc := Selecting)])
  }

  predicate Attached(s: State, r: RoomRef) {
    r in s.cells && s.cells[r].room.id in s.hub && s.hub[s.cells[r].room.id] == r
  }

  predicate Runs(s: State, steps: seq<Step>)
    decreases |steps|
  {
    steps != [] ==> Enabled(s, steps[0]) && Runs(Do(s, steps[0]), steps[1..])
  }

  function After(s: State, steps: seq<Step>): State
    requires Runs(s, steps)
    decreases |steps|
  {
    if steps == [] then s else After(Do(s, steps[0]), steps[1..])
  }

  // ---- The invariant ----

  /** The room a Join has made and not yet published. */
  predicate Building(s: State, r: RoomRef) {
    s.lock.Some? && s.lock.value.Created? && s.lock.value.room == r
  }

  function Held(pc: Pc): seq<Message> {
    if pc.Holding? then [pc.message] else []
  }

  predicate Serving(pc: Pc) {
    pc == Selecting || pc.Holding? || pc == Emptied
  }

  /** In the hub: open, never told to stop, served by its goroutine, and empty only until that asks to remove it. */
  predicate AttachedOk(cell: Cell) {
    && cell.detached == [] && !cell.room.closed && !cell.room.stop && Serving(cell.pc)
    && (cell.room.members == {} ==> cell.pc == Emptied)
  }

  predicate BuildingOk(cell: Cell) {
    cell.detached == [] && !cell.room.closed && !cell.room.stop && !cell.room.ended && cell.pc == Unstarted && cell.room.members != {}
    && cell.room.queue == [] && cell.delivered == []
  }

  /** Out of the hub: detached exactly once, and still populated only when a Shutdown took it. */
  predicate DetachedOk(s: State, r: RoomRef, cell: Cell) {
    && |cell.detached| == 1
    && (cell.room.closed <==> cell.pc == Finished)
    && (cell.pc == Finished ==> cell.room.members == {})
    && (cell.detached == [Itself] ==> (cell.pc == Removed || cell.pc == Finished) && !cell.room.stop)
    && (cell.detached != [Itself] ==> Serving(cell.pc) || (cell.pc == Finished && cell.room.stop))
    && (cell.detached[0].ByShutdown? ==> s.closed)
    && (!cell.detached[0].ByShutdown? ==> cell.room.members == {})
    && (cell.detached != [Itself] && !cell.room.stop ==>
          cell.detached[0].call in s.calls && r in Owed(s.calls[cell.detached[0].call]))
  }

  predicate QueueOk(s: State, cell: Cell) {
    |cell.room.queue| <= s.capacity && cell.accepted == cell.delivered + Held(cell.pc) + cell.room.queue
  }

  predicate CellOk(s: State, r: RoomRef)
    requires r in s.cells
  {
    && QueueOk(s, s.cells[r])
    && (if Attached(s, r) then AttachedOk(s.cells[r])
        else if Building(s, r) then BuildingOk(s.cells[r])
        else DetachedOk(s, r, s.cells[r]))
  }

  predicate CellsOk(s: State) {
    forall r <- s.cells :: CellOk(s, r)
  }

  predicate HubOk(s: State) {
    && s.capacity > 0
    && (forall id <- s.hub :: s.hub[id] in s.cells && s.cells[s.hub[id]].room.id == id)
    && (s.closed ==> s.hub == map[] && s.lock == None)
  }

  predicate Claiming(s: State, c: ClientId) {
    s.lock.Some? && (s.lock.value.Claimed? || s.lock.value.Refused?) && s.lock.value.client == c
  }

  predicate LockOk(s: State) {
    s.lock.Some? ==>
      var j := s.lock.value;
      && j.session > 0 && j.client in s.peers
      && (j.Claimed? || j.Refused? ==> s.peers[j.client].home == None && s.peers[j.client].client.joined)
      && (j.Created? ==> j.session !in s.hub && j.room in s.cells && s.cells[j.room].room.id == j.session)
  }

  function Heard(sent: seq<Item>): seq<Message> {
    if sent == [] then []
    else Heard(sent[..|sent| - 1]) + match sent[|sent| - 1] case Broadcast(m) => [m] case Ack(_) => []
  }

  /** The client's own flags and queue. */
  predicate ClientOk(p: Peer) {
    && p.client.closes == (if p.client.closed then 1 else 0)
    && (p.client.closed ==> !p.client.joined && p.home.Some?)
    && |p.client.queue| <= p.client.capacity
    && |p.client.queue| <= |p.sent| && p.client.queue == p.sent[|p.sent| - |p.client.queue|..]
  }

  /** What a client was sent of its room's broadcasts: without a gap from the moment it joined, and all of them while it stays. */
  predicate SegmentOk(p: Peer, delivered: seq<Message>) {
    var n := |Heard(p.sent)|;
    && p.from + n <= |delivered|
    && Heard(p.sent) == delivered[p.from..p.from + n]
    && (!p.client.closed ==> p.from + n == |delivered|)
  }

  predicate PeerOk(s: State, c: ClientId)
    requires c in s.peers
  {
    var p := s.peers[c];
    && ClientOk(p)
    && (p.home == None ==> Heard(p.sent) == [] && (p.client.joined ==> Claiming(s, c)))
    && (p.home.Some? ==> p.home.value in s.cells && SegmentOk(p, s.cells[p.home.value].delivered))
  }

  predicate PeersOk(s: State) {
    forall c <- s.peers :: PeerOk(s, c)
  }

  /** Membership: exactly the clients that joined this room and are still open. */
  predicate MembersOk(s: State) {
    && (forall r <- s.cells, c <- s.cells[r].room.members ::
          c in s.peers && s.peers[c].home == Some(r))
    && (forall c <- s.peers :: s.peers[c].home.Some? ==>
          var r := s.peers[c].home.value;
          && r in s.cells
          && (c in s.cells[r].room.members <==> !s.peers[c].client.closed)
          && (!s.peers[c].client.closed ==> s.peers[c].client.joined))
  }

  predicate CallsOk(s: State) {
    && (forall call <- s.calls, r <- Owed(s.calls[call]) :: r in s.cells && !s.cells[r].room.stop
          && (s.cells[r].detached == [ByLeave(call)] || s.cells[r].detached == [ByShutdown(call)]))
    && (forall call <- s.calls :: s.calls[call].Stopping? ==> s.closed)
    && (forall call <- s.calls :: s.calls[call] == Returned(true) ==> s.closed && forall r <- s.cells :: s.cells[r].pc == Finished)
  }

  function Alive(cells: map<RoomRef, Cell>): set<RoomRef> {
    set r <- cells | cells[r].pc != Unstarted && cells[r].pc != Finished
  }

  function Size(rooms: set<RoomRef>): nat {
    |rooms|
  }

  predicate RunningOk(s: State) {
    s.running == Size(Alive(s.cells))
  }

  predicate Inv(s: State) {
    HubOk(s) && LockOk(s) && CellsOk(s) && PeersOk(s) && MembersOk(s) && CallsOk(s) && RunningOk(s)
  }
}
