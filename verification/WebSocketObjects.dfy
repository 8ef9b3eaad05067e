/** A client: one lifetime in one room, and a bounded queue of outgoing frames. */
module WsClient {
  import opened Prelude

  type Message = int

  /** A frame for the browser: a broadcast of the room, or an acknowledgement of the client's own send. */
  datatype Item = Broadcast(message: Message) | Ack(id: nat)

  datatype ClientError = ClientClosed | AlreadyJoined

  /** `closes` counts the closings of the `done` channel: a second one would panic. */
  datatype ClientState = ClientState(capacity: nat, joined: bool, closed: bool, queue: seq<Item>, closes: nat)

  function Fresh(capacity: nat): ClientState {
    ClientState(capacity, false, false, [], 0)
  }

  function Claim(c: ClientState): (ClientState, Option<ClientError>) {
    if c.closed then (c, Some(ClientClosed))
    else if c.joined then (c, Some(AlreadyJoined))
    else (c.(joined := true), None)
  }

  function Rollback(c: ClientState): ClientState {
    if c.closed then c else c.(joined := false)
  }

  predicate Accepts(c: ClientState) {
    !c.closed && |c.queue| < c.capacity
  }

  function Enqueue(c: ClientState, item: Item): ClientState {
    if Accepts(c) then c.(queue := c.queue + [item]) else c
  }

  function Close(c: ClientState): ClientState {
    if c.closed then c else c.(closed := true, joined := false, closes := c.closes + 1)
  }

  /** A room's delivery: a client that cannot take the frame at once is closed. */
  function Offer(c: ClientState, item: Item): ClientState {
    if Accepts(c) then Enqueue(c, item) else Close(c)
  }

  class Client {
    const capacity: nat
    var joined: bool
    var closed: bool
    var outbound: seq<Item>
    var doneCloses: nat

    function View(): ClientState
      reads this
    {
      ClientState(capacity, joined, closed, outbound, doneCloses)
    }

    ghost predicate Valid()
      reads this
    {
      |outbound| <= capacity && doneCloses == (if closed then 1 else 0) && (closed ==> !joined)
    }

    constructor (sendQueueCapacity: nat)
      requires sendQueueCapacity > 0
      ensures Valid() && View() == Fresh(sendQueueCapacity)
    {
      capacity, joined, closed, outbound, doneCloses := sendQueueCapacity, false, false, [], 0;
    }

    method ClaimRoom() returns (err: Option<ClientError>)
      requires Valid()
      modifies this`joined
      ensures Valid() && (View(), err) == Claim(old(View()))
      ensures err == if closed then Some(ClientClosed) else if old(joined) then Some(AlreadyJoined) else None
      ensures joined == !closed
    {
      if closed {
        return Some(ClientClosed);
      }
      if joined {
        return Some(AlreadyJoined);
      }
      joined := true;
      return None;
    }

    method RollbackRoomClaim()
      requires Valid()
      modifies this`joined
      ensures Valid() && View() == Rollback(old(View()))
      ensures !joined
    {
      if !closed {
        joined := false;
      }
    }

    method EnqueueOutbound(item: Item) returns (ok: bool)
      requires Valid()
      modifies this`outbound
      ensures Valid() && View() == Enqueue(old(View()), item) && ok == Accepts(old(View()))
      ensures ok == (!closed && |old(outbound)| < capacity)
      ensures outbound == if ok then old(outbound) + [item] else old(outbound)
    {
      if closed || |outbound| >= capacity {
        return false;
      }
      outbound := outbound + [item];
      return true;
    }

    /** However often it is called, the channel is closed once. */
    method CloseClient()
      requires Valid()
      modifies this`joined, this`closed, this`doneCloses
      ensures Valid() && View() == Close(old(View()))
      ensures closed && !joined && doneCloses == 1
    {
      if closed {
        return;
      }
      closed, joined, doneCloses := true, false, doneCloses + 1;
    }
  }

  lemma ClaimedIsOpen(c: ClientState)
    requires Claim(c).1 == None
    ensures !Claim(c).0.closed
  {
  }

  /** What a refused Join leaves behind: nothing. */
  lemma ClaimThenRollback(c: ClientState)
    requires Claim(c).1 == None
    ensures Rollback(Claim(c).0) == c
  {
  }
}

/** A room: its members, its bounded broadcast queue, and the flags that close it. */
module WsRoom {
  import opened Prelude
  import opened WsClient

  type SessionId = nat

  datatype RoomError = RoomClosed | RoomEnded | MemberClosed | QueueFull

  datatype RoomState<C(==)> = RoomState(id: SessionId, queue: seq<Message>, stop: bool, members: set<C>, closed: bool, ended: bool)

  function NewRoom<C>(id: SessionId): RoomState<C> {
    RoomState(id, [], false, {}, false, false)
  }

  function AddError<C>(r: RoomState<C>, clientClosed: bool): Option<RoomError> {
    if r.closed then Some(RoomClosed)
    else if r.ended then Some(RoomEnded)
    else if clientClosed then Some(MemberClosed)
    else None
  }

  function EnqueueError<C>(r: RoomState<C>, capacity: nat): Option<RoomError> {
    if r.stop then Some(RoomClosed)
    else if |r.queue| >= capacity then Some(QueueFull)
    else None
  }

  predicate SendAllowed<C>(r: RoomState<C>) {
    !r.closed && !r.ended
  }

  // What each operation leaves of the room; the interleaved machine takes the same functions as its steps.

  function With<C>(r: RoomState<C>, c: C): RoomState<C> {
    r.(members := r.members + {c})
  }

  function Without<C>(r: RoomState<C>, c: C): RoomState<C> {
    r.(members := r.members - {c})
  }

  function Queued<C>(r: RoomState<C>, message: Message): RoomState<C> {
    r.(queue := r.queue + [message])
  }

  function Unqueued<C>(r: RoomState<C>): RoomState<C>
    requires r.queue != []
  {
    r.(queue := r.queue[1..])
  }

  /** After a delivery: the members that took the message. */
  function Delivered<C>(r: RoomState<C>, takers: set<C>): RoomState<C> {
    r.(members := takers)
  }

  function AllClosed<C>(r: RoomState<C>): RoomState<C> {
    r.(members := {}, closed := true)
  }

  function MarkedClosed<C>(r: RoomState<C>): RoomState<C> {
    r.(closed := true)
  }

  function MarkedEnded<C>(r: RoomState<C>): RoomState<C> {
    r.(ended := true)
  }

  function ToldToStop<C>(r: RoomState<C>): RoomState<C> {
    r.(stop := true)
  }

  class Room {
    const id: SessionId
    const capacity: nat
    var queue: seq<Message>
    var stop: bool
    var clients: set<Client>
    var closed: bool
    var ended: bool
    /** How often the stop channel has been closed: a second time would panic. */
    var stopCloses: nat

    function View(): RoomState<Client>
      reads this
    {
      RoomState(id, queue, stop, clients, closed, ended)
    }

    ghost predicate Valid()
      reads this, clients
    {
      |queue| <= capacity && StopOnce() && forall c <- clients :: c.Valid()
    }

    ghost predicate StopOnce()
      reads this
    {
      stopCloses == if stop then 1 else 0
    }

    constructor (liveSessionId: SessionId, broadcastQueueCapacity: nat)
      ensures Valid() && View() == NewRoom(liveSessionId) && capacity == broadcastQueueCapacity
    {
      id, capacity, queue, stop, clients, closed, ended := liveSessionId, broadcastQueueCapacity, [], false, {}, false, false;
      stopCloses := 0;
    }

    method Add(client: Client) returns (err: Option<RoomError>)
      requires Valid() && client.Valid()
      modifies this`clients
      ensures Valid() && err == AddError(old(View()), client.closed)
      ensures err == if closed then Some(RoomClosed) else if ended then Some(RoomEnded) else if client.closed then Some(MemberClosed) else None
      ensures clients == if err == None then old(clients) + {client} else old(clients)
      ensures View() == if err == None then With(old(View()), client) else old(View())
    {
      if closed {
        return Some(RoomClosed);
      }
      if ended {
        return Some(RoomEnded);
      }
      if client.closed {
        return Some(MemberClosed);
      }
      clients := clients + {client};
      return None;
    }

    method Remove(client: Client) returns (removed: bool, empty: bool)
      requires Valid()
      modifies this`clients, client
      ensures Valid() && View() == Without(old(View()), client)
      ensures removed == (client in old(clients)) && empty == (clients == {})
      ensures client.View() == if removed then Close(old(client.View())) else old(client.View())
      ensures clients == old(clients) - {client}
      ensures removed ==> client.closed && !client.joined && client.doneCloses == 1 && client.outbound == old(client.outbound)
    {
      if client !in clients {
        assert clients - {client} == clients;
        return false, clients == {};
      }
      clients := clients - {client};
      client.CloseClient();
      return true, clients == {};
    }

    method EnqueueBroadcast(message: Message) returns (err: Option<RoomError>)
      requires Valid()
      modifies this`queue
      ensures Valid() && err == EnqueueError(old(View()), capacity)
      ensures err == if stop then Some(RoomClosed) else if |old(queue)| >= capacity then Some(QueueFull) else None
      ensures queue == if err == None then old(queue) + [message] else old(queue)
      ensures View() == if err == None then Queued(old(View()), message) else old(View())
    {
      if stop {
        return Some(RoomClosed);
      }
      if |queue| < capacity {
        queue := queue + [message];
        return None;
      }
      return Some(QueueFull);
    }

    method OfferTo(client: Client, message: Message) returns (ok: bool)
      requires client.Valid()
      modifies client
      ensures client.Valid() && client.View() == Offer(old(client.View()), Broadcast(message)) && ok == old(Accepts(client.View()))
      ensures ok == old(!client.closed && |client.outbound| < client.capacity)
      ensures ok ==> !client.closed && client.outbound == old(client.outbound) + [Broadcast(message)]
      ensures !ok ==> client.closed && !client.joined && client.doneCloses == 1 && client.outbound == old(client.outbound)
    {
      ok := client.EnqueueOutbound(Broadcast(message));
      if !ok {
        client.CloseClient();
      }
    }

    /** Every member is offered the frame once; the ones that could not take it are closed and dropped. */
    method Deliver(message: Message) returns (empty: bool)
      requires Valid()
      modifies this`clients, clients
      ensures Valid() && empty == (clients == {})
      ensures forall c <- old(clients) :: c.View() == Offer(old(c.View()), Broadcast(message))
      ensures View() == Delivered(old(View()), set c <- old(clients) | old(Accepts(c.View())))
      ensures clients == set c <- old(clients) | old(!c.closed && |c.outbound| < c.capacity)
      ensures forall c <- clients :: !c.closed && c.joined == old(c.joined) && c.outbound == old(c.outbound) + [Broadcast(message)]
      ensures forall c <- old(clients) - clients :: c.closed && !c.joined && c.doneCloses == 1 && c.outbound == old(c.outbound)
    {
      OfferAll(message);
      empty := clients == {};
    }

    /** The loop of the delivery. */
    method OfferAll(message: Message)
      requires forall c <- clients :: c.Valid()
      modifies this`clients, clients
      ensures clients == set c <- old(clients) | old(Accepts(c.View()))
      ensures forall c <- old(clients) :: c.Valid() && c.View() == Offer(old(c.View()), Broadcast(message))
    {
      hide *;
      ghost var all := clients;
      var todo := clients;
      while todo != {}
        invariant todo <= all
        invariant forall c <- all :: c.Valid()
        invariant forall c <- todo :: c.View() == old(c.View())
        invariant forall c <- all - todo :: c.View() == Offer(old(c.View()), Broadcast(message))
        invariant clients == set c <- all | c in todo || old(Accepts(c.View()))
        decreases |todo|
      {
        var c :| c in todo;
        todo := todo - {c};
        var ok := OfferTo(c, message);
        if !ok {
          clients := clients - {c};
        }
      }
    }

    method CloseAll()
      requires Valid()
      modifies this`clients, this`closed, clients
      ensures Valid() && View() == AllClosed(old(View()))
      ensures closed && clients == {}
      ensures forall c <- old(clients) :: c.closed && !c.joined && c.doneCloses == 1 && c.outbound == old(c.outbound)
      ensures forall c <- old(clients) :: c.View() == Close(old(c.View()))
    {
      closed := true;
      CloseEach();
    }

    /** The loop of the closing. */
    method CloseEach()
      requires forall c <- clients :: c.Valid()
      modifies this`clients, clients
      ensures clients == {}
      ensures forall c <- old(clients) :: c.Valid() && c.View() == Close(old(c.View()))
    {
      hide *;
      ghost var all := clients;
      while clients != {}
        invariant clients <= all
        invariant forall c <- all :: c.Valid()
        invariant forall c <- clients :: c.View() == old(c.View())
        invariant forall c <- all - clients :: c.View() == Close(old(c.View()))
        decreases |clients|
      {
        var c :| c in clients;
        clients := clients - {c};
        c.CloseClient();
      }
    }

    method MarkEnded()
      modifies this`ended
      ensures View() == MarkedEnded(old(View()))
      ensures ended && !SendAllowed(View())
    {
      ended := true;
    }

    method MarkClosed()
      modifies this`closed
      ensures View() == MarkedClosed(old(View()))
      ensures closed && !SendAllowed(View())
    {
      closed := true;
    }

    /** However often it is called the stop channel is closed once, by the sync.Once around it. */
    method RequestStop()
      requires StopOnce()
      modifies this`stop, this`stopCloses
      ensures StopOnce() && View() == ToldToStop(old(View()))
      ensures stop && stopCloses == 1
    {
      if !stop {
        stop, stopCloses := true, stopCloses + 1;
      }
    }
  }
}

/** The hub: the map from sessions to rooms, and who may still join. */
module WsHub {
  import opened Prelude
  import opened WsClient
  import opened WsRoom

  datatype HubError = InvalidSession | NilClient | HubClosed | Refused(client: ClientError) | FromRoom(room: RoomError)

  function FromRoomError(e: Option<RoomError>): Option<HubError> {
    match e
    case Some(error) => Some(FromRoom(error))
    case None => None
  }

  /** The rooms after a client left one of them with these members left. */
  function RoomsAfterLeave<R, C>(rooms: map<SessionId, R>, id: SessionId, left: set<C>): map<SessionId, R> {
    if left == {} then rooms - {id} else rooms
  }

  /** A room may take itself out while it is still its session's room and nobody is in it. */
  predicate Removable<R(==), C>(rooms: map<SessionId, R>, id: SessionId, room: R, members: set<C>) {
    id in rooms && rooms[id] == room && members == {}
  }

  class Hub {
    const capacity: nat
    var rooms: map<SessionId, Room>
    var closed: bool
    /** The wait group: goroutines started and not yet done. */
    var running: nat

    ghost predicate Valid()
      reads this, rooms.Values, set r <- rooms.Values, c <- r.clients :: c
    {
      && capacity > 0
      && (forall id <- rooms :: id > 0 && rooms[id].id == id && rooms[id].capacity == capacity && rooms[id].Valid())
    }

    constructor (roomBroadcastQueueCapacity: nat)
      requires roomBroadcastQueueCapacity > 0
      ensures Valid() && rooms == map[] && !closed && running == 0 && capacity == roomBroadcastQueueCapacity
    {
      capacity, rooms, closed, running := roomBroadcastQueueCapacity, map[], false, 0;
    }

    /** A refused Join changes nothing; an accepted one adds the client to the session's room, made for it if there was none. */
    method Join(liveSessionId: SessionId, client: Client?) returns (err: Option<HubError>)
      requires Valid() && (client != null ==> client.Valid())
      modifies this`rooms, this`running, rooms.Values, if client == null then {} else {client}
      ensures Valid()
      ensures liveSessionId == 0 ==> err == Some(InvalidSession)
      ensures liveSessionId > 0 && client == null ==> err == Some(NilClient)
      ensures liveSessionId > 0 && client != null && closed ==> err == Some(HubClosed)
      ensures liveSessionId > 0 && client != null && !closed ==>
                err == match old(Claim(client.View()).1)
                       case Some(e) => Some(Refused(e))
                       case None =>
                         if liveSessionId !in old(rooms) then None
                         else FromRoomError(old(AddError(rooms[liveSessionId].View(), false)))
      ensures err == None <==>
                && liveSessionId > 0 && client != null && !closed && !old(client.closed) && !old(client.joined)
                && (liveSessionId in old(rooms) ==> !old(rooms[liveSessionId].closed) && !old(rooms[liveSessionId].ended))
      ensures err == None ==> client.joined && !client.closed && liveSessionId in rooms
      ensures err == None ==>
                rooms[liveSessionId].clients == {client} + if liveSessionId in old(rooms) then old(rooms[liveSessionId].clients) else {}
      ensures err.Some? ==> rooms == old(rooms) && running == old(running) && (client != null ==> client.View() == old(client.View()))
      ensures err.Some? ==> forall id <- rooms :: rooms[id].View() == old(rooms[id].View())
      ensures err == None ==>
                && client.View() == old(Claim(client.View()).0)
                && rooms.Keys == old(rooms).Keys + {liveSessionId}
                && (forall id <- old(rooms) :: rooms[id] == old(rooms)[id]
                      && (id != liveSessionId ==> rooms[id].View() == old(rooms[id].View())))
                && rooms[liveSessionId].View() == (if liveSessionId in old(rooms)
                                                   then With(old(rooms[liveSessionId].View()), client)
                                                   else With(NewRoom<Client>(liveSessionId), client))
                && running == old(running) + (if liveSessionId in old(rooms) then 0 else 1)
    {
      if liveSessionId == 0 {
        return Some(InvalidSession);
      }
      if client == null {
        return Some(NilClient);
      }
      if closed {
        return Some(HubClosed);
      }
      hide Claim, Rollback, AddError, With;
      ghost var before := client.View();
      var claim := client.ClaimRoom();
      if claim.Some? {
        return Some(Refused(claim.value));
      }
      ClaimedIsOpen(before);
      if liveSessionId in rooms {
        var existing := rooms[liveSessionId];
        var refused := existing.Add(client);
        if refused.Some? {
          client.RollbackRoomClaim();
          ClaimThenRollback(before);
          return Some(FromRoom(refused.value));
        }
        return None;
      }
      Admit(liveSessionId, client);
      return None;
    }

    /** The room a session gets with its first client. A new room is neither closed nor ended, and a claimed client is open. */
    method Admit(liveSessionId: SessionId, client: Client)
      requires Valid() && client.Valid() && !client.closed && liveSessionId > 0 && liveSessionId !in rooms
      modifies this`rooms, this`running
      ensures Valid() && running == old(running) + 1
      ensures liveSessionId in rooms && fresh(rooms[liveSessionId]) && rooms == old(rooms)[liveSessionId := rooms[liveSessionId]]
      ensures rooms[liveSessionId].View() == With(NewRoom<Client>(liveSessionId), client)
    {
      var created := new Room(liveSessionId, capacity);
      var refused := created.Add(client);
      assert refused == None;
      rooms := rooms[liveSessionId := created];
      running := running + 1;
    }

    /** The room that lost its last client is detached before its goroutine is told to stop. */
    method Leave(liveSessionId: SessionId, client: Client?) returns (removed: bool)
      requires Valid() && (client != null ==> client.Valid())
      modifies this`rooms, rooms.Values, if client == null then {} else {client}
      ensures Valid()
      ensures forall id <- old(rooms) :: id != liveSessionId || client == null ==> old(rooms)[id].View() == old(rooms[id].View())
      ensures removed == (client != null && liveSessionId in old(rooms) && client in old(rooms[liveSessionId].clients))
      ensures client != null ==> client.View() == old(if removed then Close(client.View()) else client.View())
      ensures liveSessionId !in old(rooms) || client == null ==> rooms == old(rooms)
      ensures liveSessionId in old(rooms) && client != null ==>
                var left := Without(old(rooms[liveSessionId].View()), client);
                && old(rooms)[liveSessionId].View() == (if left.members == {} then ToldToStop(left) else left)
                && rooms == RoomsAfterLeave(old(rooms), liveSessionId, left.members)
      ensures removed ==> client.closed && !client.joined && client.doneCloses == 1
      ensures liveSessionId in old(rooms) && client != null ==>
                var room := old(rooms)[liveSessionId];
                && room.clients == old(rooms[liveSessionId].clients) - {client}
                && (liveSessionId in rooms <==> room.clients != {})
                && room.stop == (old(rooms[liveSessionId].stop) || room.clients == {})
    {
      if liveSessionId == 0 || client == null {
        return false;
      }
      if liveSessionId !in rooms {
        return false;
      }
      var current := rooms[liveSessionId];
      var empty;
      removed, empty := current.Remove(client);
      if empty {
        rooms := rooms - {liveSessionId};
      }
      if empty {
        current.RequestStop();
      }
    }

    method BroadcastIfPresent(liveSessionId: SessionId, message: Message) returns (present: bool, err: Option<HubError>)
      requires Valid()
      modifies rooms.Values
      ensures Valid()
      ensures forall id <- rooms :: id != liveSessionId || err.Some? ==> rooms[id].View() == old(rooms[id].View())
      ensures liveSessionId == 0 ==> (present, err) == (false, Some(InvalidSession))
      ensures liveSessionId > 0 && closed ==> (present, err) == (false, Some(HubClosed))
      ensures liveSessionId > 0 && !closed && liveSessionId !in rooms ==> (present, err) == (false, None)
      ensures liveSessionId > 0 && !closed && liveSessionId in rooms ==>
                && present && err == FromRoomError(old(EnqueueError(rooms[liveSessionId].View(), capacity)))
                && (err == None ==> rooms[liveSessionId].View() == Queued(old(rooms[liveSessionId].View()), message))
      ensures err == None && present ==> rooms[liveSessionId].queue == old(rooms[liveSessionId].queue) + [message]
      ensures present && err != None ==>
                err == Some(FromRoom(if rooms[liveSessionId].stop then RoomClosed else QueueFull))
                && (!rooms[liveSessionId].stop ==> |rooms[liveSessionId].queue| == capacity)
    {
      if liveSessionId == 0 {
        return false, Some(InvalidSession);
      }
      if closed {
        return false, Some(HubClosed);
      }
      if liveSessionId !in rooms {
        return false, None;
      }
      var refused := rooms[liveSessionId].EnqueueBroadcast(message);
      return true, FromRoomError(refused);
    }

    method MarkSessionEnded(liveSessionId: SessionId) returns (present: bool)
      requires Valid()
      modifies rooms.Values
      ensures Valid()
      ensures present == (liveSessionId in rooms)
      ensures forall id <- rooms :: id != liveSessionId ==> rooms[id].View() == old(rooms[id].View())
      ensures present ==> rooms[liveSessionId].View() == MarkedEnded(old(rooms[liveSessionId].View()))
      ensures present ==> rooms[liveSessionId].ended && !SendAllowed(rooms[liveSessionId].View())
    {
      if liveSessionId !in rooms {
        return false;
      }
      rooms[liveSessionId].MarkEnded();
      return true;
    }

    /** The room's own goroutine asks after a delivery left it empty; it may no longer be the session's room. */
    method RemoveIfEmpty(candidate: Room) returns (removed: bool)
      modifies this`rooms
      ensures removed == Removable(old(rooms), candidate.id, candidate, candidate.clients)
      ensures removed == (candidate.id in old(rooms) && old(rooms)[candidate.id] == candidate && candidate.clients == {})
      ensures rooms == if removed then old(rooms) - {candidate.id} else old(rooms)
    {
      if candidate.id !in rooms || rooms[candidate.id] != candidate || candidate.clients != {} {
        return false;
      }
      rooms := rooms - {candidate.id};
      return true;
    }

    /** One turn of the room's goroutine: `takeStop` is the choice its select makes when both channels are ready. */
    method RunTurn(room: Room, takeStop: bool) returns (done: bool)
      requires room.Valid() && (if takeStop then room.stop else room.queue != [])
      modifies this`rooms, room, room.clients
      ensures takeStop ==> done && rooms == old(rooms) && room.View() == AllClosed(old(room.View()))
      ensures takeStop ==> forall c <- old(room.clients) :: c.View() == Close(old(c.View()))
      ensures !takeStop ==>
                var kept := set c <- old(room.clients) | old(Accepts(c.View()));
                var served := Delivered(Unqueued(old(room.View())), kept);
                && done == Removable(old(rooms), room.id, room, kept)
                && room.View() == (if done then MarkedClosed(served) else served)
                && rooms == if done then old(rooms) - {room.id} else old(rooms)
      ensures !takeStop ==> forall c <- old(room.clients) :: c.View() == Offer(old(c.View()), Broadcast(old(room.queue)[0]))
      ensures !takeStop ==>
                && room.queue == old(room.queue)[1..]
                && room.clients == (set c <- old(room.clients) | old(!c.closed && |c.outbound| < c.capacity))
                && (done <==> room.clients == {} && room.id in old(rooms) && old(rooms)[room.id] == room)
                && (done ==> room.closed && room.id !in rooms)
                && (!done ==> room.closed == old(room.closed) && rooms == old(rooms))
      ensures room.stop == old(room.stop) && room.ended == old(room.ended)
      ensures !takeStop ==> forall c <- room.clients :: !c.closed && c.outbound == old(c.outbound) + [Broadcast(old(room.queue)[0])]
      ensures forall c <- old(room.clients) - room.clients :: c.closed && !c.joined && c.doneCloses == 1 && c.outbound == old(c.outbound)
      ensures takeStop ==> room.closed && room.clients == {}
    {
      hide Offer, Accepts, Close;
      if takeStop {
        room.CloseAll();
        return true;
      }
      var message := room.queue[0];
      room.queue := room.queue[1..];
      var empty := room.Deliver(message);
      if empty {
        var removed := RemoveIfEmpty(room);
        if removed {
          room.MarkClosed();
          return true;
        }
      }
      return false;
    }

    /** Everything Shutdown does before it waits: no room stays attached and every one of them is told to stop. */
    method BeginShutdown()
      requires Valid()
      modifies this`closed, this`rooms, rooms.Values
      ensures Valid()
      ensures closed && rooms == map[]
      ensures forall r <- old(rooms).Values :: r.View() == ToldToStop(old(r.View())) && r.stop && r.stopCloses == 1
    {
      closed := true;
      var detached := CollectRooms();
      StopAll(detached);
    }

    method CollectRooms() returns (detached: set<Room>)
      modifies this`rooms
      ensures rooms == map[] && detached == old(rooms).Values
    {
      ghost var all := rooms;
      detached := {};
      while rooms.Keys != {}
        invariant forall id <- rooms :: id in all && rooms[id] == all[id]
        invariant forall id <- all :: id in rooms || all[id] in detached
        invariant detached <= all.Values
        decreases |rooms.Keys|
      {
        var id :| id in rooms.Keys;
        detached := detached + {rooms[id]};
        rooms := rooms - {id};
      }
    }

    static method StopAll(detached: set<Room>)
      requires forall r <- detached :: r.StopOnce()
      modifies detached
      ensures forall r <- detached :: r.View() == ToldToStop(old(r.View())) && r.stop && r.stopCloses == 1
    {
      var todo := detached;
      while todo != {}
        invariant todo <= detached
        invariant forall r <- detached :: r.StopOnce()
        invariant forall r <- todo :: r.View() == old(r.View())
        invariant forall r <- detached - todo :: r.View() == ToldToStop(old(r.View())) && r.stop
        decreases |todo|
      {
        var r :| r in todo;
        r.RequestStop();
        todo := todo - {r};
      }
    }
  }
}
