/** chat_messages and consumer_inbox, and the transaction that persists one accepted Chat event. */
module ChatStore {
  import opened Prelude

  type EventId = nat

  /** uk_chat_business_key. */
  datatype Key = Key(session: nat, user: nat, message: nat)

  datatype Event = Event(id: EventId, key: Key, content: string, acceptedAt: int)

  datatype Stored = Stored(id: nat, event: EventId, content: string, acceptedAt: int)

  /** Both unique keys are the keys of their collections; row ids come from a counter that is never rolled back. */
  datatype Db = Db(inbox: set<(string, EventId)>, messages: map<Key, Stored>, nextId: nat)

  datatype PersistResult = Persisted | DuplicateEvent | DuplicateMessage | Conflicting

  const EMPTY := Db({}, map[], 1)

  function RowOf(db: Db, e: Event): Stored {
    Stored(db.nextId, e.id, e.content, e.acceptedAt)
  }

  /** The transaction when every statement runs. */
  function Transact(db: Db, consumer: string, e: Event): (Db, PersistResult) {
    if (consumer, e.id) in db.inbox then (db, DuplicateEvent)
    else
      var noted := db.inbox + {(consumer, e.id)};
      if e.key !in db.messages then
        (Db(noted, db.messages[e.key := RowOf(db, e)], db.nextId + 1), Persisted)
      else if db.messages[e.key].content == e.content then
        (Db(noted, db.messages, db.nextId + 1), DuplicateMessage)
      else
        (db.(nextId := db.nextId + 1), Conflicting)
  }

  /** How a call ends: a failing statement rolls everything back; a lost reply hides a commit that happened. */
  datatype Fate = Commits | FailsAt(statement: nat) | ReplyLost

  class ChatRepository {
    var inbox: set<(string, EventId)>
    var messages: map<Key, Stored>
    var nextId: nat

    function View(): Db
      reads this
    {
      Db(inbox, messages, nextId)
    }

    constructor ()
      ensures View() == EMPTY
    {
      inbox, messages, nextId := {}, map[], 1;
    }

    /** Statement 0 inserts the Inbox row, 1 the message, 2 reads the stored message after a key collision. */
    method Persist(consumer: string, e: Event, fate: Fate) returns (result: Result<PersistResult, string>)
      modifies this
      ensures fate == Commits ==> result.Ok? && (View(), result.value) == Transact(old(View()), consumer, e)
      ensures fate == ReplyLost && result.Err? ==> View() == Transact(old(View()), consumer, e).0
      ensures result.Ok? ==> (View(), result.value) == Transact(old(View()), consumer, e)
      ensures fate.FailsAt? && result.Err? ==> inbox == old(inbox) && messages == old(messages) && nextId >= old(nextId)
      ensures fate == ReplyLost ==> result.Err? || result.value == Conflicting
      ensures result.Ok? ==>
                result.value == if (consumer, e.id) in old(inbox) then DuplicateEvent
                                else if e.key !in old(messages) then Persisted
                                else if old(messages)[e.key].content == e.content then DuplicateMessage
                                else Conflicting
      ensures (result.Ok? && result.value != Conflicting) || (result.Err? && fate == ReplyLost) ==>
                && inbox == old(inbox) + {(consumer, e.id)}
                && messages == if (consumer, e.id) in old(inbox) || e.key in old(messages) then old(messages)
                               else old(messages)[e.key := Stored(old(nextId), e.id, e.content, e.acceptedAt)]
      ensures result.Err? <==>
                || fate == FailsAt(0)
                || (fate == FailsAt(1) && (consumer, e.id) !in old(inbox))
                || (fate == FailsAt(2) && (consumer, e.id) !in old(inbox) && e.key in old(messages))
                || (fate == ReplyLost &&
                    ((consumer, e.id) in old(inbox) || e.key !in old(messages) || old(messages)[e.key].content == e.content))
      ensures result == Ok(Conflicting) || (fate.FailsAt? && result.Err?) ==> inbox == old(inbox) && messages == old(messages)
    {
      var inboxBefore, messagesBefore := inbox, messages;
      var outcome := Persisted;
      if fate == FailsAt(0) {
        return Err("insert Inbox row");
      }
      if (consumer, e.id) in inbox {
        assert inbox + {(consumer, e.id)} == inbox;
        outcome := DuplicateEvent;
      } else {
        inbox := inbox + {(consumer, e.id)};
        if fate == FailsAt(1) {
          inbox := inboxBefore;
          return Err("insert Chat message");
        }
        var id := nextId;
        nextId := nextId + 1;
        if e.key !in messages {
          messages := messages[e.key := Stored(id, e.id, e.content, e.acceptedAt)];
        } else {
          if fate == FailsAt(2) {
            inbox := inboxBefore;
            return Err("read Chat message");
          }
          var existing := messages[e.key];
          if existing.content == e.content {
            outcome := DuplicateMessage;
          } else {
            inbox, messages := inboxBefore, messagesBefore;
            return Ok(Conflicting);
          }
        }
      }
      if fate == ReplyLost {
        return Err("commit reply lost");
      }
      return Ok(outcome);
    }
  }

  // ---- First write wins ----

  datatype Attempt = Attempt(consumer: string, event: Event, committed: bool)

  /** Any sequence of deliveries, each of which commits its transaction or rolls it back. */
  function Replay(db: Db, attempts: seq<Attempt>): Db
    decreases |attempts|
  {
    if attempts == [] then db
    else
      var next := if attempts[0].committed then Transact(db, attempts[0].consumer, attempts[0].event).0 else db;
      Replay(next, attempts[1..])
  }

  /** The reference: a map in which the first committed write of a key stays. */
  function FirstWrites(m: map<Key, string>, attempts: seq<Attempt>): map<Key, string>
    decreases |attempts|
  {
    if attempts == [] then m
    else
      var e := attempts[0].event;
      FirstWrites(if attempts[0].committed && e.key !in m then m[e.key := e.content] else m, attempts[1..])
  }

  function Contents(db: Db): map<Key, string> {
    map k | k in db.messages :: db.messages[k].content
  }

  /** An event id is one event: redelivery and republication never change what it says. */
  predicate SameEvent(a: Event, b: Event) {
    a.id == b.id ==> a == b
  }

  predicate Coherent(attempts: seq<Attempt>) {
    forall i, j :: 0 <= i < |attempts| && 0 <= j < |attempts| ==> SameEvent(attempts[i].event, attempts[j].event)
  }

  /** The event's business key is stored with byte-identical content. */
  predicate Holds(db: Db, e: Event) {
    e.key in db.messages && db.messages[e.key].content == e.content
  }

  predicate IdsOk(db: Db) {
    && (forall k <- db.messages :: db.messages[k].id < db.nextId)
    && (forall k, l :: k in db.messages && l in db.messages && db.messages[k].id == db.messages[l].id ==> k == l)
  }

  /** Every Inbox row among these events is backed by a stored message that says the same. */
  predicate InboxBacked(db: Db, events: set<Event>) {
    forall row <- db.inbox :: exists e <- events :: e.id == row.1 && Holds(db, e)
  }

  /** Committing changes the messages exactly as the first-write-wins map does, and keeps the Inbox backed. */
  lemma PersistIsFirstWrite(db: Db, consumer: string, e: Event, events: set<Event>)
    requires InboxBacked(db, events) && forall f <- events :: SameEvent(e, f)
    ensures var (after, result) := Transact(db, consumer, e);
      && Contents(after) == (if e.key in Contents(db) then Contents(db) else Contents(db)[e.key := e.content])
      && InboxBacked(after, events + {e})
      && (result != Conflicting <==> Holds(after, e))
      && (result == Conflicting ==> after.inbox == db.inbox && after.messages == db.messages)
      && (result == Conflicting ==> e.key in db.messages && db.messages[e.key].content != e.content)
  {
    var (after, result) := Transact(db, consumer, e);
    forall row <- after.inbox
      ensures exists f <- events + {e} :: f.id == row.1 && Holds(after, f)
    {
      if row in db.inbox {
        var f :| f in events && f.id == row.1 && Holds(db, f);
        assert f in events + {e} && Holds(after, f);
      } else {
        assert e in events + {e} && Holds(after, e);
      }
    }
    if (consumer, e.id) in db.inbox {
      var f :| f in events && f.id == e.id && Holds(db, f);
      assert SameEvent(e, f);
    }
  }

  /** A conflicting event leaves no Inbox row, so its redelivery conflicts again instead of passing as a duplicate. */
  lemma ConflictLeavesNoTrace(db: Db, consumer: string, e: Event)
    requires Transact(db, consumer, e).1 == Conflicting
    ensures (consumer, e.id) !in Transact(db, consumer, e).0.inbox
    ensures Transact(Transact(db, consumer, e).0, consumer, e).1 == Conflicting
  {
  }

  lemma PersistKeepsIds(db: Db, consumer: string, e: Event)
    requires IdsOk(db)
    ensures IdsOk(Transact(db, consumer, e).0)
    ensures var after := Transact(db, consumer, e).0;
      forall k <- db.messages :: k in after.messages && after.messages[k] == db.messages[k]
  {
    var after := Transact(db, consumer, e).0;
    assert after.messages == db.messages || after.messages == db.messages[e.key := RowOf(db, e)];
    assert after.nextId >= db.nextId;
    hide Transact;
  }

  lemma {:induction false} ReplayFrom(db: Db, m: map<Key, string>, attempts: seq<Attempt>, events: set<Event>)
    requires Contents(db) == m && InboxBacked(db, events) && Coherent(attempts)
    requires forall f <- events, a <- attempts :: SameEvent(a.event, f)
    ensures Contents(Replay(db, attempts)) == FirstWrites(m, attempts)
    ensures InboxBacked(Replay(db, attempts), events + (set a <- attempts :: a.event))
    decreases |attempts|
  {
    if attempts != [] {
      var a := attempts[0];
      assert a in attempts;
      var next := if a.committed then Transact(db, a.consumer, a.event).0 else db;
      if a.committed {
        PersistIsFirstWrite(db, a.consumer, a.event, events);
      } else {
        BackedByMore(db, events, events + {a.event});
      }
      var m' := if a.committed && a.event.key !in m then m[a.event.key := a.event.content] else m;
      ReplayFrom(next, m', attempts[1..], events + {a.event});
      assert events + {a.event} + (set b <- attempts[1..] :: b.event) == events + (set b <- attempts :: b.event);
    } else {
      assert events + (set b <- attempts :: b.event) == events;
    }
  }

  lemma BackedByMore(db: Db, events: set<Event>, more: set<Event>)
    requires InboxBacked(db, events) && events <= more
    ensures InboxBacked(db, more)
  {
    forall row <- db.inbox
      ensures exists e <- more :: e.id == row.1 && Holds(db, e)
    {
      var e :| e in events && e.id == row.1 && Holds(db, e);
      assert e in more;
    }
  }

  /**
   For any redeliveries, duplicate event ids, distinct events sharing a business key and rolled-back
   transactions: the stored messages are those of a first-write-wins map over the committed events,
   and every Inbox row has its message stored.
   */
  lemma PersistRefinesFirstWrites(attempts: seq<Attempt>)
    requires Coherent(attempts)
    ensures Contents(Replay(EMPTY, attempts)) == FirstWrites(map[], attempts)
    ensures InboxBacked(Replay(EMPTY, attempts), set a <- attempts :: a.event)
  {
    ReplayFrom(EMPTY, map[], attempts, {});
    assert {} + (set a <- attempts :: a.event) == (set a <- attempts :: a.event);
  }

  /** An event id that changed its meaning would lose a message: the Inbox takes the second event for a duplicate. */
  lemma ChangedEventIsLost()
    ensures var a := Attempt("c", Event(1, Key(7, 42, 1), "x", 0), true);
      var b := Attempt("c", Event(1, Key(7, 42, 2), "y", 0), true);
      Contents(Replay(EMPTY, [a, b])) != FirstWrites(map[], [a, b])
  {
    var a := Attempt("c", Event(1, Key(7, 42, 1), "x", 0), true);
    var b := Attempt("c", Event(1, Key(7, 42, 2), "y", 0), true);
    var one := Transact(EMPTY, "c", a.event).0;
    assert [a, b][1..] == [b] && [b][1..] == [];
    assert Replay(one, [b]) == Replay(one, []) == one;
    assert Key(7, 42, 2) !in one.messages;
    var m := map[Key(7, 42, 1) := "x"];
    assert FirstWrites(map[], [a, b]) == FirstWrites(m, [b]) == FirstWrites(m[Key(7, 42, 2) := "y"], []);
    assert Key(7, 42, 2) in FirstWrites(map[], [a, b]);
  }
}
