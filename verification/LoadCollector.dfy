/** The load harness's collector: what it makes of the stream of sends, acknowledgements and realtime events. */
module LoadCollector {
  type Id = nat

  /** Broken is any error a reader reports: a lost connection or a frame it cannot use. */
  datatype Observation = Sent(id: Id) | Ack(id: Id, status: string, code: string) | Event(client: int, id: Id) | Broken

  datatype Tally = Tally(sent: set<Id>, acknowledged: set<Id>, accepted: set<Id>, rejected: map<Id, string>, delivered: seq<set<Id>>,
                         duplicateAcks: nat, duplicateEvents: nat, failed: bool)

  function Start(connections: nat): Tally {
    Tally({}, {}, {}, map[], seq(connections, _ => {}), 0, 0, false)
  }

  function Observe(t: Tally, o: Observation): (u: Tally)
    ensures |u.delivered| == |t.delivered|
  {
    match o
    case Sent(id) => t.(sent := t.sent + {id})
    case Ack(id, status, code) =>
      if id in t.acknowledged then t.(duplicateAcks := t.duplicateAcks + 1)
      else if id !in t.sent then t.(failed := true)
      else
        var u := t.(acknowledged := t.acknowledged + {id});
        if status == "accepted" then u.(accepted := u.accepted + {id})
        else if status != "rejected" then u.(failed := true)
        else u.(rejected := u.rejected[id := code])
    case Event(client, id) =>
      if client < 0 || client >= |t.delivered| then t.(failed := true)
      else if id !in t.sent then t.(failed := true)
      else if id in t.delivered[client] then t.(duplicateEvents := t.duplicateEvents + 1)
      else t.(delivered := t.delivered[client := t.delivered[client] + {id}])
    case Broken => t.(failed := true)
  }

  /** The collector after a whole stream. */
  function Tallied(connections: nat, log: seq<Observation>): (t: Tally)
    ensures |t.delivered| == connections
  {
    if log == [] then Start(connections) else Observe(Tallied(connections, log[..|log| - 1]), log[|log| - 1])
  }

  predicate Complete(t: Tally, target: nat) {
    !t.failed && |t.acknowledged| == target && forall k :: 0 <= k < |t.delivered| ==> t.accepted <= t.delivered[k]
  }

  datatype Report = Report(sent: nat, accepted: nat, rejected: nat, realtimeDeliveries: nat, expectedDeliveries: nat,
                           unexpectedDeliveries: nat, rejectedDelivered: nat, persistedMessages: nat, rejectedPersisted: nat,
                           duplicateAcks: nat, duplicateDeliveries: nat, rejectionRate: real)

  datatype Persistence = Persistence(total: nat, rejected: nat)

  function TotalSize(sets: seq<set<Id>>): nat {
    if sets == [] then 0 else TotalSize(sets[..|sets| - 1]) + |sets[|sets| - 1]|
  }

  function Among(s: set<Id>, keys: set<Id>): set<Id> {
    set id <- s | id in keys
  }

  function AmongEach(sets: seq<set<Id>>, keys: set<Id>): (r: seq<set<Id>>)
    ensures |r| == |sets| && forall k :: 0 <= k < |sets| ==> r[k] == Among(sets[k], keys)
  {
    seq(|sets|, k requires 0 <= k < |sets| => Among(sets[k], keys))
  }

  function Union(sets: seq<set<Id>>): (r: set<Id>)
    ensures forall k :: 0 <= k < |sets| ==> sets[k] <= r
  {
    if sets == [] then {} else Union(sets[..|sets| - 1]) + sets[|sets| - 1]
  }

  function Rate(part: nat, whole: nat): real {
    if whole > 0 then part as real / whole as real else 0.0
  }

  function Summary(t: Tally, p: Persistence): Report {
    var stray := AmongEach(t.delivered, t.rejected.Keys);
    Report(|t.sent|, |t.accepted|, |t.rejected|, TotalSize(t.delivered), |t.accepted| * |t.delivered|, TotalSize(stray), |Union(stray)|,
           p.total, p.rejected, t.duplicateAcks, t.duplicateEvents, Rate(|t.rejected|, |t.sent|))
  }

  lemma TakeNone(sets: seq<set<Id>>)
    ensures TotalSize(sets[..0]) == 0 && Union(sets[..0]) == {}
  {
  }

  lemma TakeNext(sets: seq<set<Id>>, k: nat)
    requires k < |sets|
    ensures TotalSize(sets[..k + 1]) == TotalSize(sets[..k]) + |sets[k]|
    ensures Union(sets[..k + 1]) == Union(sets[..k]) + sets[k]
  {
    assert sets[..k + 1][..k] == sets[..k];
  }

  class Collector {
    var sentAt: set<Id>
    var acknowledged: set<Id>
    var accepted: set<Id>
    var rejected: map<Id, string>
    var delivered: seq<set<Id>>
    var duplicateAcks: nat
    var duplicateEvents: nat
    var failed: bool

    function View(): Tally
      reads this
    {
      Tally(sentAt, acknowledged, accepted, rejected, delivered, duplicateAcks, duplicateEvents, failed)
    }

    constructor (connections: nat)
      ensures View() == Start(connections)
    {
      sentAt, acknowledged, accepted, rejected := {}, {}, {}, map[];
      delivered, duplicateAcks, duplicateEvents, failed := seq(connections, _ => {}), 0, 0, false;
    }

    method RecordSent(id: Id)
      modifies this`sentAt
      ensures View() == Observe(old(View()), Sent(id))
      ensures sentAt == old(sentAt) + {id}
    {
      sentAt := sentAt + {id};
    }

    method SetError()
      modifies this`failed
      ensures View() == Observe(old(View()), Broken)
      ensures failed
    {
      if !failed {
        failed := true;
      }
    }

    method RecordAck(id: Id, status: string, code: string)
      modifies this
      ensures View() == Observe(old(View()), Ack(id, status, code))
      ensures sentAt == old(sentAt) && delivered == old(delivered) && duplicateEvents == old(duplicateEvents)
      ensures duplicateAcks == old(duplicateAcks) + (if id in old(acknowledged) then 1 else 0)
      ensures acknowledged == old(acknowledged) + (if id in sentAt then {id} else {})
      ensures accepted == old(accepted) + (if id in acknowledged && id !in old(acknowledged) && status == "accepted" then {id} else {})
      ensures rejected == if id in acknowledged && id !in old(acknowledged) && status == "rejected" then old(rejected)[id := code] else old(rejected)
      ensures failed <==> old(failed) || (id !in old(acknowledged) && (id !in sentAt || (status != "accepted" && status != "rejected")))
    {
      if id in acknowledged {
        duplicateAcks := duplicateAcks + 1;
        return;
      }
      if id !in sentAt {
        SetError();
        return;
      }
      acknowledged := acknowledged + {id};
      if status == "accepted" {
        accepted := accepted + {id};
        return;
      }
      if status != "rejected" {
        SetError();
        return;
      }
      rejected := rejected[id := code];
    }

    method RecordEvent(client: int, id: Id)
      modifies this
      ensures View() == Observe(old(View()), Event(client, id))
      ensures sentAt == old(sentAt) && acknowledged == old(acknowledged) && accepted == old(accepted) && rejected == old(rejected)
      ensures duplicateAcks == old(duplicateAcks) && |delivered| == |old(delivered)|
      ensures var usable := 0 <= client < |delivered| && id in sentAt;
        && (failed <==> old(failed) || !usable)
        && duplicateEvents == old(duplicateEvents) + (if usable && id in old(delivered)[client] then 1 else 0)
        && forall k :: 0 <= k < |delivered| ==> delivered[k] == old(delivered)[k] + (if usable && k == client then {id} else {})
    {
      if client < 0 || client >= |delivered| {
        SetError();
        return;
      }
      if id !in sentAt {
        SetError();
        return;
      }
      if id in delivered[client] {
        duplicateEvents := duplicateEvents + 1;
        return;
      }
      delivered := delivered[client := delivered[client] + {id}];
    }

    /** Every message is acknowledged and every accepted one has reached every client. */
    method Progress(target: nat) returns (complete: bool, err: bool)
      ensures err == failed && complete == Complete(View(), target)
      ensures complete <==> !failed && |acknowledged| == target && forall k, id :: 0 <= k < |delivered| && id in accepted ==> id in delivered[k]
    {
      if failed {
        return false, true;
      }
      if |acknowledged| != target {
        return false, false;
      }
      for k := 0 to |delivered|
        invariant forall j :: 0 <= j < k ==> accepted <= delivered[j]
      {
        var todo := accepted;
        while todo != {}
          invariant todo <= accepted && accepted - todo <= delivered[k]
          decreases |todo|
        {
          var id :| id in todo;
          todo := todo - {id};
          if id !in delivered[k] {
            return false, false;
          }
        }
        assert accepted <= delivered[k] by { assert accepted - {} == accepted; }
      }
      return true, false;
    }

    /** One client's deliveries of rejected messages, counted one by one. */
    method CountRejected(deliveries: set<Id>) returns (found: set<Id>, count: nat)
      ensures found == Among(deliveries, rejected.Keys) && count == |found|
    {
      found, count := {}, 0;
      var todo := deliveries;
      while todo != {}
        invariant todo <= deliveries && found == Among(deliveries - todo, rejected.Keys) && count == |found|
        decreases |todo|
      {
        var id :| id in todo;
        todo := todo - {id};
        if id in rejected {
          found, count := found + {id}, count + 1;
        }
      }
      assert deliveries - {} == deliveries;
    }

    method CountDeliveries() returns (deliveries: nat, unexpected: nat, rejectedDelivered: set<Id>)
      ensures deliveries == TotalSize(delivered)
      ensures unexpected == TotalSize(AmongEach(delivered, rejected.Keys))
      ensures rejectedDelivered == Union(AmongEach(delivered, rejected.Keys))
    {
      deliveries, unexpected, rejectedDelivered := 0, 0, {};
      ghost var stray := AmongEach(delivered, rejected.Keys);
      hide AmongEach, Among, TotalSize, Union;
      TakeNone(delivered);
      TakeNone(stray);
      for k := 0 to |delivered|
        invariant deliveries == TotalSize(delivered[..k])
        invariant unexpected == TotalSize(stray[..k])
        invariant rejectedDelivered == Union(stray[..k])
      {
        TakeNext(delivered, k);
        TakeNext(stray, k);
        deliveries := deliveries + |delivered[k]|;
        var found, count := CountRejected(delivered[k]);
        unexpected := unexpected + count;
        rejectedDelivered := rejectedDelivered + found;
      }
      assert delivered[..|delivered|] == delivered && stray[..|stray|] == stray;
    }

    method MakeReport(persistence: Persistence) returns (report: Report)
      ensures report == Summary(View(), persistence)
      ensures report.sent == |sentAt| && report.accepted == |accepted| && report.rejected == |rejected|
      ensures report.realtimeDeliveries == TotalSize(delivered) && report.expectedDeliveries == |accepted| * |delivered|
      ensures report.unexpectedDeliveries == TotalSize(AmongEach(delivered, rejected.Keys))
      ensures report.rejectedDelivered == |Union(AmongEach(delivered, rejected.Keys))|
      ensures report.persistedMessages == persistence.total && report.rejectedPersisted == persistence.rejected
      ensures report.duplicateAcks == duplicateAcks && report.duplicateDeliveries == duplicateEvents
      ensures report.rejectionRate * |sentAt| as real == if sentAt == {} then 0.0 else |rejected| as real
    {
      hide TotalSize, Union, AmongEach;
      var deliveries, unexpected, rejectedDelivered := CountDeliveries();
      var rate := if |sentAt| > 0 then |rejected| as real / |sentAt| as real else 0.0;
      report := Report(|sentAt|, |accepted|, |rejected|, deliveries, |accepted| * |delivered|, unexpected, |rejectedDelivered|,
                       persistence.total, persistence.rejected, duplicateAcks, duplicateEvents, rate);
    }
  }
}
