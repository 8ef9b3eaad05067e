/** What a passed load run proves about the messages it sent, from the stream of observations alone. */
module LoadVerdict {
  import opened Prelude
  import opened LoadCollector
  import opened LoadRunner

  // ---- Reading the stream ----

  function Elements(s: seq<Id>): set<Id> {
    set id <- s
  }

  function Sends(log: seq<Observation>): seq<Id> {
    if log == [] then []
    else Sends(log[..|log| - 1]) + (if log[|log| - 1].Sent? then [log[|log| - 1].id] else [])
  }

  function Acks(log: seq<Observation>, id: Id): nat {
    if log == [] then 0
    else
      var o := log[|log| - 1];
      Acks(log[..|log| - 1], id) + (if o.Ack? && o.id == id then 1 else 0)
  }

  function Events(log: seq<Observation>, client: nat, id: Id): nat {
    if log == [] then 0 else Events(log[..|log| - 1], client, id) + (if log[|log| - 1] == Event(client, id) then 1 else 0)
  }

  predicate AckedAs(log: seq<Observation>, id: Id, status: string) {
    exists i :: 0 <= i < |log| && log[i].Ack? && log[i].id == id && log[i].status == status
  }

  // ---- What the collector's fields mean ----

  predicate Meaning(n: nat, log: seq<Observation>, t: Tally) {
    && |t.delivered| == n
    && t.sent == Elements(Sends(log))
    && t.acknowledged <= t.sent && t.accepted <= t.acknowledged && t.rejected.Keys <= t.acknowledged
    && t.accepted !! t.rejected.Keys
    && (!t.failed ==> t.acknowledged == t.accepted + t.rejected.Keys)
    && (forall k :: 0 <= k < n ==> t.delivered[k] <= t.sent)
    && (forall id <- t.accepted :: AckedAs(log, id, "accepted"))
    && (forall id <- t.rejected :: AckedAs(log, id, "rejected"))
  }

  lemma Last<T>(s: seq<T>)
    requires s != []
    ensures s == s[..|s| - 1] + [s[|s| - 1]]
  {
  }

  lemma AckedEarlier(log: seq<Observation>, id: Id, status: string)
    requires log != [] && AckedAs(log[..|log| - 1], id, status)
    ensures AckedAs(log, id, status)
  {
    var i :| 0 <= i < |log| - 1 && log[i].Ack? && log[i].id == id && log[i].status == status;
  }

  lemma {:induction false} Means(n: nat, log: seq<Observation>)
    ensures Meaning(n, log, Tallied(n, log))
  {
    if log != [] {
      var before, o := log[..|log| - 1], log[|log| - 1];
      Means(n, before);
      Last(log);
      forall id: Id, status: string | AckedAs(before, id, status)
        ensures AckedAs(log, id, status)
      {
        AckedEarlier(log, id, status);
      }
      if o.Ack? {
        assert AckedAs(log, o.id, o.status);
      }
      hide AckedAs;
      MeaningStep(n, before, o, Tallied(n, before), log);
    }
  }

  lemma MeaningStep(n: nat, before: seq<Observation>, o: Observation, t: Tally, log: seq<Observation>)
    requires Meaning(n, before, t) && log == before + [o]
    requires forall id: Id, status: string :: AckedAs(before, id, status) ==> AckedAs(log, id, status)
    requires o.Ack? ==> AckedAs(log, o.id, o.status)
    ensures Meaning(n, log, Observe(t, o))
  {
    hide AckedAs;
    assert log[..|log| - 1] == before;
  }

  // ---- Counting observations ----

  lemma {:induction false} Counted(n: nat, log: seq<Observation>, id: Id)
    ensures id in Tallied(n, log).acknowledged ==> Acks(log, id) >= 1
    ensures forall k :: 0 <= k < n && id in Tallied(n, log).delivered[k] ==> Events(log, k, id) >= 1
  {
    if log != [] {
      Counted(n, log[..|log| - 1], id);
    }
  }

  /** A counted duplicate has a witness: one message acknowledged, or delivered to one client, twice. */
  lemma {:induction false} DuplicatesHaveWitnesses(n: nat, log: seq<Observation>)
    ensures var t := Tallied(n, log);
      && (t.duplicateAcks > 0 ==> exists id :: id in t.acknowledged && Acks(log, id) >= 2)
      && (t.duplicateEvents > 0 ==> exists k: nat, id :: k < n && id in t.delivered[k] && Events(log, k, id) >= 2)
  {
    if log != [] {
      var before, o := log[..|log| - 1], log[|log| - 1];
      var s, t := Tallied(n, before), Tallied(n, log);
      DuplicatesHaveWitnesses(n, before);
      if o.Ack? || o.Event? {
        Counted(n, before, o.id);
      }
      if t.duplicateAcks > 0 {
        if s.duplicateAcks > 0 {
          var id :| id in s.acknowledged && Acks(before, id) >= 2;
          assert id in t.acknowledged && Acks(log, id) >= 2;
        } else {
          assert o.id in t.acknowledged && Acks(log, o.id) >= 2;
        }
      }
      if t.duplicateEvents > 0 {
        if s.duplicateEvents > 0 {
          var k: nat, id :| k < n && id in s.delivered[k] && Events(before, k, id) >= 2;
          assert id in t.delivered[k] && Events(log, k, id) >= 2;
        } else {
          assert o.id in t.delivered[o.client] && Events(log, o.client, o.id) >= 2;
        }
      }
    }
  }

  /** While nothing failed and nothing was repeated, every observation is in the collector's sets. */
  lemma {:induction false} CleanCounts(n: nat, log: seq<Observation>, id: Id)
    requires !Tallied(n, log).failed
    ensures var t := Tallied(n, log);
      && (t.duplicateAcks == 0 ==> Acks(log, id) == if id in t.acknowledged then 1 else 0)
      && (t.duplicateEvents == 0 ==> forall k :: 0 <= k < n ==> Events(log, k, id) == if id in t.delivered[k] then 1 else 0)
  {
    if log != [] {
      CleanCounts(n, log[..|log| - 1], id);
    }
  }

  /** The status of the first acknowledgement of a message. */
  function FirstStatus(log: seq<Observation>, id: Id): Option<string> {
    if log == [] then None
    else
      var earlier, o := FirstStatus(log[..|log| - 1], id), log[|log| - 1];
      if earlier == None && o.Ack? && o.id == id then Some(o.status) else earlier
  }

  /** While nothing failed, the first acknowledgement decides, and every client has what the stream brought it. */
  lemma {:induction false} FirstAckDecides(n: nat, log: seq<Observation>, id: Id)
    requires !Tallied(n, log).failed
    ensures var t := Tallied(n, log);
      && (id in t.acknowledged <==> FirstStatus(log, id) != None)
      && (id in t.accepted <==> FirstStatus(log, id) == Some("accepted"))
      && (id in t.rejected <==> FirstStatus(log, id) == Some("rejected"))
      && (forall k :: 0 <= k < n ==> (id in t.delivered[k] <==> Events(log, k, id) >= 1))
  {
    if log != [] {
      FirstAckDecides(n, log[..|log| - 1], id);
    }
  }

  /** A message is acknowledged and, if its first acknowledgement accepts it, every client has seen it. */
  predicate Seen(n: nat, log: seq<Observation>, id: Id) {
    && FirstStatus(log, id) != None
    && (FirstStatus(log, id) == Some("accepted") ==> forall k: nat :: k < n ==> Events(log, k, id) >= 1)
  }

  /** The same in terms of the collector's sets. */
  predicate Recorded(t: Tally, id: Id) {
    id in t.acknowledged && (id in t.accepted ==> forall k: nat :: k < |t.delivered| ==> id in t.delivered[k])
  }

  /** The delivery wait is complete exactly when nothing failed and every message sent has been seen. */
  lemma CompletionIsSeen(n: nat, log: seq<Observation>)
    requires Distinct(Sends(log))
    ensures Complete(Tallied(n, log), |Sends(log)|) <==> !Tallied(n, log).failed && forall id <- Sends(log) :: Seen(n, log, id)
  {
    if !Tallied(n, log).failed {
      CompleteOnSets(n, log);
      hide Distinct, Complete, Tallied, Sends, Seen, Recorded;
      forall id: Id
        ensures Recorded(Tallied(n, log), id) <==> Seen(n, log, id)
      {
        RecordedIsSeen(n, log, id);
      }
    }
  }

  lemma RecordedIsSeen(n: nat, log: seq<Observation>, id: Id)
    requires !Tallied(n, log).failed
    ensures Recorded(Tallied(n, log), id) <==> Seen(n, log, id)
  {
    FirstAckDecides(n, log, id);
    hide Tallied, FirstStatus;
    var t := Tallied(n, log);
    if Recorded(t, id) && id in t.accepted {
      forall k: nat | k < n
        ensures Events(log, k, id) >= 1
      {
        assert id in t.delivered[k];
      }
    }
  }

  lemma CompleteOnSets(n: nat, log: seq<Observation>)
    requires Distinct(Sends(log)) && !Tallied(n, log).failed
    ensures Complete(Tallied(n, log), |Sends(log)|) <==> forall id <- Sends(log) :: Recorded(Tallied(n, log), id)
  {
    var t, sends := Tallied(n, log), Sends(log);
    Means(n, log);
    ElementsSize(sends);
    AsManyIsAll(t.acknowledged, t.sent);
    hide Tallied, Sends, AckedAs, Distinct;
    assert forall id :: id in t.sent <==> id in sends;
    hide Elements;
    if Complete(t, |sends|) {
      forall id <- sends
        ensures Recorded(t, id)
      {
      }
    }
    if forall id <- sends :: Recorded(t, id) {
      assert t.sent <= t.acknowledged;
      forall k | 0 <= k < |t.delivered|
        ensures t.accepted <= t.delivered[k]
      {
        forall id <- t.accepted
          ensures id in t.delivered[k]
        {
          assert id in sends && Recorded(t, id);
        }
      }
    }
  }

  lemma AsManyIsAll(a: set<Id>, b: set<Id>)
    requires a <= b
    ensures |a| == |b| <==> b <= a
  {
    if |a| == |b| {
      FullSubset(a, b);
    } else {
      assert b <= a ==> a == b;
    }
  }

  /** After the last send, with every message acknowledged: what can still change. */
  predicate Quiet(n: nat, a: seq<Observation>, b: seq<Observation>) {
    !Tallied(n, a).failed && Tallied(n, a).acknowledged == Tallied(n, a).sent && Sends(b) == []
  }

  predicate OnlyDeliveries(s: Tally, t: Tally) {
    && t.sent == s.sent && t.acknowledged == s.acknowledged && t.accepted == s.accepted && t.rejected == s.rejected
    && |t.delivered| == |s.delivered| && (forall k :: 0 <= k < |s.delivered| ==> s.delivered[k] <= t.delivered[k])
    && s.duplicateAcks <= t.duplicateAcks && s.duplicateEvents <= t.duplicateEvents
  }

  lemma QuietPrefix(n: nat, a: seq<Observation>, b: seq<Observation>)
    requires Quiet(n, a, b) && b != []
    ensures Quiet(n, a, b[..|b| - 1]) && !b[|b| - 1].Sent? && (a + b)[..|a + b| - 1] == a + b[..|b| - 1]
  {
  }

  lemma {:induction false} AfterwardsOnlyDeliveries(n: nat, a: seq<Observation>, b: seq<Observation>)
    requires Quiet(n, a, b)
    ensures OnlyDeliveries(Tallied(n, a), Tallied(n, a + b))
  {
    if b == [] {
      assert a + b == a;
    } else {
      QuietPrefix(n, a, b);
      AfterwardsOnlyDeliveries(n, a, b[..|b| - 1]);
      hide Quiet, Sends;
    }
  }

  lemma {:induction false} AckedExactlyOnce(n: nat, a: seq<Observation>, b: seq<Observation>, id: Id)
    requires Quiet(n, a, b) && id in Tallied(n, a).sent && Tallied(n, a + b).duplicateAcks == 0
    ensures Acks(a + b, id) == 1
  {
    if b == [] {
      assert a + b == a;
      CleanCounts(n, a, id);
    } else {
      QuietPrefix(n, a, b);
      AfterwardsOnlyDeliveries(n, a, b[..|b| - 1]);
      hide Quiet, Sends;
      AckedExactlyOnce(n, a, b[..|b| - 1], id);
    }
  }

  lemma {:induction false} DeliveredAsRecorded(n: nat, a: seq<Observation>, b: seq<Observation>, id: Id, k: nat)
    requires Quiet(n, a, b) && id in Tallied(n, a).sent && Tallied(n, a + b).duplicateEvents == 0 && k < n
    ensures Events(a + b, k, id) == if id in Tallied(n, a + b).delivered[k] then 1 else 0
  {
    if b == [] {
      assert a + b == a;
      CleanCounts(n, a, id);
    } else {
      QuietPrefix(n, a, b);
      AfterwardsOnlyDeliveries(n, a, b[..|b| - 1]);
      hide Quiet, Sends;
      DeliveredAsRecorded(n, a, b[..|b| - 1], id, k);
    }
  }

  // ---- Sums over the clients ----

  lemma {:induction false} SameSizes(sets: seq<set<Id>>, s: set<Id>)
    requires forall k :: 0 <= k < |sets| ==> sets[k] == s
    ensures TotalSize(sets) == |s| * |sets|
  {
    if sets != [] {
      SameSizes(sets[..|sets| - 1], s);
    }
  }

  lemma {:induction false} EmptyUnion(sets: seq<set<Id>>)
    ensures Union(sets) == {} <==> forall k :: 0 <= k < |sets| ==> sets[k] == {}
  {
    if sets != [] {
      var init := sets[..|sets| - 1];
      EmptyUnion(init);
      assert forall k :: 0 <= k < |init| ==> init[k] == sets[k];
      assert Union(sets) == {} ==> sets[|sets| - 1] == {};
    }
  }

  lemma {:induction false} NoMoreThanSent(s: seq<Id>)
    ensures |Elements(s)| <= |s|
    ensures |Elements(s)| == |s| ==> Distinct(s)
  {
    if s != [] {
      var init, last := s[..|s| - 1], s[|s| - 1];
      NoMoreThanSent(init);
      Last(s);
      assert Elements(s) == Elements(init) + {last};
      if last in init {
        assert Elements(s) == Elements(init);
      }
    }
  }

  lemma {:induction false} OneAckOneStatus(log: seq<Observation>, id: Id, i: nat)
    requires i < |log| && log[i].Ack? && log[i].id == id
    ensures Acks(log, id) >= 1
    ensures Acks(log, id) == 1 ==> forall j :: 0 <= j < |log| && log[j].Ack? && log[j].id == id ==> j == i
  {
    var before := log[..|log| - 1];
    if i < |log| - 1 {
      OneAckOneStatus(before, id, i);
      assert forall j :: 0 <= j < |before| ==> before[j] == log[j];
    } else if exists j :: 0 <= j < |log| - 1 && log[j].Ack? && log[j].id == id {
      var j :| 0 <= j < |log| - 1 && log[j].Ack? && log[j].id == id;
      OneAckOneStatus(before, id, j);
    }
  }

  lemma OneStatus(log: seq<Observation>, id: Id, x: string, y: string)
    requires Acks(log, id) == 1 && AckedAs(log, id, x) && AckedAs(log, id, y)
    ensures x == y
  {
    var i :| 0 <= i < |log| && log[i].Ack? && log[i].id == id && log[i].status == x;
    OneAckOneStatus(log, id, i);
  }

  // ---- The run ----

  /**
   The observations of a run, cut where the run looks at them: a until the delivery wait saw completion, b until the accepted ids
   were copied, c until the rejected ids were, d until the report. `messages` is the history that ended the wait.
   */
  datatype Run = Run(clients: nat, target: nat, a: seq<Observation>, b: seq<Observation>, c: seq<Observation>, d: seq<Observation>,
                     messages: seq<Id>)

  function Whole(r: Run): seq<Observation> {
    r.a + (r.b + r.c + r.d)
  }

  /** What a run has established when it reaches its report. */
  predicate Reported(r: Run) {
    && |Sends(r.a)| == r.target && Sends(r.b) == [] && Sends(r.b + r.c) == [] && Sends(r.b + r.c + r.d) == []
    && Complete(Tallied(r.clients, r.a), r.target)
    && Settled(r.messages, Tallied(r.clients, r.a + r.b).accepted, Tallied(r.clients, r.a + (r.b + r.c)).rejected.Keys)
  }

  function ReportOf(r: Run): Report
    requires Reported(r)
  {
    var accepted := Tallied(r.clients, r.a + r.b).accepted;
    Summary(Tallied(r.clients, Whole(r)), Persistence(|r.messages|, Max(|r.messages| - |accepted|, 0)))
  }

  /** One message's fate: acknowledged once; if accepted, delivered once to every client and persisted once; if rejected, seen nowhere. */
  predicate Exactly(r: Run, id: Id) {
    var log := Whole(r);
    && Acks(log, id) == 1
    && (AckedAs(log, id, "accepted") || AckedAs(log, id, "rejected"))
    && (AckedAs(log, id, "accepted") ==>
          Count(r.messages, id) == 1 && forall k: nat :: k < r.clients ==> Events(log, k, id) == 1)
    && (AckedAs(log, id, "rejected") ==>
          Count(r.messages, id) == 0 && forall k: nat :: k < r.clients ==> Events(log, k, id) == 0)
  }

  function Refused(r: Run): set<Id> {
    set id <- Sends(r.a) | AckedAs(Whole(r), id, "rejected")
  }

  /** The sets at the report, and the report's numbers, in the terms of the final tally. */
  predicate Facts(r: Run, t: Tally) {
    && t == Tallied(r.clients, Whole(r))
    && Meaning(r.clients, Whole(r), t)
    && t.acknowledged == t.sent == Elements(Sends(r.a)) && t.acknowledged == t.accepted + t.rejected.Keys
    && (forall k :: 0 <= k < r.clients ==> t.accepted <= t.delivered[k])
    && Settled(r.messages, t.accepted, t.rejected.Keys)
    && Distinct(Sends(r.a)) && |t.sent| == r.target
  }

  lemma ReportFacts(r: Run)
    requires Reported(r)
    ensures Facts(r, Tallied(r.clients, Whole(r)))
    ensures ReportOf(r) == Summary(Tallied(r.clients, Whole(r)),
                                   Persistence(|r.messages|, Max(|r.messages| - |Tallied(r.clients, Whole(r)).accepted|, 0)))
    ensures Quiet(r.clients, r.a, r.b + r.c + r.d)
  {
    hide *;
    CompleteIsQuiet(r);
    Means(r.clients, Whole(r));
    AfterwardsOnlyDeliveries(r.clients, r.a, r.b);
    AfterwardsOnlyDeliveries(r.clients, r.a, r.b + r.c);
    AfterwardsOnlyDeliveries(r.clients, r.a, r.b + r.c + r.d);
    FactsFrom(r, Tallied(r.clients, r.a), Tallied(r.clients, Whole(r)));
  }

  predicate AllAcked(r: Run, s: Tally) {
    && s.acknowledged == s.sent == Elements(Sends(r.a)) == s.accepted + s.rejected.Keys && |s.sent| == r.target
    && |s.delivered| == r.clients && (forall k :: 0 <= k < r.clients ==> s.accepted <= s.delivered[k])
    && Distinct(Sends(r.a))
  }

  lemma FactsFrom(r: Run, s: Tally, t: Tally)
    requires AllAcked(r, s) && Reported(r)
    requires t == Tallied(r.clients, Whole(r)) && Meaning(r.clients, Whole(r), t)
    requires OnlyDeliveries(s, Tallied(r.clients, r.a + r.b)) && OnlyDeliveries(s, Tallied(r.clients, r.a + (r.b + r.c)))
    requires OnlyDeliveries(s, Tallied(r.clients, r.a + (r.b + r.c + r.d)))
    ensures Facts(r, t)
    ensures ReportOf(r) == Summary(t, Persistence(|r.messages|, Max(|r.messages| - |t.accepted|, 0)))
  {
    hide Quiet, Complete, Sends, AckedAs, Settled, Elements, Distinct, Tallied, Meaning, Summary;
  }

  /** As many acknowledged as sends means every send had its own id and was acknowledged. */
  lemma CompleteIsQuiet(r: Run)
    requires Reported(r)
    ensures AllAcked(r, Tallied(r.clients, r.a))
    ensures Quiet(r.clients, r.a, r.b) && Quiet(r.clients, r.a, r.b + r.c) && Quiet(r.clients, r.a, r.b + r.c + r.d)
  {
    var s := Tallied(r.clients, r.a);
    Means(r.clients, r.a);
    hide AckedAs, Settled, Tallied, Sends, Elements;
    NoMoreThanSent(Sends(r.a));
    FullSubset(s.acknowledged, s.sent) by { SubsetSize(s.acknowledged, s.sent); }
  }

  /** Nothing twice, and every client's deliveries and the history are exactly the accepted messages. */
  predicate SetsClean(r: Run, t: Tally) {
    && t.duplicateAcks == 0 && t.duplicateEvents == 0
    && (forall k :: 0 <= k < |t.delivered| ==> t.delivered[k] == t.accepted)
    && Elements(r.messages) == t.accepted
  }

  lemma ElementsSize(s: seq<Id>)
    requires Distinct(s)
    ensures |Elements(s)| == |s|
  {
    DistinctSize(s);
    assert Elements(s) == set x | x in s;
  }

  lemma HistorySize(r: Run, t: Tally)
    requires Facts(r, t)
    ensures |r.messages| == |Elements(r.messages)| && t.accepted <= Elements(r.messages) <= t.sent
    ensures |r.messages| >= |t.accepted| && (|r.messages| == |t.accepted| <==> Elements(r.messages) == t.accepted)
  {
    ElementsSize(r.messages);
    SubsetSize(t.accepted, Elements(r.messages));
    if |r.messages| == |t.accepted| {
      FullSubset(t.accepted, Elements(r.messages));
    }
  }

  lemma NoStray(sets: seq<set<Id>>, wanted: set<Id>, unwanted: set<Id>)
    requires wanted !! unwanted && forall k :: 0 <= k < |sets| ==> wanted <= sets[k] <= wanted + unwanted
    ensures |Union(AmongEach(sets, unwanted))| == 0 <==> forall k :: 0 <= k < |sets| ==> sets[k] == wanted
  {
    var stray := AmongEach(sets, unwanted);
    hide AmongEach, Union;
    EmptyUnion(stray);
    forall k | 0 <= k < |sets|
      ensures stray[k] == {} <==> sets[k] == wanted
    {
      assert forall id <- sets[k] :: id in unwanted <==> id in stray[k];
    }
  }

  lemma DeliveredBounds(r: Run, t: Tally)
    requires Facts(r, t)
    ensures |t.delivered| == r.clients && |t.sent| == r.target && t.accepted !! t.rejected.Keys
    ensures forall k :: 0 <= k < |t.delivered| ==> t.accepted <= t.delivered[k] <= t.accepted + t.rejected.Keys
  {
    hide AckedAs, Settled, Tallied, Sends, Elements, Distinct, Whole;
  }

  lemma VerdictOnSets(r: Run, t: Tally, maxErrorRate: real)
    requires Facts(r, t)
    ensures ValidateReport(Summary(t, Persistence(|r.messages|, Max(|r.messages| - |t.accepted|, 0))), maxErrorRate) == None
            <==> SetsClean(r, t) && Rate(|t.rejected|, r.target) <= maxErrorRate
  {
    hide Facts, Rate, Union, AmongEach, Elements, TotalSize;
    HistorySize(r, t);
    DeliveredBounds(r, t);
    NoStray(t.delivered, t.accepted, t.rejected.Keys);
    if forall k :: 0 <= k < |t.delivered| ==> t.delivered[k] == t.accepted {
      SameSizes(t.delivered, t.accepted);
    }
  }

  /** From the collector's sets to the fate of each message. */
  lemma CleanMeansExactly(r: Run, t: Tally, id: Id)
    requires Facts(r, t) && Quiet(r.clients, r.a, r.b + r.c + r.d) && SetsClean(r, t) && id in Sends(r.a)
    ensures Exactly(r, id)
  {
    hide Quiet, AckedAs, Sends, Tallied, Settled;
    var rest := r.b + r.c + r.d;
    var log := Whole(r);
    assert id in t.sent;
    AfterwardsOnlyDeliveries(r.clients, r.a, rest);
    AckedExactlyOnce(r.clients, r.a, rest, id);
    forall k: nat | k < r.clients
      ensures Events(log, k, id) == if id in t.accepted then 1 else 0
    {
      DeliveredAsRecorded(r.clients, r.a, rest, id, k);
    }
    StatusOf(r, t, id);
    PersistedCount(r, t, id);
    hide SetsClean, Facts, Acks, Events, Count;
  }

  lemma PersistedCount(r: Run, t: Tally, id: Id)
    requires Facts(r, t) && Elements(r.messages) == t.accepted
    ensures Count(r.messages, id) == if id in t.accepted then 1 else 0
  {
    DistinctCount(r.messages, id);
    assert id in r.messages <==> id in Elements(r.messages);
  }

  /** A message acknowledged once is accepted or rejected, and the collector says which. */
  lemma StatusOf(r: Run, t: Tally, id: Id)
    requires Facts(r, t) && id in t.sent && Acks(Whole(r), id) == 1
    ensures AckedAs(Whole(r), id, "accepted") <==> id in t.accepted
    ensures AckedAs(Whole(r), id, "rejected") <==> id in t.rejected
    ensures id in t.accepted <==> id !in t.rejected
  {
    var log := Whole(r);
    hide AckedAs, Acks, Settled, Tallied;
    if AckedAs(log, id, "accepted") && AckedAs(log, id, "rejected") {
      OneStatus(log, id, "accepted", "rejected");
    }
  }

  /** And back: if every message met its fate exactly, the sets are clean. */
  lemma ExactlyMeansClean(r: Run, t: Tally)
    requires Facts(r, t) && forall id <- Sends(r.a) :: Exactly(r, id)
    ensures SetsClean(r, t)
  {
    hide AckedAs, Acks, Events, Count, Tallied, Settled, Exactly, Elements;
    forall id <- t.sent
      ensures Fate(r, t, id)
    {
      assert id in Sends(r.a) by { assert id in Elements(Sends(r.a)); InElements(Sends(r.a), id); }
      FateOf(r, t, id);
    }
    DuplicatesHaveWitnesses(r.clients, Whole(r));
    HistorySize(r, t);
    assert forall id <- t.sent :: Fate(r, t, id) ==> (id in Elements(r.messages) <==> id in t.accepted);
  }

  lemma InElements(s: seq<Id>, id: Id)
    ensures id in Elements(s) <==> id in s
  {
  }

  predicate Fate(r: Run, t: Tally, id: Id) {
    && Acks(Whole(r), id) == 1
    && (id in Elements(r.messages) <==> id in t.accepted)
    && (forall k: nat :: k < r.clients && k < |t.delivered| ==>
          (id in t.delivered[k] <==> id in t.accepted) && Events(Whole(r), k, id) <= 1)
  }

  lemma FateOf(r: Run, t: Tally, id: Id)
    requires Facts(r, t) && id in t.sent && Exactly(r, id)
    ensures Fate(r, t, id)
  {
    hide AckedAs, Acks, Events, Count, Tallied, Settled, Elements, Sends;
    StatusOf(r, t, id);
    Counted(r.clients, Whole(r), id);
    CountPositive(r.messages, id);
    InElements(r.messages, id);
  }

  /**
   When a run reaches its report its message ids were distinct and its history holds only messages it sent; and the report passes
   exactly when each message was acknowledged once and then either delivered once to every client and persisted once, or seen nowhere,
   with no more rejections than allowed. In particular the counts of deliveries and of persisted messages decide what they stand for.
   */
  lemma VerdictIsExact(r: Run, maxErrorRate: real)
    requires Reported(r)
    ensures Distinct(Sends(r.a)) && forall id <- r.messages :: id in Sends(r.a)
    ensures ValidateReport(ReportOf(r), maxErrorRate) == None
            <==> (forall id <- Sends(r.a) :: Exactly(r, id)) && Rate(|Refused(r)|, r.target) <= maxErrorRate
  {
    hide Reported, Quiet, Rate, Tallied, ValidateReport, Summary, Exactly, Whole, Settled, Sends, Elements, Meaning, Refused, SetsClean;
    ReportFacts(r);
    var t := Tallied(r.clients, Whole(r));
    HistorySize(r, t);
    forall id <- r.messages
      ensures id in Sends(r.a)
    {
      InElements(r.messages, id);
      InElements(Sends(r.a), id);
    }
    hide Facts;
    VerdictOnSets(r, t, maxErrorRate);
    if SetsClean(r, t) {
      forall id <- Sends(r.a)
        ensures Exactly(r, id)
      {
        CleanMeansExactly(r, t, id);
      }
      RefusedIsRejected(r, t);
    }
    if forall id <- Sends(r.a) :: Exactly(r, id) {
      ExactlyMeansClean(r, t);
      RefusedIsRejected(r, t);
    }
  }

  lemma RefusedIsRejected(r: Run, t: Tally)
    requires Facts(r, t) && forall id <- Sends(r.a) :: Exactly(r, id)
    ensures Refused(r) == t.rejected.Keys && |Refused(r)| == |t.rejected|
  {
    hide AckedAs, Acks, Events, Count, Tallied, Settled;
    forall id <- Sends(r.a)
      ensures id in t.sent && (AckedAs(Whole(r), id, "rejected") <==> id in t.rejected)
    {
      assert Exactly(r, id) && id in Elements(Sends(r.a));
      StatusOf(r, t, id);
    }
    assert forall id <- t.rejected :: id in Elements(Sends(r.a));
  }

  lemma NextTally(n: nat, log: seq<Observation>, o: Observation)
    ensures Tallied(n, log + [o]) == Observe(Tallied(n, log), o)
    ensures Sends(log + [o]) == Sends(log) + (if o.Sent? then [o.id] else [])
  {
    assert (log + [o])[..|log + [o]| - 1] == log;
  }

  /** A broken connection, or a message nobody sent. */
  predicate Surprise(o: Observation, sent: seq<Id>) {
    o.Broken? || ((o.Ack? || o.Event?) && o.id !in sent)
  }

  /**
   What the verdict does not cover: an error that arrives once the wait is over fails the collector, and the report is the same
   as without it, so the run still passes.
   */
  lemma LateErrorsAreIgnored(r: Run, o: Observation)
    requires Reported(r) && Surprise(o, Sends(r.a))
    ensures var late := r.(d := r.d + [o]);
      Reported(late) && ReportOf(late) == ReportOf(r) && Tallied(late.clients, Whole(late)).failed
  {
    hide Tallied, Sends, Complete, Settled, Whole, Surprise, Summary, Observe;
    var late := r.(d := r.d + [o]);
    LateWhole(r, o);
    SurpriseIsUnknown(r, o);
    NextTally(r.clients, Whole(r), o);
    FailedOnly(Tallied(r.clients, Whole(r)), o);
    assert Reported(late) by { NextTally(r.clients, r.b + r.c + r.d, o); }
  }

  lemma LateWhole(r: Run, o: Observation)
    ensures var late := r.(d := r.d + [o]);
      Whole(late) == Whole(r) + [o] && r.b + r.c + late.d == r.b + r.c + r.d + [o]
  {
    var rest := r.b + r.c;
    assert rest + (r.d + [o]) == rest + r.d + [o];
    assert r.a + (rest + r.d + [o]) == r.a + (rest + r.d) + [o];
  }

  lemma SurpriseIsUnknown(r: Run, o: Observation)
    requires Reported(r) && Surprise(o, Sends(r.a))
    ensures var t := Tallied(r.clients, Whole(r)); !o.Sent? && (o.Broken? || (o.id !in t.sent && o.id !in t.acknowledged))
  {
    hide Reported, Sends, Whole, Tallied, Settled, Distinct, Meaning;
    ReportFacts(r);
    if !o.Broken? {
      InElements(Sends(r.a), o.id);
    }
  }

  lemma FailedOnly(t: Tally, o: Observation)
    requires !o.Sent? && (o.Broken? || (o.id !in t.sent && o.id !in t.acknowledged))
    ensures Observe(t, o) == t.(failed := true)
    ensures forall p: Persistence :: Summary(Observe(t, o), p) == Summary(t, p)
  {
    hide TotalSize, Union, AmongEach, Rate;
  }
}
