/** The load harness's run: how many messages it sends and through whom, how it reads the history back, and its verdict. */
module LoadRunner {
  import opened Prelude
  import opened LoadCollector

  /** Nanoseconds in a second: durations are counted in nanoseconds. */
  const SECOND := 1_000_000_000

  /** The part of a Chat-mode configuration that decides what is sent. Senders zero means every connection. */
  datatype Config = Config(connections: int, senders: int, messageRate: int, duration: int, burstRate: int, burstDuration: int,
                           maxErrorRate: real)

  function Messages(duration: int, rate: int): int
    requires duration >= 0 && rate >= 0
  {
    duration * rate / SECOND
  }

  /** The checks of Validate that bear on the load. */
  predicate ValidConfig(c: Config) {
    && 0 <= c.senders <= c.connections && 0 < c.connections
    && 0 <= c.burstRate <= SECOND && 0 <= c.burstDuration && (c.burstRate == 0 <==> c.burstDuration == 0)
    && 0 < c.messageRate && SECOND / c.messageRate > 0 && 0 < c.duration
    && 0.0 <= c.maxErrorRate <= 1.0
    && TargetMessages(c) > 0
  }

  function TargetMessages(c: Config): int
    requires c.duration >= 0 && c.messageRate >= 0 && c.burstDuration >= 0 && c.burstRate >= 0
  {
    Messages(c.duration, c.messageRate) + Messages(c.burstDuration, c.burstRate)
  }

  lemma MessagesAreCounted(duration: int, rate: int)
    requires duration >= 0 && rate >= 0
    ensures Messages(duration, rate) >= 0
  {
    assert duration * rate >= 0;
  }

  function SenderCount(c: Config): int {
    if c.senders == 0 then c.connections else c.senders
  }

  /** Message i goes through client i modulo the number of senders. */
  predicate RoundRobin(routes: seq<nat>, senders: nat)
    requires senders > 0
  {
    forall i :: 0 <= i < |routes| ==> routes[i] == i % senders
  }

  /** Whether message i belongs to the burst, which is sent in the middle of the background. */
  predicate InBurst(c: Config, i: nat)
    requires ValidConfig(c)
  {
    var background := Messages(c.duration, c.messageRate);
    background / 2 <= i < background / 2 + Messages(c.burstDuration, c.burstRate)
  }

  /** Sending a phase's messages one per interval takes no longer than its duration, and with one more message and a nanosecond more per interval it would. */
  lemma PhaseFits(duration: int, rate: int)
    requires duration >= 0 && rate > 0
    ensures var count, interval := Messages(duration, rate), SECOND / rate;
      count * interval <= duration < (count + 1) * (interval + 1)
  {
    var count, interval := Messages(duration, rate), SECOND / rate;
    MessagesAreCounted(duration, rate);
    assert count * SECOND <= duration * rate < (count + 1) * SECOND;
    assert interval * rate <= SECOND < (interval + 1) * rate;
    Stretch(count, interval * rate, SECOND);
    Stretch(count + 1, SECOND, (interval + 1) * rate);
    assert count * (interval * rate) == (count * interval) * rate;
    assert (count + 1) * ((interval + 1) * rate) == ((count + 1) * (interval + 1)) * rate;
    Cancel(count * interval, duration, rate);
    Cancel(duration + 1, (count + 1) * (interval + 1), rate);
  }

  lemma Stretch(n: nat, a: int, b: int)
    requires a <= b
    ensures n * a <= n * b
  {
  }

  lemma Cancel(a: int, b: int, rate: int)
    requires rate > 0 && a * rate < b * rate + rate
    ensures a <= b
  {
    if a > b {
      Stretch(rate, b + 1, a);
    }
  }

  /**
   What the environment decides: the random ids drawn, and the attempt that stops the sending. A failed write leaves its id
   recorded; a context that ended or an id that could not be drawn records nothing.
   */
  datatype World = World(ids: nat -> Id, stopsAt: Option<nat>, writeFails: bool)

  class Load {
    var index: nat
    /** The ids recorded as sent, the client each successful send went through, and the ticker interval it had waited for. */
    var sent: seq<Id>
    var routes: seq<nat>
    var waits: seq<int>

    constructor ()
      ensures index == 0 && sent == [] && routes == [] && waits == []
    {
      index, sent, routes, waits := 0, [], [], [];
    }

    predicate InStep()
      reads this
    {
      |sent| == |routes| == |waits| == index
    }

    /** Sends `count` messages, one per tick, or stops early; a message is recorded before it is written. */
    method SendPhase(w: World, rate: int, count: int, senders: nat) returns (ok: bool)
      requires 0 < rate <= SECOND && senders > 0
      requires InStep() && RoundRobin(routes, senders)
      modifies this
      ensures ok <==> !(w.stopsAt.Some? && old(index) <= w.stopsAt.value < old(index) + count)
      ensures if ok then InStep() && index == old(index) + Max(count, 0)
              else w.stopsAt == Some(index) && |routes| == |waits| == index && |sent| == index + (if w.writeFails then 1 else 0)
      ensures RoundRobin(routes, senders) && old(routes) <= routes
      ensures old(sent) <= sent && forall i :: old(|sent|) <= i < |sent| ==> sent[i] == w.ids(i)
      ensures old(waits) <= waits && forall i :: old(|waits|) <= i < |waits| ==> waits[i] == SECOND / rate
    {
      var interval := SECOND / rate;
      assert interval > 0;
      var n := 0;
      while n < count
        invariant n == 0 || n <= count
        invariant index == old(index) + n && InStep()
        invariant forall i :: old(index) <= i < index ==> w.stopsAt != Some(i)
        invariant RoundRobin(routes, senders) && old(routes) <= routes
        invariant old(sent) <= sent && forall i :: old(|sent|) <= i < |sent| ==> sent[i] == w.ids(i)
        invariant old(waits) <= waits && forall i :: old(|waits|) <= i < |waits| ==> waits[i] == interval
      {
        if w.stopsAt == Some(index) && !w.writeFails {
          return false;
        }
        sent := sent + [w.ids(index)];
        if w.stopsAt == Some(index) {
          return false;
        }
        routes, waits := routes + [index % senders], waits + [interval];
        index := index + 1;
        n := n + 1;
      }
      return true;
    }

    /** Half the background, the burst, the rest of the background: together exactly the target, in turn through the senders. */
    method SendLoad(w: World, c: Config) returns (ok: bool)
      requires ValidConfig(c)
      requires index == 0 && sent == [] && routes == [] && waits == []
      modifies this
      ensures ok <==> !(w.stopsAt.Some? && w.stopsAt.value < TargetMessages(c))
      ensures if ok then InStep() && index == TargetMessages(c)
              else w.stopsAt == Some(index) && |routes| == |waits| == index && |sent| == index + (if w.writeFails then 1 else 0)
      ensures forall i :: 0 <= i < |routes| ==> routes[i] == i % (if c.senders == 0 then c.connections else c.senders)
      ensures forall i :: 0 <= i < |sent| ==> sent[i] == w.ids(i)
      ensures |waits| <= TargetMessages(c) && forall i :: 0 <= i < |waits| ==> waits[i] == SECOND / (if InBurst(c, i) then c.burstRate else c.messageRate)
    {
      var senders := SenderCount(c);
      MessagesAreCounted(c.duration, c.messageRate);
      MessagesAreCounted(c.burstDuration, c.burstRate);
      RateFits(c.messageRate);
      NoBurst(c.burstDuration);
      hide Messages;
      if c.burstRate == 0 {
        ok := SendPhase(w, c.messageRate, TargetMessages(c), senders);
        return;
      }
      var background := Messages(c.duration, c.messageRate);
      ok := SendPhase(w, c.messageRate, background / 2, senders);
      if !ok {
        return;
      }
      var burst := Messages(c.burstDuration, c.burstRate);
      ok := SendPhase(w, c.burstRate, burst, senders);
      if !ok {
        return;
      }
      ok := SendPhase(w, c.messageRate, background - background / 2, senders);
    }
  }

  lemma RateFits(rate: int)
    requires rate > 0 && SECOND / rate > 0
    ensures rate <= SECOND
  {
  }

  lemma NoBurst(duration: int)
    requires duration >= 0
    ensures Messages(duration, 0) == 0
  {
  }

  // ---- Reading the history back ----

  datatype HistoryError = Unreadable | Unknown(id: Id) | Duplicate(id: Id) | TimedOut | Canceled

  /** No message twice, and each one either accepted or rejected. */
  predicate Consistent(messages: seq<Id>, accepted: set<Id>, rejected: set<Id>) {
    Distinct(messages) && forall id <- messages :: id in accepted || id in rejected
  }

  function Found(messages: seq<Id>, ids: set<Id>): set<Id> {
    set id <- messages | id in ids
  }

  lemma NextMessage(messages: seq<Id>, i: nat, accepted: set<Id>, rejected: set<Id>)
    requires i < |messages|
    ensures var id := messages[i];
      && Found(messages[..i + 1], accepted) == Found(messages[..i], accepted) + (if id in accepted then {id} else {})
      && (Consistent(messages[..i + 1], accepted, rejected) <==>
          Consistent(messages[..i], accepted, rejected) && (id in accepted || id in rejected) && id !in messages[..i])
  {
    var before, after, id := messages[..i], messages[..i + 1], messages[i];
    assert after == before + [id];
    if Consistent(after, accepted, rejected) {
      assert after[i] == id && forall j :: 0 <= j < i ==> after[j] == before[j];
    }
  }

  lemma ConsistentPrefix(messages: seq<Id>, i: nat, accepted: set<Id>, rejected: set<Id>)
    requires i <= |messages| && Consistent(messages, accepted, rejected)
    ensures Consistent(messages[..i], accepted, rejected)
  {
  }

  /** Message i is the first one unknown or repeated: known twice if it is known. */
  predicate Blames(messages: seq<Id>, i: nat, accepted: set<Id>, rejected: set<Id>, error: HistoryError)
    requires i < |messages|
  {
    var id := messages[i];
    && Consistent(messages[..i], accepted, rejected)
    && if id !in accepted && id !in rejected then error == Unknown(id) else error == Duplicate(id) && id in messages[..i]
  }

  /** One pass over the messages: an error for the first unknown or repeated one, else how many were accepted and how many rejected. */
  method CheckHistory(messages: seq<Id>, accepted: set<Id>, rejected: set<Id>) returns (counts: Result<(nat, nat), HistoryError>)
    ensures counts.Ok? <==> Consistent(messages, accepted, rejected)
    ensures counts.Ok? ==> counts.value.0 == |Found(messages, accepted)| && counts.value.0 + counts.value.1 == |messages|
    ensures counts.Err? ==> exists i :: 0 <= i < |messages| && Blames(messages, i, accepted, rejected, counts.error)
  {
    hide Consistent, Found, Distinct;
    var seen: seq<Id> := [];
    var acceptedCount, rejectedCount := 0, 0;
    assert Consistent([], accepted, rejected) && Found([], accepted) == {} by { NoMessages(accepted, rejected); }
    for i := 0 to |messages|
      invariant seen == messages[..i]
      invariant acceptedCount == |Found(seen, accepted)|
      invariant Consistent(seen, accepted, rejected)
      invariant acceptedCount + rejectedCount == i
    {
      var id := messages[i];
      NextMessage(messages, i, accepted, rejected);
      if (id !in accepted && id !in rejected) || id in seen {
        if Consistent(messages, accepted, rejected) {
          ConsistentPrefix(messages, i + 1, accepted, rejected);
        }
        counts := Err(if id !in accepted && id !in rejected then Unknown(id) else Duplicate(id));
        assert Blames(messages, i, accepted, rejected, counts.error);
        return;
      }
      seen := seen + [id];
      if id in accepted {
        assert id !in Found(messages[..i], accepted) by { FoundIsIn(messages[..i], accepted); }
        acceptedCount := acceptedCount + 1;
      } else {
        rejectedCount := rejectedCount + 1;
      }
    }
    assert seen == messages;
    return Ok((acceptedCount, rejectedCount));
  }

  lemma NoMessages(accepted: set<Id>, rejected: set<Id>)
    ensures Consistent([], accepted, rejected) && Found([], accepted) == {}
  {
  }

  lemma FoundIsIn(messages: seq<Id>, ids: set<Id>)
    ensures forall id :: id in Found(messages, ids) <==> id in messages && id in ids
  {
  }

  /** A history that settles the wait: consistent, and holding every accepted message. */
  predicate Settled(messages: seq<Id>, accepted: set<Id>, rejected: set<Id>) {
    Consistent(messages, accepted, rejected) && accepted <= Found(messages, accepted)
  }

  predicate Pending(answer: Option<seq<Id>>, accepted: set<Id>, rejected: set<Id>) {
    answer.Some? && Consistent(answer.value, accepted, rejected) && !Settled(answer.value, accepted, rejected)
  }

  /**
   `answers` are those of the successive history reads up to the deadline; None is a read that failed.
   The wait ends with the first read that is settled, or with the first that is broken; `canceled` says whether it
   was the context that ended it before the deadline did.
   */
  method WaitForHistory(answers: seq<Option<seq<Id>>>, canceled: bool, accepted: set<Id>, rejected: set<Id>)
    returns (result: Result<Persistence, HistoryError>, last: nat)
    ensures last <= |answers| && forall i :: 0 <= i < last ==> Pending(answers[i], accepted, rejected)
    ensures result.Ok? ==>
              && last < |answers| && answers[last].Some? && Settled(answers[last].value, accepted, rejected)
              && result.value.total == |answers[last].value| && result.value.rejected == |answers[last].value| - |accepted|
    ensures result.Err? && (result.error.TimedOut? || result.error.Canceled?) ==>
              last == |answers| && (canceled <==> result.error.Canceled?)
    ensures result.Err? && !result.error.TimedOut? && !result.error.Canceled? ==>
              && last < |answers|
              && match answers[last]
                 case None => result.error == Unreadable
                 case Some(messages) => exists i :: 0 <= i < |messages| && Blames(messages, i, accepted, rejected, result.error)
  {
    last := 0;
    hide Consistent, Found;
    while last < |answers|
      invariant last <= |answers|
      invariant forall i :: 0 <= i < last ==> Pending(answers[i], accepted, rejected)
    {
      if answers[last].None? {
        return Err(Unreadable), last;
      }
      var messages := answers[last].value;
      var counts := CheckHistory(messages, accepted, rejected);
      if counts.Err? {
        return Err(counts.error), last;
      }
      FoundSize(messages, accepted);
      if counts.value.0 == |accepted| {
        return Ok(Persistence(|messages|, counts.value.1)), last;
      }
      last := last + 1;
    }
    return Err(if canceled then Canceled else TimedOut), last;
  }

  /** Counting suffices: as many accepted messages found as there are means all of them found. */
  lemma FoundSize(messages: seq<Id>, ids: set<Id>)
    ensures |Found(messages, ids)| == |ids| <==> ids <= Found(messages, ids)
  {
    assert Found(messages, ids) <= ids;
    if |Found(messages, ids)| == |ids| {
      FullSubset(Found(messages, ids), ids);
    } else {
      assert ids <= Found(messages, ids) ==> ids == Found(messages, ids);
    }
  }

  // ---- The verdict ----

  datatype Failure = Duplicates | RejectedSeen | WrongDeliveries | WrongPersisted | TooManyErrors

  function ValidateReport(r: Report, maxErrorRate: real): Option<Failure> {
    if r.duplicateAcks != 0 || r.duplicateDeliveries != 0 then Some(Duplicates)
    else if r.rejectedDelivered != 0 || r.rejectedPersisted != 0 then Some(RejectedSeen)
    else if r.realtimeDeliveries != r.expectedDeliveries then Some(WrongDeliveries)
    else if r.persistedMessages != r.accepted then Some(WrongPersisted)
    else if r.rejectionRate > maxErrorRate then Some(TooManyErrors)
    else None
  }
}
