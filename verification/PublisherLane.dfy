/** One publisher lane: a single AMQP channel in confirm mode that carries one publication at a time. */
module PublisherLane {
  import opened Prelude

  type PubId = nat

  datatype Frame = Return(pub: PubId) | Confirm(pub: PubId, ack: bool)

  /**
   A channel as the client library keeps it: `wire` are frames the broker sent and the library has not
   dispatched, `returns` the buffered return notifications (one at most), `confirms` the settled
   deferred confirmations, each tied to its own publication, and `sent` what was published on it.
   */
  datatype Chan = Chan(open: bool, sent: set<PubId>, wire: seq<Frame>, bounced: seq<PubId>, confirms: map<PubId, bool>)

  const FRESH_CHAN := Chan(true, {}, [], [], map[])

  datatype Outcome = Accepted | Unroutable(about: PubId) | Nacked | Interrupted | Canceled

  /** The ready cases of the select in awaitPublishResult. */
  datatype Choice = ContextDone | ChannelClosed | ReturnReady | ConfirmReady

  predicate Ready(c: Chan, p: PubId, choice: Choice) {
    match choice
    case ContextDone => true
    case ChannelClosed => !c.open
    case ReturnReady => c.bounced != [] || !c.open
    case ConfirmReady => p in c.confirms
  }

  /** What taking one case leads to: the channel kept or dropped, and the result, or none when an ack still has to look for a return. */
  function Await(c: Chan, p: PubId, choice: Choice): (Option<Chan>, Option<Outcome>)
    requires Ready(c, p, choice)
  {
    match choice
    case ContextDone => (None, Some(Canceled))
    case ChannelClosed => (None, Some(Interrupted))
    case ReturnReady => TakeReturn(c, Interrupted)
    case ConfirmReady =>
      if c.confirms[p] then (Some(c), None)
      else if c.open then (Some(c), Some(Nacked)) else (None, Some(Interrupted))
  }

  /** Reading the return channel: a buffered return first, then the closed channel. */
  function TakeReturn(c: Chan, otherwise: Outcome): (Option<Chan>, Option<Outcome>) {
    if c.bounced != [] then (Some(c.(bounced := c.bounced[1..])), Some(Unroutable(c.bounced[0])))
    else if !c.open then (None, Some(Interrupted))
    else (Some(c), Some(otherwise))
  }

  class Lane {
    var channel: Option<Chan>
    var closed: bool

    constructor ()
      ensures channel == None && !closed
    {
      channel, closed := None, false;
    }

    /** Keeps an open channel; otherwise opens a fresh one, whose return and close notifications are its own. */
    method EnsureChannel(opens: bool) returns (ok: bool)
      modifies this`channel
      ensures ok <==> !closed && ((old(channel).Some? && old(channel).value.open) || opens)
      ensures channel == if closed || (old(channel).Some? && old(channel).value.open) || !opens then old(channel) else Some(FRESH_CHAN)
    {
      if closed {
        return false;
      }
      if channel.Some? && channel.value.open {
        return true;
      }
      if !opens {
        return false;
      }
      channel := Some(FRESH_CHAN);
      return true;
    }

    method InvalidateChannel()
      modifies this`channel
      ensures channel == None
    {
      channel := None;
    }

    /** Sends one publication; a failed write drops the channel. */
    method Send(p: PubId, written: bool) returns (sent: bool)
      requires channel.Some?
      modifies this`channel
      ensures sent == written
      ensures channel == if written then Some(old(channel).value.(sent := old(channel).value.sent + {p})) else None
    {
      if !written {
        InvalidateChannel();
        return false;
      }
      channel := Some(channel.value.(sent := channel.value.sent + {p}));
      return true;
    }

    method AwaitPublishResult(p: PubId, choice: Choice) returns (result: Option<Outcome>)
      requires channel.Some? && Ready(channel.value, p, choice)
      modifies this`channel
      ensures (channel, result) == Await(old(channel).value, p, choice)
      ensures var c := old(channel).value;
        match choice
        case ContextDone => channel == None && result == Some(Canceled)
        case ChannelClosed => channel == None && result == Some(Interrupted)
        case ReturnReady =>
          if c.bounced == [] then channel == None && result == Some(Interrupted)
          else channel == Some(c.(bounced := c.bounced[1..])) && result == Some(Unroutable(c.bounced[0]))
        case ConfirmReady =>
          if !c.confirms[p] && !c.open then channel == None && result == Some(Interrupted)
          else channel == Some(c) && result == if c.confirms[p] then None else Some(Nacked)
    {
      match choice
      case ContextDone =>
        InvalidateChannel();
        return Some(Canceled);
      case ChannelClosed =>
        InvalidateChannel();
        return Some(Interrupted);
      case ReturnReady =>
        var c := channel.value;
        if c.bounced == [] {
          InvalidateChannel();
          return Some(Interrupted);
        }
        channel := Some(c.(bounced := c.bounced[1..]));
        return Some(Unroutable(c.bounced[0]));
      case ConfirmReady =>
        if !channel.value.confirms[p] {
          if !channel.value.open {
            InvalidateChannel();
            return Some(Interrupted);
          }
          return Some(Nacked);
        }
        return None;
    }

    method PendingReturnOrNil() returns (result: Option<Outcome>)
      requires channel.Some?
      modifies this`channel
      ensures (channel, result) == TakeReturn(old(channel).value, Accepted)
      ensures var c := old(channel).value;
        && (result == Some(Accepted) <==> c.bounced == [] && c.open)
        && (result == Some(Interrupted) <==> c.bounced == [] && !c.open)
        && (c.bounced != [] ==> result == Some(Unroutable(c.bounced[0])) && channel == Some(c.(bounced := c.bounced[1..])))
        && (c.bounced == [] ==> channel == if c.open then Some(c) else None)
    {
      var c := channel.value;
      if c.bounced != [] {
        channel := Some(c.(bounced := c.bounced[1..]));
        return Some(Unroutable(c.bounced[0]));
      }
      if !c.open {
        InvalidateChannel();
        return Some(Interrupted);
      }
      return Some(Accepted);
    }

    method Close()
      modifies this
      ensures closed
      ensures channel == if old(closed) || old(channel) == None || !old(channel).value.open then old(channel) else None
    {
      if closed {
        return;
      }
      closed := true;
      if channel == None || !channel.value.open {
        return;
      }
      channel := None;
    }
  }
}

/**
 A lane, the library and the broker, interleaved frame by frame. `outcomes` is history: what each
 publication returned. The broker's record of a publication says whether it returned and settled it.
 */
module LaneMachine {
  import opened Prelude
  import opened PublisherLane

  datatype Phase = Idle | Awaiting(pub: PubId) | Acknowledged(pub: PubId)

  datatype Fate = Fate(returned: bool, settled: Option<bool>)

  datatype State = State(channel: Option<Chan>, phase: Phase, broker: seq<Fate>, outcomes: map<PubId, Outcome>)

  datatype Step = Open
                | Publish(written: bool)
                | BrokerReturn(pub: PubId)
                | BrokerConfirm(pub: PubId, ack: bool)
                | Dispatch
                | Breaks
                | Select(choice: Choice)
                | Drain

  const INITIAL := State(None, Idle, [], map[])

  predicate OnChannel(s: State, p: PubId) {
    s.channel.Some? && s.channel.value.open && p in s.channel.value.sent && p < |s.broker|
  }

  /** The broker returns a mandatory message at most once and only before it settles it; then it may ack or nack it. */
  predicate Enabled(s: State, step: Step) {
    match step
    case Open => s.phase == Idle && (s.channel == None || !s.channel.value.open)
    case Publish(_) => s.phase == Idle && s.channel.Some? && s.channel.value.open
    case BrokerReturn(p) => OnChannel(s, p) && s.broker[p] == Fate(false, None)
    case BrokerConfirm(p, _) => OnChannel(s, p) && s.broker[p].settled == None
    case Dispatch =>
      && s.channel.Some? && s.channel.value.open && s.channel.value.wire != []
      && (s.channel.value.wire[0].Return? ==> s.channel.value.bounced == [])
    case Breaks => s.channel.Some? && s.channel.value.open
    case Select(choice) => s.phase.Awaiting? && s.channel.Some? && Ready(s.channel.value, s.phase.pub, choice)
    case Drain => s.phase.Acknowledged? && s.channel.Some?
  }

  function WithWire(s: State, f: Frame): State
    requires s.channel.Some?
  {
    s.(channel := Some(s.channel.value.(wire := s.channel.value.wire + [f])))
  }

  function Dispatched(c: Chan): Chan
    requires c.wire != []
  {
    match c.wire[0]
    case Return(p) => c.(wire := c.wire[1..], bounced := c.bounced + [p])
    case Confirm(p, ack) => c.(wire := c.wire[1..], confirms := c.confirms[p := ack])
  }

  /** A closing channel loses its undispatched frames and settles every open confirmation negatively. */
  function Broken(c: Chan): Chan {
    c.(open := false, wire := [], confirms := (map p | p in c.sent :: if p in c.confirms then c.confirms[p] else false))
  }

  function Finish(s: State, p: PubId, channel: Option<Chan>, outcome: Outcome): State {
    s.(channel := channel, phase := Idle, outcomes := s.outcomes[p := outcome])
  }

  function Do(s: State, step: Step): State
    requires Enabled(s, step)
  {
    match step
    case Open => s.(channel := Some(FRESH_CHAN))
    case Publish(written) =>
      var p := |s.broker|;
      var begun := s.(broker := s.broker + [Fate(false, None)]);
      if written
      then begun.(phase := Awaiting(p), channel := Some(s.channel.value.(sent := s.channel.value.sent + {p})))
      else Finish(begun, p, None, Interrupted)
    case BrokerReturn(p) => WithWire(s, Return(p)).(broker := s.broker[p := Fate(true, None)])
    case BrokerConfirm(p, ack) => WithWire(s, Confirm(p, ack)).(broker := s.broker[p := s.broker[p].(settled := Some(ack))])
    case Dispatch => s.(channel := Some(Dispatched(s.channel.value)))
    case Breaks => s.(channel := Some(Broken(s.channel.value)))
    case Select(choice) =>
      var p := s.phase.pub;
      var (channel, outcome) := Await(s.channel.value, p, choice);
      if outcome == None then s.(phase := Acknowledged(p)) else Finish(s, p, channel, outcome.value)
    case Drain =>
      var (channel, outcome) := TakeReturn(s.channel.value, Accepted);
      Finish(s, s.phase.pub, channel, outcome.value)
  }

  predicate Runs(s: State, steps: seq<Step>)
    decreases |steps|
  {
    steps != [] ==> Enabled(s, steps[0]) && Runs(Do(s, steps[0]), steps[1..])
  }

  function After(s: State, steps: seq<Step>): State
    requires Runs(s, steps)
    decreases |steps|
  {
    if steps == [] then s else After(Do(s, steps[0]), steps[1..])
  }

  predicate InFlight(s: State, p: PubId) {
    s.phase == Awaiting(p) || s.phase == Acknowledged(p)
  }

  // ---- What holds in every run ----

  predicate ChanOk(s: State, c: Chan) {
    && (forall p <- c.sent :: p < |s.broker|)
    && (forall p <- c.bounced :: p in c.sent && s.broker[p].returned)
    && |c.bounced| <= 1
    && (forall p <- c.confirms :: p in c.sent && (c.open ==> s.broker[p].settled == Some(c.confirms[p])))
    && (forall p <- c.confirms :: c.confirms[p] ==> s.broker[p].settled == Some(true))
  }

  /** Frames still on the wire tell the truth, and a return comes once and before its confirm. */
  predicate WireOk(s: State, c: Chan) {
    && (forall i :: 0 <= i < |c.wire| && c.wire[i].Return? ==>
          var p := c.wire[i].pub;
          && p in c.sent && p < |s.broker| && s.broker[p].returned && p !in c.confirms && p !in c.bounced
          && forall j :: 0 <= j < |c.wire| && j != i ==> c.wire[j] != Return(p) && (c.wire[j].Confirm? && c.wire[j].pub == p ==> i < j))
    && (forall i :: 0 <= i < |c.wire| && c.wire[i].Confirm? ==>
          var p := c.wire[i].pub;
          p in c.sent && p < |s.broker| && s.broker[p].settled == Some(c.wire[i].ack))
  }

  /** The channel still holds the return of p, read by the library or not. */
  predicate Holds(c: Chan, p: PubId) {
    p in c.bounced || Return(p) in c.wire
  }

  /** A return the broker sent is held until its publication is over. */
  predicate ReturnPending(s: State, c: Chan) {
    forall p <- c.sent :: p < |s.broker| && s.broker[p].returned && InFlight(s, p) && c.open ==> Holds(c, p)
  }

  predicate PhaseOk(s: State) {
    && (forall p <- s.outcomes :: p < |s.broker| && !InFlight(s, p))
    && (s.phase != Idle ==> s.channel.Some? && s.phase.pub in s.channel.value.sent && s.phase.pub == |s.broker| - 1)
    && (s.phase.Acknowledged? ==> s.phase.pub in s.channel.value.confirms && s.channel.value.confirms[s.phase.pub])
    && (s.channel.Some? ==> forall p <- s.channel.value.sent :: p in s.outcomes || InFlight(s, p))
  }

  /** The publication reported a nack although the broker had returned its message: the nack branch leaves that return behind. */
  predicate NackedReturn(s: State, q: PubId) {
    q in s.outcomes && q < |s.broker| && s.outcomes[q] == Nacked && s.broker[q].returned
  }

  /** What a publication reported happened to it, unless an earlier one reported a nack in spite of its return. */
  predicate OutcomeOk(s: State, p: PubId)
    requires p in s.outcomes
  {
    p < |s.broker| &&
    match s.outcomes[p]
    case Accepted => s.broker[p] == Fate(false, Some(true))
    case Unroutable(about) =>
      about < |s.broker| && s.broker[about].returned && (about == p || exists q :: 0 <= q < p && NackedReturn(s, q))
    case Nacked => s.broker[p].settled == Some(false)
    case _ => true
  }

  // ---- What holds while no returned message was reported as nacked ----

  predicate LocalClean(s: State) {
    s.channel.Some? ==> forall q <- s.channel.value.sent :: !NackedReturn(s, q)
  }

  /** Every return held belongs to the publication in flight. */
  predicate ReturnsOwn(s: State, c: Chan) {
    && (forall p <- c.bounced :: InFlight(s, p))
    && (forall i :: 0 <= i < |c.wire| && c.wire[i].Return? ==> InFlight(s, c.wire[i].pub) && c.bounced == [])
  }

  /** On a channel in use, whatever is over was returned or settled: no late return can come for it. */
  predicate PastOver(s: State, c: Chan) {
    c.open ==> forall p <- c.sent :: p < |s.broker| && !InFlight(s, p) ==> s.broker[p] != Fate(false, None)
  }

  predicate CleanInv(s: State) {
    s.channel.Some? ==> ReturnsOwn(s, s.channel.value) && PastOver(s, s.channel.value)
  }

  predicate Base(s: State) {
    && PhaseOk(s)
    && (s.channel.Some? ==> ChanOk(s, s.channel.value) && WireOk(s, s.channel.value) && ReturnPending(s, s.channel.value))
  }

  predicate OutcomesOk(s: State) {
    forall p <- s.outcomes :: OutcomeOk(s, p)
  }

  predicate Inv(s: State) {
    Base(s) && (LocalClean(s) ==> CleanInv(s)) && OutcomesOk(s)
  }
}

module LaneSafety {
  import opened Prelude
  import opened PublisherLane
  import opened LaneMachine

  // ---- Base ----

  lemma BrokerReturnBase(s: State, p: PubId)
    requires Base(s) && Enabled(s, BrokerReturn(p))
    ensures Base(Do(s, BrokerReturn(p)))
  {
    var t := Do(s, BrokerReturn(p));
    var c, d := s.channel.value, t.channel.value;
    assert p !in c.confirms && p !in c.bounced;
    assert d.wire[|c.wire|] == Return(p);
    assert forall i :: 0 <= i < |c.wire| ==> d.wire[i] == c.wire[i];
  }

  lemma BrokerConfirmBase(s: State, p: PubId, ack: bool)
    requires Base(s) && Enabled(s, BrokerConfirm(p, ack))
    ensures Base(Do(s, BrokerConfirm(p, ack)))
  {
    var t := Do(s, BrokerConfirm(p, ack));
    var c, d := s.channel.value, t.channel.value;
    assert p !in c.confirms;
    assert PhaseOk(t) && ChanOk(t, d);
    ConfirmWire(s, p, ack);
    assert forall q: PubId :: Holds(c, q) ==> Holds(d, q);
    hide Holds, WireOk, ChanOk, PhaseOk;
  }

  lemma ConfirmWire(s: State, p: PubId, ack: bool)
    requires Base(s) && Enabled(s, BrokerConfirm(p, ack))
    ensures WireOk(Do(s, BrokerConfirm(p, ack)), Do(s, BrokerConfirm(p, ack)).channel.value)
  {
    hide PhaseOk, ReturnPending;
    var t := Do(s, BrokerConfirm(p, ack));
    var c, d := s.channel.value, t.channel.value;
    assert d.wire == c.wire + [Confirm(p, ack)];
    assert forall i :: 0 <= i < |c.wire| ==> d.wire[i] == c.wire[i];
    assert p !in c.confirms;
  }

  lemma DispatchBase(s: State)
    requires Base(s) && Enabled(s, Dispatch)
    ensures Base(Do(s, Dispatch))
  {
  }

  lemma OtherBase(s: State, step: Step)
    requires Base(s) && Enabled(s, step) && (step.Open? || step.Publish? || step.Breaks?)
    ensures Base(Do(s, step))
  {
  }

  /** A publication that ends keeps its channel, perhaps with one return read from it, or drops it. */
  predicate Ends(s: State, t: State) {
    && s.phase != Idle && s.channel.Some? && t.phase == Idle && t.broker == s.broker
    && s.phase.pub in t.outcomes && t.outcomes == s.outcomes[s.phase.pub := t.outcomes[s.phase.pub]]
    && var c := s.channel.value;
      t.channel == None || t.channel == Some(c) || (c.bounced != [] && t.channel == Some(c.(bounced := c.bounced[1..])))
  }

  lemma EndsBase(s: State, t: State)
    requires Base(s) && Ends(s, t)
    ensures Base(t)
  {
    var c := s.channel.value;
    assert c.bounced != [] ==> c.bounced[1..] == [];
  }

  lemma FinishBase(s: State, step: Step)
    requires Base(s) && Enabled(s, step) && (step.Select? || step.Drain?)
    ensures Base(Do(s, step))
  {
    var t := Do(s, step);
    if t.phase == Idle {
      hide Base;
      assert Ends(s, t);
      EndsBase(s, t);
    }
  }

  lemma StepBase(s: State, step: Step)
    requires Base(s) && Enabled(s, step)
    ensures Base(Do(s, step))
  {
    hide Base, Do, Enabled;
    match step
    case BrokerReturn(p) => BrokerReturnBase(s, p);
    case BrokerConfirm(p, ack) => BrokerConfirmBase(s, p, ack);
    case Dispatch => DispatchBase(s);
    case Select(_) => FinishBase(s, step);
    case Drain => FinishBase(s, step);
    case _ => OtherBase(s, step);
  }

  // ---- Clean channels ----

  /** What publications reported stays reported, and what the broker did stays done. */
  lemma FactsStay(s: State, step: Step, q: PubId)
    requires PhaseOk(s) && Enabled(s, step)
    requires q in s.outcomes
    ensures var t := Do(s, step); |s.broker| <= |t.broker| && q in t.outcomes && t.outcomes[q] == s.outcomes[q]
    ensures var t := Do(s, step); s.broker[q].returned ==> t.broker[q].returned
    ensures var t := Do(s, step); s.broker[q].settled.Some? ==> t.broker[q] == s.broker[q]
  {
  }

  lemma SentStays(s: State, step: Step)
    requires Enabled(s, step) && s.channel.Some?
    ensures var t := Do(s, step); t.channel.Some? && !step.Open? ==> s.channel.value.sent <= t.channel.value.sent
  {
  }

  /** A channel that is clean after a step was clean before it, unless it is new. */
  lemma CleanBefore(s: State, step: Step)
    requires PhaseOk(s) && Enabled(s, step) && LocalClean(Do(s, step))
    ensures LocalClean(s) || step.Open? || Do(s, step).channel == None
  {
    var t := Do(s, step);
    if s.channel.Some? && t.channel.Some? && !step.Open? {
      SentStays(s, step);
      hide Do;
      forall q <- s.channel.value.sent
        ensures !NackedReturn(s, q)
      {
        if NackedReturn(s, q) {
          FactsStay(s, step, q);
        }
      }
    }
  }

  /** No return is held while the publication in flight has not been returned. */
  lemma NothingHeld(s: State, c: Chan, p: PubId)
    requires s.channel == Some(c) && ChanOk(s, c) && WireOk(s, c) && ReturnsOwn(s, c) && p < |s.broker| && InFlight(s, p) && !s.broker[p].returned
    ensures c.bounced == []
    ensures forall i :: 0 <= i < |c.wire| ==> c.wire[i].Confirm?
  {
    HeadIsIn(c.bounced);
  }

  lemma ReturnKeepsClean(s: State, p: PubId)
    requires Base(s) && CleanInv(s) && Enabled(s, BrokerReturn(p))
    ensures CleanInv(Do(s, BrokerReturn(p)))
  {
    assert InFlight(s, p);
    NothingHeld(s, s.channel.value, p);
  }

  lemma PublishKeepsClean(s: State, written: bool)
    requires Base(s) && CleanInv(s) && Enabled(s, Publish(written))
    ensures CleanInv(Do(s, Publish(written)))
  {
    HeadIsIn(s.channel.value.bounced);
  }

  lemma BrokerKeepsClean(s: State, step: Step)
    requires Base(s) && CleanInv(s) && Enabled(s, step)
    requires step.BrokerReturn? || step.BrokerConfirm? || step.Dispatch? || step.Breaks? || step.Open? || step.Publish?
    ensures CleanInv(Do(s, step))
  {
    if step.BrokerReturn? {
      ReturnKeepsClean(s, step.pub);
      hide *;
    } else if step.Publish? {
      PublishKeepsClean(s, step.written);
      hide *;
    } else {
      hide WireOk, ReturnPending;
    }
  }

  /** The broker returns before it acks and the library dispatches in order: once acked, a return is in the buffer or never was. */
  lemma AckedReturn(s: State, c: Chan, p: PubId)
    requires s.channel == Some(c) && ChanOk(s, c) && WireOk(s, c) && ReturnPending(s, c)
    requires InFlight(s, p) && p in c.sent && p in c.confirms && c.open
    ensures Return(p) !in c.wire
    ensures s.broker[p].returned <==> p in c.bounced
  {
    assert forall i :: 0 <= i < |c.wire| && c.wire[i] == Return(p) ==> c.wire[i].Return?;
  }

  lemma EndKeepsClean(s: State, step: Step)
    requires Base(s) && CleanInv(s) && Enabled(s, step) && (step.Select? || step.Drain?)
    requires LocalClean(Do(s, step))
    ensures CleanInv(Do(s, step))
  {
    var t := Do(s, step);
    var c, p := s.channel.value, s.phase.pub;
    HeadIsIn(c.bounced);
    if c.open && p in c.confirms {
      AckedReturn(s, c, p);
    }
    if t.phase == Idle && t.channel.Some? && t.outcomes[p] == Nacked {
      assert !NackedReturn(t, p);
      NothingHeld(s, c, p);
    }
  }

  lemma CleanKeeps(s: State, step: Step)
    requires Inv(s) && Enabled(s, step) && LocalClean(Do(s, step))
    ensures CleanInv(Do(s, step))
  {
    CleanBefore(s, step);
    hide Base, OutcomesOk, LocalClean;
    if LocalClean(s) {
      hide CleanInv, Do;
      if step.Select? || step.Drain? {
        EndKeepsClean(s, step);
      } else {
        BrokerKeepsClean(s, step);
      }
    }
  }

  // ---- Outcomes ----

  lemma OldOutcome(s: State, step: Step, p: PubId)
    requires PhaseOk(s) && Enabled(s, step) && p in s.outcomes && OutcomeOk(s, p)
    ensures p in Do(s, step).outcomes && OutcomeOk(Do(s, step), p)
  {
    FactsStay(s, step, p);
    var t := Do(s, step);
    if s.outcomes[p].Unroutable? {
      var about := s.outcomes[p].about;
      ReturnedStays(s, step, about);
      if about != p {
        var q :| 0 <= q < p && NackedReturn(s, q);
        FactsStay(s, step, q);
        assert NackedReturn(t, q);
      }
    }
    hide Do;
  }

  lemma ReturnedStays(s: State, step: Step, p: PubId)
    requires Enabled(s, step) && p < |s.broker| && s.broker[p].returned
    ensures p < |Do(s, step).broker| && Do(s, step).broker[p].returned
  {
  }

  /** Whose return a publication can find in the buffer. */
  lemma HeadIsOwn(s: State)
    requires Inv(s) && s.phase != Idle && s.channel.value.bounced != []
    ensures var about := s.channel.value.bounced[0];
      about < |s.broker| && s.broker[about].returned && (about == s.phase.pub || exists q :: 0 <= q < s.phase.pub && NackedReturn(s, q))
  {
    var c, p := s.channel.value, s.phase.pub;
    HeadIsIn(c.bounced);
    if !LocalClean(s) {
      var q :| q in c.sent && NackedReturn(s, q);
      assert q < p;
    }
  }

  lemma NewOutcome(s: State, step: Step)
    requires Inv(s) && Enabled(s, step) && s.phase != Idle && Do(s, step).phase == Idle
    ensures s.phase.pub in Do(s, step).outcomes && OutcomeOk(Do(s, step), s.phase.pub)
  {
    var c, p, t := s.channel.value, s.phase.pub, Do(s, step);
    if c.bounced != [] {
      HeadIsOwn(s);
      if c.bounced[0] != p {
        var q :| 0 <= q < p && NackedReturn(s, q);
        assert NackedReturn(t, q);
      }
    }
    if c.open && p in c.confirms {
      AckedReturn(s, c, p);
    }
    hide OutcomesOk, CleanInv, LocalClean, NackedReturn;
  }

  lemma OutcomesKeep(s: State, step: Step)
    requires Inv(s) && Enabled(s, step)
    ensures OutcomesOk(Do(s, step))
  {
    var t := Do(s, step);
    forall p <- t.outcomes
      ensures OutcomeOk(t, p)
    {
      if p in s.outcomes {
        assert OutcomeOk(s, p);
        OldOutcome(s, step, p);
      } else if s.phase != Idle {
        NewOutcome(s, step);
      }
    }
  }

  lemma StepKeeps(s: State, step: Step)
    requires Inv(s) && Enabled(s, step)
    ensures Inv(Do(s, step))
  {
    hide Base, LocalClean, CleanInv, OutcomesOk, Do;
    StepBase(s, step);
    OutcomesKeep(s, step);
    if LocalClean(Do(s, step)) {
      CleanKeeps(s, step);
    }
  }

  lemma {:induction false} RunKeeps(s: State, steps: seq<Step>)
    requires Inv(s) && Runs(s, steps)
    ensures Inv(After(s, steps))
    decreases |steps|
  {
    hide Inv, Do, Enabled;
    if steps != [] {
      StepKeeps(s, steps[0]);
      RunKeeps(Do(s, steps[0]), steps[1..]);
    }
  }
}

module LaneResults {
  import opened Prelude
  import opened PublisherLane
  import opened LaneMachine
  import opened LaneSafety

  /**
   Over any sequence of publications: success is reported only for a message the broker acked and never
   returned, a nack is that message's own, and an unroutable error names a message that was returned: its
   own, unless an earlier publication was reported as nacked although its message had been returned.
   */
  lemma OutcomesAreTrue(steps: seq<Step>, p: PubId)
    requires Runs(INITIAL, steps) && p in After(INITIAL, steps).outcomes
    ensures var s := After(INITIAL, steps);
      && p < |s.broker|
      && (s.outcomes[p] == Accepted ==> s.broker[p] == Fate(false, Some(true)))
      && (s.outcomes[p] == Nacked ==> s.broker[p].settled == Some(false))
      && (s.outcomes[p].Unroutable? ==>
            var about := s.outcomes[p].about;
            about < |s.broker| && s.broker[about].returned && (about == p || exists q :: 0 <= q < p && NackedReturn(s, q)))
  {
    RunKeeps(INITIAL, steps);
    assert OutcomeOk(After(INITIAL, steps), p);
  }

  /** If no message was nacked after its return, every report is its publication's own, of any kind. */
  lemma ReportsAreOwn(steps: seq<Step>, p: PubId)
    requires Runs(INITIAL, steps) && p in After(INITIAL, steps).outcomes
    requires forall q <- After(INITIAL, steps).broker :: q != Fate(true, Some(false))
    ensures var s := After(INITIAL, steps);
      && p < |s.broker|
      && (s.outcomes[p].Unroutable? ==> s.outcomes[p].about == p && s.broker[p].returned)
      && (s.outcomes[p] == Nacked ==> s.broker[p] == Fate(false, Some(false)))
  {
    OutcomesAreTrue(steps, p);
    var s := After(INITIAL, steps);
    if exists q :: 0 <= q < p && NackedReturn(s, q) {
      var q :| 0 <= q < p && NackedReturn(s, q);
      OutcomesAreTrue(steps, q);
      assert s.broker[q] in s.broker;
    }
    assert s.broker[p] in s.broker;
  }

  /** The nack branch, taken on an open channel: the channel is kept, and with it p's return exactly when the broker returned p. */
  lemma NackLeavesItsReturn(steps: seq<Step>, p: PubId)
    requires Runs(INITIAL, steps)
    requires var s := After(INITIAL, steps);
      s.phase == Awaiting(p) && s.channel.Some? && s.channel.value.open && p in s.channel.value.confirms && !s.channel.value.confirms[p]
    ensures var s := After(INITIAL, steps);
      && Enabled(s, Select(ConfirmReady)) && p < |s.broker|
      && var t := Do(s, Select(ConfirmReady));
         && t.phase == Idle && t.outcomes == s.outcomes[p := Nacked] && t.channel.Some? && t.channel.value.open
         && (Holds(t.channel.value, p) <==> s.broker[p].returned)
  {
    RunKeeps(INITIAL, steps);
    var s := After(INITIAL, steps);
    AckedReturn(s, s.channel.value, p);
  }

  /**
   Once the library has an ack on an open channel the report is decided, unless an earlier publication on that channel left its
   return behind: success exactly if the broker did not return the message, and its own return otherwise. The channel stays in use.
   */
  lemma AckDecides(steps: seq<Step>, p: PubId)
    requires Runs(INITIAL, steps) && LocalClean(After(INITIAL, steps))
    requires var s := After(INITIAL, steps);
      s.phase == Awaiting(p) && s.channel.Some? && s.channel.value.open && p in s.channel.value.confirms && s.channel.value.confirms[p]
    ensures var s := After(INITIAL, steps);
      && p < |s.broker|
      && Enabled(s, Select(ConfirmReady)) && Enabled(Do(s, Select(ConfirmReady)), Drain)
      && var t := Do(Do(s, Select(ConfirmReady)), Drain);
         && t.phase == Idle
         && t.outcomes == s.outcomes[p := if s.broker[p].returned then Unroutable(p) else Accepted]
         && t.channel == Some(s.channel.value.(bounced := []))
  {
    RunKeeps(INITIAL, steps);
    var s := After(INITIAL, steps);
    var c := s.channel.value;
    AckedReturn(s, c, p);
    hide WireOk, ReturnPending, OutcomesOk;
    if c.bounced != [] {
      assert c.bounced[0] in c.bounced;
      assert c.bounced == [p];
    }
  }

  // ---- When a publication can be blamed for another's return ----

  /** The channel holds a return, or may still get one for a publication that is over. */
  ghost predicate Exposed(s: State) {
    s.channel.Some? && ((exists q: PubId :: Holds(s.channel.value, q))
                        || exists q <- s.channel.value.sent :: q < |s.broker| && s.broker[q] == Fate(false, None))
  }

  predicate Blamed(s: State, n: PubId) {
    n in s.outcomes && s.outcomes[n].Unroutable? && s.outcomes[n].about != n
  }

  /** Some continuation reports another message's return for the next publication. */
  ghost predicate CanBeBlamed(s: State) {
    exists steps: seq<Step> :: Runs(s, steps) && Blamed(After(s, steps), |s.broker|)
  }

  predicate Vacant(s: State) {
    s.phase == Idle && s.channel.Some? && s.channel.value.open
  }

  /** Publication n has not begun, or is in flight on a clean channel, or is over and was not blamed. */
  predicate Watched(s: State, n: PubId) {
    && Base(s) && n <= |s.broker|
    && (n == |s.broker| ==> s.phase == Idle)
    && (n == |s.broker| || InFlight(s, n) ==> CleanInv(s))
    && !Blamed(s, n)
  }

  lemma WatchBroker(s: State, step: Step, n: PubId)
    requires Watched(s, n) && Enabled(s, step) && !step.Select? && !step.Drain?
    ensures Watched(Do(s, step), n)
  {
    StepBase(s, step);
    hide Base;
    if n == |s.broker| || InFlight(s, n) {
      assert PhaseOk(s) by { BaseMeans(s); }
      hide PhaseOk;
      BrokerKeepsClean(s, step);
    }
    hide CleanInv;
  }

  lemma BaseMeans(s: State)
    requires Base(s)
    ensures PhaseOk(s)
    ensures s.channel.Some? ==> ChanOk(s, s.channel.value)
  {
  }

  lemma WatchEnd(s: State, step: Step, n: PubId)
    requires Watched(s, n) && Enabled(s, step) && (step.Select? || step.Drain?)
    ensures Watched(Do(s, step), n)
  {
    hide ReturnPending, WireOk;
    StepBase(s, step);
    BaseMeans(s);
    hide Base;
    HeadIsIn(s.channel.value.bounced);
  }

  lemma {:induction false} WatchRun(s: State, steps: seq<Step>, n: PubId)
    requires Watched(s, n) && Runs(s, steps)
    ensures Watched(After(s, steps), n)
    decreases |steps|
  {
    hide Watched, Do, Enabled;
    if steps != [] {
      var step := steps[0];
      if step.Select? || step.Drain? {
        WatchEnd(s, step, n);
      } else {
        WatchBroker(s, step, n);
      }
      WatchRun(Do(s, step), steps[1..], n);
    }
  }

  lemma UnexposedIsWatched(s: State)
    requires Base(s) && Vacant(s) && !Exposed(s)
    ensures Watched(s, |s.broker|)
  {
    var c := s.channel.value;
    HeadIsIn(c.bounced);
    assert forall q <- c.bounced :: Holds(c, q);
    assert forall i :: 0 <= i < |c.wire| && c.wire[i].Return? ==> c.wire[i] == Return(c.wire[i].pub) && Holds(c, c.wire[i].pub);
  }

  lemma Extended(s: State, step: Step)
    requires Enabled(s, step) && |Do(s, step).broker| == |s.broker| && CanBeBlamed(Do(s, step))
    ensures CanBeBlamed(s)
  {
    var t := Do(s, step);
    var steps: seq<Step> :| Runs(t, steps) && Blamed(After(t, steps), |t.broker|);
    var all := [step] + steps;
    assert all[1..] == steps;
    assert Runs(s, all) && Blamed(After(s, all), |s.broker|);
  }

  lemma BlamedForBuffered(s: State)
    requires Base(s) && Vacant(s) && s.channel.value.bounced != []
    ensures CanBeBlamed(s)
  {
    var c, n := s.channel.value, |s.broker|;
    HeadIsIn(c.bounced);
    var t := Do(s, Publish(true));
    var u := Do(t, Select(ReturnReady));
    var rest := [Select(ReturnReady)];
    var steps := [Publish(true)] + rest;
    assert rest[1..] == [] && steps[1..] == rest;
    assert Runs(u, []) && After(u, []) == u;
    assert Runs(t, rest) && After(t, rest) == u;
    assert Runs(s, steps) && After(s, steps) == u;
    assert Blamed(u, n);
  }

  /** A return on the wire reaches the buffer while nobody publishes. */
  lemma {:induction false} BlamedForWire(s: State, i: nat)
    requires Base(s) && Vacant(s) && i < |s.channel.value.wire| && s.channel.value.wire[i].Return?
    ensures CanBeBlamed(s)
    decreases i
  {
    if s.channel.value.bounced != [] {
      BlamedForBuffered(s);
    } else {
      var t := Do(s, Dispatch);
      StepBase(s, Dispatch);
      hide Base;
      if i == 0 {
        BlamedForBuffered(t);
      } else {
        BlamedForWire(t, i - 1);
      }
      Extended(s, Dispatch);
    }
  }

  lemma BlamedForLate(s: State, q: PubId)
    requires Base(s) && Vacant(s) && q in s.channel.value.sent && q < |s.broker| && s.broker[q] == Fate(false, None)
    ensures CanBeBlamed(s)
  {
    var t := Do(s, BrokerReturn(q));
    StepBase(s, BrokerReturn(q));
    hide Base;
    BlamedForWire(t, |s.channel.value.wire|);
    Extended(s, BrokerReturn(q));
  }

  lemma ExposedIsBlamed(s: State)
    requires Base(s) && Vacant(s) && Exposed(s)
    ensures CanBeBlamed(s)
  {
    var c := s.channel.value;
    hide Base, CanBeBlamed;
    if q: PubId :| Holds(c, q) {
      if q in c.bounced {
        BlamedForBuffered(s);
      } else {
        var i :| 0 <= i < |c.wire| && c.wire[i] == Return(q);
        BlamedForWire(s, i);
      }
    } else {
      var q :| q in c.sent && q < |s.broker| && s.broker[q] == Fate(false, None);
      BlamedForLate(s, q);
    }
  }

  /**
   The exact condition, on the lane before a publication: it can be blamed for another's return if and only
   if its channel holds a return or a message on it is still neither returned nor settled.
   */
  lemma BlamedIffExposed(steps: seq<Step>)
    requires Runs(INITIAL, steps) && Vacant(After(INITIAL, steps))
    ensures CanBeBlamed(After(INITIAL, steps)) <==> Exposed(After(INITIAL, steps))
  {
    RunKeeps(INITIAL, steps);
    var s := After(INITIAL, steps);
    if Exposed(s) {
      ExposedIsBlamed(s);
    } else {
      UnexposedIsWatched(s);
      hide Exposed, Base, Watched;
      forall more: seq<Step> | Runs(s, more)
        ensures !Blamed(After(s, more), |s.broker|)
      {
        WatchRun(s, more, |s.broker|);
        NotBlamed(After(s, more), |s.broker|);
      }
    }
  }

  lemma NotBlamed(s: State, n: PubId)
    requires Watched(s, n)
    ensures !Blamed(s, n)
  {
  }

  /** How a lane comes to be exposed: only by a nack reported for a message on this channel that had been returned. */
  lemma IdleLaneIsClean(steps: seq<Step>)
    requires Runs(INITIAL, steps) && Vacant(After(INITIAL, steps))
    ensures var s := After(INITIAL, steps);
      !Exposed(s) || exists q <- s.channel.value.sent :: NackedReturn(s, q)
  {
    RunKeeps(INITIAL, steps);
    var s := After(INITIAL, steps);
    var c := s.channel.value;
    if LocalClean(s) {
      assert forall q <- c.bounced :: InFlight(s, q);
      HeadIsIn(c.bounced);
      assert forall q: PubId, i :: 0 <= i < |c.wire| && c.wire[i] == Return(q) ==> c.wire[i].Return?;
    }
  }

  /** And that nack does expose it: the publication after a nack in spite of a return can be blamed. */
  lemma NackedReturnIsBlamed(steps: seq<Step>, p: PubId)
    requires Runs(INITIAL, steps)
    requires var s := After(INITIAL, steps);
      s.phase == Awaiting(p) && s.channel.Some? && s.channel.value.open && p in s.channel.value.confirms && !s.channel.value.confirms[p]
    requires p < |After(INITIAL, steps).broker| && After(INITIAL, steps).broker[p].returned
    ensures var s := After(INITIAL, steps); Enabled(s, Select(ConfirmReady)) && CanBeBlamed(Do(s, Select(ConfirmReady)))
  {
    RunKeeps(INITIAL, steps);
    NackLeavesItsReturn(steps, p);
    var s := After(INITIAL, steps);
    StepBase(s, Select(ConfirmReady));
    hide Inv, Base, CanBeBlamed;
    ExposedIsBlamed(Do(s, Select(ConfirmReady)));
  }

  /** Dispatching blocks on the one-place return buffer only on a channel exposed that way. */
  lemma DispatchBlocksOnlyWhenExposed(steps: seq<Step>)
    requires Runs(INITIAL, steps)
    requires var s := After(INITIAL, steps); s.channel.Some? && s.channel.value.open && s.channel.value.wire != []
    ensures var s := After(INITIAL, steps); Enabled(s, Dispatch) || exists q <- s.channel.value.sent :: NackedReturn(s, q)
  {
    RunKeeps(INITIAL, steps);
  }

  /** Such a broker history exists: returned, nacked, and the next publication blamed. */
  lemma NackAfterReturnMisattributes()
    ensures exists steps: seq<Step> :: Runs(INITIAL, steps) && After(INITIAL, steps).outcomes == map[0 := Nacked, 1 := Unroutable(0)]
  {
    var c := FRESH_CHAN.(sent := {0});
    var s1 := INITIAL.(channel := Some(FRESH_CHAN));
    var s2 := State(Some(c), Awaiting(0), [Fate(false, None)], map[]);
    var s4 := State(Some(c.(wire := [Return(0), Confirm(0, false)])), Awaiting(0), [Fate(true, Some(false))], map[]);
    var s6 := State(Some(c.(bounced := [0], confirms := map[0 := false])), Awaiting(0), [Fate(true, Some(false))], map[]);
    var end := RunsToEnd(s6);
    var tail := [Select(ConfirmReady), Publish(true), Select(ReturnReady)];
    RunsDispatch(c, s4, s6, tail, end);
    RunsBroker(c, s2, s4, [Dispatch, Dispatch] + tail, end);
    FirstPublish(s1, s2);
    var all := [BrokerReturn(0), BrokerConfirm(0, false)] + ([Dispatch, Dispatch] + tail);
    RunsOne(s1, Publish(true), s2, all, end);
    RunsOne(INITIAL, Open, s1, [Publish(true)] + all, end);
  }

  lemma FirstPublish(s1: State, s2: State)
    requires s1 == INITIAL.(channel := Some(FRESH_CHAN))
    requires s2 == State(Some(FRESH_CHAN.(sent := {0})), Awaiting(0), [Fate(false, None)], map[])
    ensures Enabled(s1, Publish(true)) && Do(s1, Publish(true)) == s2
  {
    assert FRESH_CHAN.sent + {0} == {0};
    assert [] + [Fate(false, None)] == [Fate(false, None)];
  }

  lemma RunsToEnd(s: State) returns (end: State)
    requires s == State(Some(FRESH_CHAN.(sent := {0}, bounced := [0], confirms := map[0 := false])), Awaiting(0), [Fate(true, Some(false))], map[])
    ensures var steps := [Select(ConfirmReady), Publish(true), Select(ReturnReady)];
      Runs(s, steps) && After(s, steps) == end
    ensures end.outcomes == map[0 := Nacked, 1 := Unroutable(0)]
  {
    var s7 := s.(phase := Idle, outcomes := map[0 := Nacked]);
    var s8 := Do(s7, Publish(true));
    end := Do(s8, Select(ReturnReady));
    RunsEmpty(end);
    RunsOne(s8, Select(ReturnReady), end, [], end);
    RunsOne(s7, Publish(true), s8, [Select(ReturnReady)], end);
    RunsOne(s, Select(ConfirmReady), s7, [Publish(true), Select(ReturnReady)], end);
  }

  lemma RunsEmpty(s: State)
    ensures Runs(s, []) && After(s, []) == s
  {
  }

  lemma RunsOne(s: State, step: Step, t: State, rest: seq<Step>, end: State)
    requires Enabled(s, step) && Do(s, step) == t
    requires Runs(t, rest) && After(t, rest) == end
    ensures Runs(s, [step] + rest) && After(s, [step] + rest) == end
  {
    assert ([step] + rest)[1..] == rest;
  }

  lemma RunsDispatch(c: Chan, s: State, t: State, rest: seq<Step>, end: State)
    requires s == State(Some(c.(wire := [Return(0), Confirm(0, false)])), Awaiting(0), [Fate(true, Some(false))], map[])
    requires t == State(Some(c.(bounced := [0], confirms := map[0 := false])), Awaiting(0), [Fate(true, Some(false))], map[])
    requires c == FRESH_CHAN.(sent := {0}) && Runs(t, rest) && After(t, rest) == end
    ensures Runs(s, [Dispatch, Dispatch] + rest) && After(s, [Dispatch, Dispatch] + rest) == end
  {
    var m := s.(channel := Some(c.(wire := [Confirm(0, false)], bounced := [0])));
    assert Dispatched(s.channel.value) == m.channel.value;
    assert Dispatched(m.channel.value) == t.channel.value;
    RunsOne(m, Dispatch, t, rest, end);
    RunsOne(s, Dispatch, m, [Dispatch] + rest, end);
    assert [Dispatch, Dispatch] + rest == [Dispatch] + ([Dispatch] + rest);
  }

  lemma RunsBroker(c: Chan, s: State, t: State, rest: seq<Step>, end: State)
    requires s == State(Some(c), Awaiting(0), [Fate(false, None)], map[])
    requires t == State(Some(c.(wire := [Return(0), Confirm(0, false)])), Awaiting(0), [Fate(true, Some(false))], map[])
    requires c == FRESH_CHAN.(sent := {0}) && Runs(t, rest) && After(t, rest) == end
    ensures var steps := [BrokerReturn(0), BrokerConfirm(0, false)] + rest; Runs(s, steps) && After(s, steps) == end
  {
    var m := State(Some(c.(wire := [Return(0)])), Awaiting(0), [Fate(true, None)], map[]);
    assert [] + [Return(0)] == [Return(0)] && [Return(0)] + [Confirm(0, false)] == [Return(0), Confirm(0, false)];
    assert s.broker[0 := Fate(true, None)] == m.broker && m.broker[0 := Fate(true, Some(false))] == t.broker;
    RunsOne(m, BrokerConfirm(0, false), t, rest, end);
    RunsOne(s, BrokerReturn(0), m, [BrokerConfirm(0, false)] + rest, end);
    assert [BrokerReturn(0), BrokerConfirm(0, false)] + rest == [BrokerReturn(0)] + ([BrokerConfirm(0, false)] + rest);
  }
}
