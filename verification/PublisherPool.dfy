/** The bounded pool of publisher lanes: who holds which lane, and how the pool closes. */
module PublisherPool {
  import opened Prelude

  type Lane = nat
  type Caller = nat

  datatype Closer = Running | Draining | Closing(next: nat) | Closed

  /**
   `lanes` lanes numbered from zero; `available` is the channel of free lanes, of capacity `lanes`;
   `active` the wait group. `closes` is history: the lanes closed so far.
   */
  datatype Pool = Pool(lanes: nat, available: seq<Lane>, holders: map<Caller, Lane>, waiting: set<Caller>, returned: set<Caller>,
                       active: nat, closed: bool, closer: Closer, closes: seq<Lane>)

  datatype Step = Enter(caller: Caller)
                | Take(caller: Caller)
                | GiveUp(caller: Caller)
                | Put(caller: Caller)
                | Leave(caller: Caller)
                | BeginClose
                | Drained
                | CloseNext

  const MAX_CONCURRENCY := 64

  function Numbers(n: nat): (s: seq<Lane>)
    ensures |s| == n && forall i :: 0 <= i < n ==> s[i] == i
  {
    seq(n, i => i)
  }

  /** None when the concurrency is out of range. */
  function NewPool(concurrency: int): Option<Pool> {
    if concurrency <= 0 || concurrency > MAX_CONCURRENCY then None
    else Some(Pool(concurrency, Numbers(concurrency), map[], {}, {}, 0, false, Running, []))
  }

  predicate Present(p: Pool, c: Caller) {
    c in p.waiting || c in p.holders || c in p.returned
  }

  predicate Enabled(p: Pool, step: Step) {
    match step
    case Enter(c) => !Present(p, c)
    case Take(c) => c in p.waiting && p.available != []
    case GiveUp(c) => c in p.waiting
    case Put(c) => c in p.holders && |p.available| < p.lanes
    case Leave(c) => c in p.returned && p.active > 0
    case BeginClose => p.closer == Running
    case Drained => p.closer == Draining && p.active == 0
    case CloseNext => p.closer.Closing?
  }

  function Do(p: Pool, step: Step): Pool
    requires Enabled(p, step)
  {
    match step
    case Enter(c) => if p.closed then p else p.(active := p.active + 1, waiting := p.waiting + {c})
    case Take(c) => p.(waiting := p.waiting - {c}, available := p.available[1..], holders := p.holders[c := p.available[0]])
    case GiveUp(c) => p.(waiting := p.waiting - {c}, active := if p.active > 0 then p.active - 1 else 0)
    case Put(c) => p.(available := p.available + [p.holders[c]], holders := p.holders - {c}, returned := p.returned + {c})
    case Leave(c) => p.(returned := p.returned - {c}, active := p.active - 1)
    case BeginClose => p.(closed := true, closer := Draining)
    case Drained => p.(closer := Closing(0))
    case CloseNext =>
      if p.closer.next < p.lanes
      then p.(closes := p.closes + [p.closer.next], closer := Closing(p.closer.next + 1))
      else p.(closer := Closed)
  }

  // ---- The pool object ----

  /** What the pool object itself holds; who holds which lane is known only to the callers. */
  datatype Core = Core(lanes: nat, available: seq<Lane>, active: nat, closed: bool, closes: seq<Lane>)

  function Counted(core: Core): Core {
    core.(active := core.active + 1)
  }

  function Uncounted(core: Core): Core {
    core.(active := if core.active > 0 then core.active - 1 else 0)
  }

  function Taken(core: Core): Core
    requires core.available != []
  {
    core.(available := core.available[1..])
  }

  function PutBack(core: Core, lane: Lane): Core {
    core.(available := core.available + [lane])
  }

  /** What a caller does to the objects it shares with Close, in order. */
  datatype Effect = LaneBack(lane: Lane) | LeftGroup

  class Publisher {
    const lanes: nat
    var available: seq<Lane>
    var active: nat
    var closed: bool
    var closes: seq<Lane>
    var effects: seq<Effect>

    function View(): Core
      reads this
    {
      Core(lanes, available, active, closed, closes)
    }

    constructor (concurrency: int)
      requires NewPool(concurrency).Some?
      ensures View() == CoreOf(NewPool(concurrency).value) && effects == []
    {
      lanes := concurrency;
      available, active, closed, closes, effects := Numbers(concurrency), 0, false, [], [];
    }

    /** The locked part of acquire. */
    method Register(contextDone: bool) returns (admitted: bool)
      modifies this`active
      ensures admitted <==> !contextDone && !closed
      ensures View() == if admitted then Counted(old(View())) else old(View())
      ensures active == old(active) + (if admitted then 1 else 0)
    {
      if contextDone || closed {
        return false;
      }
      active := active + 1;
      return true;
    }

    /** The select of acquire: it takes the lane that came free first, or leaves because the context is done; with both it may do either. */
    method Await(contextDone: bool, receives: bool) returns (lane: Option<Lane>)
      requires if receives then available != [] else contextDone
      requires active > 0
      modifies this`active, this`available
      ensures View() == if receives then Taken(old(View())) else Uncounted(old(View()))
      ensures if receives then lane == Some(old(available)[0]) && available == old(available)[1..] && active == old(active)
              else lane == None && available == old(available) && active == old(active) - 1
    {
      if receives {
        lane := Some(available[0]);
        available := available[1..];
        return;
      }
      active := active - 1;
      return None;
    }

    /** The lane is back before the caller leaves the wait group, so Close finds every lane at rest. */
    method Release(lane: Lane)
      requires |available| < lanes && active > 0
      modifies this`active, this`available, this`effects
      ensures View() == Uncounted(PutBack(old(View()), lane))
      ensures available == old(available) + [lane] && active == old(active) - 1
      ensures effects == old(effects) + [LaneBack(lane), LeftGroup]
    {
      available := available + [lane];
      effects := effects + [LaneBack(lane)];
      active := active - 1;
      effects := effects + [LeftGroup];
    }

    /** Runs once, after every acquired lane has come back. */
    method CloseLanes()
      requires closed && active == 0 && closes == []
      modifies this`closes
      ensures View() == old(View()).(closes := Numbers(lanes))
      ensures |closes| == lanes && forall i :: 0 <= i < lanes ==> closes[i] == i
    {
      var i := 0;
      while i < lanes
        invariant 0 <= i <= lanes && closes == Numbers(i)
      {
        closes := closes + [i];
        i := i + 1;
        assert closes == Numbers(i);
      }
    }
  }

  function CoreOf(p: Pool): Core {
    Core(p.lanes, p.available, p.active, p.closed, p.closes)
  }

  /** Each step of the machine does to the pool what a method of the object does; release is the two steps Put and Leave. */
  lemma StepsAreMethods(p: Pool, step: Step)
    requires Enabled(p, step)
    ensures CoreOf(Do(p, step)) ==
      match step
      case Enter(_) => if p.closed then CoreOf(p) else Counted(CoreOf(p))
      case Take(_) => Taken(CoreOf(p))
      case GiveUp(_) => Uncounted(CoreOf(p))
      case Put(c) => PutBack(CoreOf(p), p.holders[c])
      case Leave(_) => Uncounted(CoreOf(p))
      case BeginClose => CoreOf(p).(closed := true)
      case Drained => CoreOf(p)
      case CloseNext => if p.closer.next < p.lanes then CoreOf(p).(closes := p.closes + [p.closer.next]) else CoreOf(p)
  {
  }

  /** A release of a held lane, seen as its two steps, is the release of the object. */
  lemma ReleaseIsPutThenLeave(p: Pool, c: Caller)
    requires Enabled(p, Put(c)) && p.active > 0
    ensures Enabled(Do(p, Put(c)), Leave(c))
    ensures CoreOf(Do(Do(p, Put(c)), Leave(c))) == Uncounted(PutBack(CoreOf(p), p.holders[c]))
  {
  }

  // ---- The invariant ----

  predicate Held(p: Pool, l: Lane) {
    exists c <- p.holders :: p.holders[c] == l
  }

  predicate Conserved(p: Pool) {
    && Distinct(p.available)
    && (forall l <- p.available :: l < p.lanes)
    && (forall c <- p.holders :: p.holders[c] < p.lanes && p.holders[c] !in p.available)
    && (forall c, d :: c in p.holders && d in p.holders && p.holders[c] == p.holders[d] ==> c == d)
    && (forall l :: 0 <= l < p.lanes ==> l in p.available || Held(p, l))
  }

  function Size(s: set<Caller>): nat {
    |s|
  }

  predicate GroupOk(p: Pool) {
    && (forall c <- p.waiting :: c !in p.holders && c !in p.returned)
    && (forall c <- p.holders :: c !in p.returned)
    && p.active == Size(p.waiting) + Size(p.holders.Keys) + Size(p.returned)
  }

  predicate ClosingOk(p: Pool) {
    && (p.closed <==> p.closer != Running)
    && (p.closer.Closing? || p.closer.Closed? ==> p.waiting == {} && p.holders == map[] && p.returned == {})
    && p.closes == Numbers(match p.closer case Closing(next) => next case Closed => p.lanes case _ => 0)
    && (p.closer.Closing? ==> p.closer.next <= p.lanes)
  }

  predicate Inv(p: Pool) {
    Conserved(p) && GroupOk(p) && ClosingOk(p)
  }

  lemma MembersOf<T>(s: seq<T>)
    requires s != []
    ensures forall x :: x in s <==> x == s[0] || x in s[1..]
  {
  }

  lemma TakeConserves(p: Pool, c: Caller)
    requires Conserved(p) && Enabled(p, Take(c)) && c !in p.holders
    ensures Conserved(Do(p, Take(c)))
  {
    var q := Do(p, Take(c));
    MembersOf(p.available);
    assert q.holders[c] == p.available[0] && p.available[0] !in p.available[1..];
    forall l | 0 <= l < q.lanes
      ensures l in q.available || Held(q, l)
    {
      if Held(p, l) {
        var d :| d in p.holders && p.holders[d] == l;
        assert d in q.holders && q.holders[d] == l;
      }
    }
  }

  lemma PutConserves(p: Pool, c: Caller)
    requires Conserved(p) && Enabled(p, Put(c))
    ensures Conserved(Do(p, Put(c)))
  {
    var q := Do(p, Put(c));
    forall l | 0 <= l < q.lanes
      ensures l in q.available || Held(q, l)
    {
      if Held(p, l) && l != p.holders[c] {
        var d :| d in p.holders && p.holders[d] == l;
        assert d in q.holders && q.holders[d] == l;
      }
    }
  }

  lemma StepConserves(p: Pool, step: Step)
    requires Conserved(p) && GroupOk(p) && Enabled(p, step)
    ensures Conserved(Do(p, step))
  {
    match step
    case Take(c) => TakeConserves(p, c);
    case Put(c) => PutConserves(p, c);
    case _ =>
      var q := Do(p, step);
      forall l | 0 <= l < q.lanes
        ensures l in q.available || Held(q, l)
      {
        assert l in p.available || Held(p, l);
      }
  }

  lemma Grown(s: set<Caller>, x: Caller)
    requires x !in s
    ensures Size(s + {x}) == Size(s) + 1
  {
  }

  lemma Shrunk(s: set<Caller>, x: Caller)
    requires x in s
    ensures Size(s - {x}) == Size(s) - 1
  {
  }

  lemma StepCounts(p: Pool, step: Step)
    requires GroupOk(p) && Enabled(p, step)
    ensures GroupOk(Do(p, step))
  {
    hide Distinct, Size;
    match step
    case Enter(c) =>
      Grown(p.waiting, c);
    case Take(c) =>
      assert Do(p, step).holders.Keys == p.holders.Keys + {c};
      Grown(p.holders.Keys, c);
      Shrunk(p.waiting, c);
    case GiveUp(c) =>
      Shrunk(p.waiting, c);
    case Put(c) =>
      assert Do(p, step).holders.Keys == p.holders.Keys - {c};
      Shrunk(p.holders.Keys, c);
      Grown(p.returned, c);
    case Leave(c) =>
      Shrunk(p.returned, c);
    case _ =>
  }

  lemma StepCloses(p: Pool, step: Step)
    requires Inv(p) && Enabled(p, step)
    ensures ClosingOk(Do(p, step))
  {
    var q := Do(p, step);
    if step == CloseNext && p.closer.next < p.lanes {
      assert q.closes == Numbers(p.closer.next + 1);
    }
  }

  predicate Runs(p: Pool, steps: seq<Step>)
    decreases |steps|
  {
    steps != [] ==> Enabled(p, steps[0]) && Runs(Do(p, steps[0]), steps[1..])
  }

  function After(p: Pool, steps: seq<Step>): Pool
    requires Runs(p, steps)
    decreases |steps|
  {
    if steps == [] then p else After(Do(p, steps[0]), steps[1..])
  }

  lemma {:induction false} RunKeeps(p: Pool, steps: seq<Step>)
    requires Inv(p) && Runs(p, steps)
    ensures Inv(After(p, steps)) && After(p, steps).lanes == p.lanes
    decreases |steps|
  {
    if steps != [] {
      StepConserves(p, steps[0]);
      StepCounts(p, steps[0]);
      StepCloses(p, steps[0]);
      hide Conserved, GroupOk, ClosingOk;
      RunKeeps(Do(p, steps[0]), steps[1..]);
    }
  }

  lemma NewPoolOk(concurrency: int)
    requires NewPool(concurrency).Some?
    ensures Inv(NewPool(concurrency).value)
  {
    var p := NewPool(concurrency).value;
    forall l | 0 <= l < p.lanes
      ensures l in p.available
    {
      assert p.available[l] == l;
    }
    assert Numbers(0) == [];
  }

  /** In every run each lane is free or held by exactly one caller, and the wait group counts exactly the callers inside. */
  lemma LanesAreConserved(concurrency: int, steps: seq<Step>, l: Lane)
    requires NewPool(concurrency).Some? && Runs(NewPool(concurrency).value, steps) && l < concurrency
    ensures var p := After(NewPool(concurrency).value, steps);
      && Count(p.available, l) == (if Held(p, l) then 0 else 1)
      && (forall c, d :: c in p.holders && d in p.holders && p.holders[c] == p.holders[d] ==> c == d)
      && p.active == Size(p.waiting) + Size(p.holders.Keys) + Size(p.returned)
  {
    NewPoolOk(concurrency);
    RunKeeps(NewPool(concurrency).value, steps);
    var p := After(NewPool(concurrency).value, steps);
    DistinctCount(p.available, l);
  }

  /** Giving a lane back never waits: there is room in the channel whenever some caller holds a lane. */
  lemma ReleaseNeverBlocks(concurrency: int, steps: seq<Step>, c: Caller)
    requires NewPool(concurrency).Some? && Runs(NewPool(concurrency).value, steps)
    requires c in After(NewPool(concurrency).value, steps).holders
    ensures Enabled(After(NewPool(concurrency).value, steps), Put(c))
  {
    NewPoolOk(concurrency);
    RunKeeps(NewPool(concurrency).value, steps);
    var p := After(NewPool(concurrency).value, steps);
    hide GroupOk, ClosingOk;
    FreeLanes(p, c);
  }

  lemma FreeLanes(p: Pool, c: Caller)
    requires Conserved(p) && c in p.holders
    ensures |p.available| < p.lanes
  {
    var free := set l | l in p.available;
    var others := Range(p.lanes) - {p.holders[c]};
    DistinctSize(p.available);
    assert |others| == p.lanes - 1;
    SubsetSize(free, others) by {
      assert free <= others;
    }
  }

  /** A caller that has put its lane back leaves the wait group without driving it negative. */
  lemma LeaveNeverNegative(concurrency: int, steps: seq<Step>, c: Caller)
    requires NewPool(concurrency).Some? && Runs(NewPool(concurrency).value, steps)
    requires Present(After(NewPool(concurrency).value, steps), c)
    ensures After(NewPool(concurrency).value, steps).active > 0
  {
    NewPoolOk(concurrency);
    RunKeeps(NewPool(concurrency).value, steps);
    var p := After(NewPool(concurrency).value, steps);
    assert c in p.waiting || c in p.holders.Keys || c in p.returned;
  }

  /**
   Once lanes are being closed no caller is inside and none ever enters again, so each lane is closed
   after its last use; when closing is over every lane was closed, once, in order.
   */
  lemma ClosedOnceAfterLastUse(concurrency: int, steps: seq<Step>, later: seq<Step>)
    requires NewPool(concurrency).Some? && Runs(NewPool(concurrency).value, steps)
    requires var p := After(NewPool(concurrency).value, steps); p.closes != [] || p.closer == Closed
    requires Runs(After(NewPool(concurrency).value, steps), later)
    ensures var q := After(After(NewPool(concurrency).value, steps), later);
      && (forall c: Caller :: !Present(q, c))
      && Distinct(q.closes)
      && (q.closer == Closed ==> q.closes == Numbers(concurrency))
  {
    NewPoolOk(concurrency);
    RunKeeps(NewPool(concurrency).value, steps);
    var p := After(NewPool(concurrency).value, steps);
    ClosingStays(p, later);
    RunKeeps(p, later);
  }

  lemma {:induction false} ClosingStays(p: Pool, steps: seq<Step>)
    requires Inv(p) && Runs(p, steps) && (p.closer.Closing? || p.closer.Closed?)
    ensures After(p, steps).closer.Closing? || After(p, steps).closer.Closed?
    decreases |steps|
  {
    if steps != [] {
      RunKeeps(p, steps[..1]);
      assert steps[..1][1..] == [];
      assert After(p, steps[..1]) == Do(p, steps[0]);
      ClosingStays(Do(p, steps[0]), steps[1..]);
    }
  }
}
