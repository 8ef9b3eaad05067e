/** The acceptance of one Chat message: checks, admission, and a confirmed publication, in this order. */
module ChatService {
  import opened Prelude
  import TokenBucket
  import ChatLimiter
  import opened PublisherLane
  import LaneMachine
  import LaneResults

  /** What the service looks at in a message: its id is a version 4 UUID, its text is valid and not too long. */
  datatype Message = Message(session: nat, user: nat, validId: bool, validContent: bool)

  datatype Admission = Unavailable | Denied | Allowed

  /** The call to Redis: it answers, or it fails before the script ran or after. */
  datatype Link = Answers | FailsBefore | FailsAfter

  datatype Refusal = InvalidMessageId | InvalidContent | AdmissionUnavailable | RateLimited | NotPublished(outcome: Option<Outcome>)

  /** `published` is what the publication reported, None when no lane could be had for it. */
  function Acceptance(m: Message, admission: Admission, published: Option<Outcome>): Option<Refusal> {
    if !m.validId then Some(InvalidMessageId)
    else if !m.validContent then Some(InvalidContent)
    else match admission
      case Unavailable => Some(AdmissionUnavailable)
      case Denied => Some(RateLimited)
      case Allowed => if published == Some(Accepted) then None else Some(NotPublished(published))
  }

  /** One request as it meets the service: the keys Redis has dropped by then, how the call to Redis goes, and what the publication reports. */
  datatype Request = Request(m: Message, now: int, evicted: set<TokenBucket.Key>, link: Link, published: Option<Outcome>)

  function CallOf(r: Request): TokenBucket.Call {
    TokenBucket.Call(r.m.session, r.m.user, r.now, r.evicted)
  }

  /** The script runs for a message that passed its checks, unless Redis cannot be reached. */
  predicate Charges(r: Request) {
    r.m.validId && r.m.validContent && r.link != FailsBefore
  }

  function Serve(limits: TokenBucket.Limits, keys: TokenBucket.Store, r: Request): (TokenBucket.Store, Option<Refusal>)
    requires TokenBucket.ValidLimits(limits)
  {
    (if Charges(r) then TokenBucket.Script(limits, keys, CallOf(r)).0 else keys,
     Acceptance(r.m, AdmissionOf(limits, keys, r.m, r.now, r.evicted, r.link), r.published))
  }

  class Service {
    const limiter: ChatLimiter.Keyspace

    constructor (limiter: ChatLimiter.Keyspace)
      ensures this.limiter == limiter
    {
      this.limiter := limiter;
    }

    /** A message that fails its checks costs no tokens; one whose script ran has paid, whatever comes of it. */
    method Accept(m: Message, now: int, evicted: set<TokenBucket.Key>, link: Link, published: Option<Outcome>)
      returns (refusal: Option<Refusal>)
      requires TokenBucket.ValidLimits(limiter.limits)
      requires forall k <- evicted :: k in limiter.keys ==> limiter.keys[k].expiresAt <= now
      modifies limiter
      ensures (limiter.keys, refusal) == Serve(limiter.limits, old(limiter.keys), Request(m, now, evicted, link, published))
      ensures var checked := m.validId && m.validContent;
              var live := old(limiter.keys) - evicted;
              var funded := TokenBucket.Level(limiter.limits, live, TokenBucket.UserKey(m.session, m.user), now) >= 1.0
                            && TokenBucket.Level(limiter.limits, live, TokenBucket.RoomKey(m.session), now) >= 1.0;
              && (refusal == None <==> checked && link == Answers && funded && published == Some(Accepted))
              && (refusal == Some(InvalidMessageId) <==> !m.validId)
              && (refusal == Some(InvalidContent) <==> m.validId && !m.validContent)
              && (refusal == Some(AdmissionUnavailable) <==> checked && link != Answers)
              && (refusal == Some(RateLimited) <==> checked && link == Answers && !funded)
      ensures !m.validId || !m.validContent || link == FailsBefore ==> limiter.keys == old(limiter.keys)
      ensures m.validId && m.validContent && link != FailsBefore ==>
                limiter.keys == TokenBucket.Script(limiter.limits, old(limiter.keys), TokenBucket.Call(m.session, m.user, now, evicted)).0
    {
      if !m.validId {
        return Some(InvalidMessageId);
      }
      if !m.validContent {
        return Some(InvalidContent);
      }
      if link == FailsBefore {
        return Some(AdmissionUnavailable);
      }
      var allowed := limiter.Admit(TokenBucket.Call(m.session, m.user, now, evicted));
      if link == FailsAfter {
        return Some(AdmissionUnavailable);
      }
      if !allowed {
        return Some(RateLimited);
      }
      if published != Some(Accepted) {
        return Some(NotPublished(published));
      }
      return None;
    }
  }

  function AdmissionOf(limits: TokenBucket.Limits, keys: TokenBucket.Store, m: Message, now: int, evicted: set<TokenBucket.Key>, link: Link): Admission
    requires TokenBucket.ValidLimits(limits)
  {
    if link != Answers then Unavailable
    else if TokenBucket.Script(limits, keys, TokenBucket.Call(m.session, m.user, now, evicted)).1 then Allowed
    else Denied
  }

  /**
   A message is accepted exactly when it passes its checks, the limiter lets it through and its publication reports
   success; and then, in every run of the lane that carried it, the broker acked it and did not return it.
   */
  lemma AcceptedMeansConfirmed(m: Message, admission: Admission, steps: seq<LaneMachine.Step>, p: PubId)
    requires LaneMachine.Runs(LaneMachine.INITIAL, steps) && p in LaneMachine.After(LaneMachine.INITIAL, steps).outcomes
    ensures var s := LaneMachine.After(LaneMachine.INITIAL, steps);
      var refusal := Acceptance(m, admission, Some(s.outcomes[p]));
      && (refusal == None <==> m.validId && m.validContent && admission == Allowed && s.outcomes[p] == Accepted)
      && (refusal == None ==> p < |s.broker| && s.broker[p] == LaneMachine.Fate(false, Some(true)))
  {
    LaneResults.OutcomesAreTrue(steps, p);
  }

  // ---- What the rate limit means for accepted messages ----

  function ServeAll(limits: TokenBucket.Limits, keys: TokenBucket.Store, rs: seq<Request>): (refusals: seq<Option<Refusal>>)
    requires TokenBucket.ValidLimits(limits)
    ensures |refusals| == |rs|
    decreases |rs|
  {
    if rs == [] then []
    else
      var (next, refusal) := Serve(limits, keys, rs[0]);
      [refusal] + ServeAll(limits, next, rs[1..])
  }

  /** Redis drops only keys whose time has come, and its time does not run backwards. */
  predicate Legal(limits: TokenBucket.Limits, keys: TokenBucket.Store, from: int, rs: seq<Request>)
    requires TokenBucket.ValidLimits(limits)
    decreases |rs|
  {
    rs != [] ==>
      && from <= rs[0].now
      && (forall k <- rs[0].evicted :: k in keys ==> keys[k].expiresAt <= rs[0].now)
      && Legal(limits, Serve(limits, keys, rs[0]).0, rs[0].now, rs[1..])
  }

  /** How many messages were accepted among those of one user, or of one room. */
  function AcceptedOn(rs: seq<Request>, refusals: seq<Option<Refusal>>, k: TokenBucket.Key): nat
    requires |rs| == |refusals|
    decreases |rs|
  {
    if rs == [] then 0
    else (if refusals[0] == None && TokenBucket.Touches(CallOf(rs[0]), k) then 1 else 0) + AcceptedOn(rs[1..], refusals[1..], k)
  }

  function CallsOf(rs: seq<Request>): seq<TokenBucket.Call>
    decreases |rs|
  {
    if rs == [] then [] else (if Charges(rs[0]) then [CallOf(rs[0])] else []) + CallsOf(rs[1..])
  }

  lemma AcceptedIsCharged(limits: TokenBucket.Limits, keys: TokenBucket.Store, r: Request)
    requires TokenBucket.ValidLimits(limits)
    ensures Serve(limits, keys, r).1 == None ==> Charges(r) && TokenBucket.Script(limits, keys, CallOf(r)).1
  {
    hide TokenBucket.Script;
  }

  /** Every accepted message was a call the script allowed. */
  lemma {:induction false} AcceptedAreAllowed(limits: TokenBucket.Limits, keys: TokenBucket.Store, from: int, rs: seq<Request>, k: TokenBucket.Key)
    requires TokenBucket.ValidLimits(limits) && Legal(limits, keys, from, rs)
    ensures var calls := CallsOf(rs);
      && TokenBucket.LegalEvictions(limits, keys, calls)
      && AcceptedOn(rs, ServeAll(limits, keys, rs), k) <= TokenBucket.AllowedOn(calls, TokenBucket.Decisions(limits, keys, calls), k)
    decreases |rs|
  {
    if rs == [] {
      TokenBucket.NoCalls(limits, keys, k);
    } else {
      var r, rest := rs[0], rs[1..];
      var next := Serve(limits, keys, r).0;
      AcceptedAreAllowed(limits, next, r.now, rest, k);
      AcceptedIsCharged(limits, keys, r);
      var refusals := ServeAll(limits, next, rest);
      assert ServeAll(limits, keys, rs) == [Serve(limits, keys, r).1] + refusals;
      assert ([Serve(limits, keys, r).1] + refusals)[1..] == refusals;
      if Charges(r) {
        assert next == TokenBucket.Script(limits, keys, CallOf(r)).0;
        TokenBucket.FirstCall(limits, keys, CallOf(r), CallsOf(rest), k);
      } else {
        assert next == keys;
        assert CallsOf(rs) == CallsOf(rest);
      }
      hide TokenBucket.Script, TokenBucket.LegalEvictions, TokenBucket.AllowedOn, TokenBucket.Decisions, Serve, Charges, ServeAll, Legal;
    }
  }

  lemma {:induction false} CallsInOrder(limits: TokenBucket.Limits, keys: TokenBucket.Store, from: int, rs: seq<Request>)
    requires TokenBucket.ValidLimits(limits) && Legal(limits, keys, from, rs)
    ensures var calls := CallsOf(rs);
      && TokenBucket.ClockFrom(from, calls)
      && (calls != [] ==> rs != [] && rs[0].now <= calls[0].now && calls[|calls| - 1].now <= rs[|rs| - 1].now)
    decreases |rs|
  {
    hide Serve, Charges;
    if rs != [] {
      CallsInOrder(limits, Serve(limits, keys, rs[0]).0, rs[0].now, rs[1..]);
      var calls := CallsOf(rs[1..]);
      if Charges(rs[0]) {
        assert ([CallOf(rs[0])] + calls)[1..] == calls;
        if calls == [] && |rs| > 1 {
          LastIsLatest(limits, keys, from, rs);
        }
      } else {
        assert [] + calls == calls;
        LaterClock(from, rs[0].now, calls);
      }
    }
  }

  lemma {:induction false} LastIsLatest(limits: TokenBucket.Limits, keys: TokenBucket.Store, from: int, rs: seq<Request>)
    requires TokenBucket.ValidLimits(limits) && Legal(limits, keys, from, rs) && rs != []
    ensures rs[0].now <= rs[|rs| - 1].now
    decreases |rs|
  {
    hide Serve;
    if |rs| > 1 {
      LastIsLatest(limits, Serve(limits, keys, rs[0]).0, rs[0].now, rs[1..]);
    }
  }

  lemma LaterClock(from: int, later: int, calls: seq<TokenBucket.Call>)
    requires from <= later && TokenBucket.ClockFrom(later, calls)
    ensures TokenBucket.ClockFrom(from, calls)
  {
  }

  lemma WindowFrom(limits: TokenBucket.Limits, keys: TokenBucket.Store, from: int, rs: seq<Request>, k: TokenBucket.Key)
    requires TokenBucket.ValidLimits(limits) && TokenBucket.ValidStore(limits, keys, from) && Legal(limits, keys, from, rs) && rs != []
    ensures 1000 * AcceptedOn(rs, ServeAll(limits, keys, rs), k)
         <= 1000 * TokenBucket.LimitOf(limits, k).burst + TokenBucket.LimitOf(limits, k).rate * (rs[|rs| - 1].now - rs[0].now)
  {
    var calls := CallsOf(rs);
    AcceptedAreAllowed(limits, keys, from, rs, k);
    CallsInOrder(limits, keys, from, rs);
    LastIsLatest(limits, keys, from, rs);
    var rate, d := TokenBucket.LimitOf(limits, k).rate, rs[|rs| - 1].now - rs[0].now;
    hide Legal, ServeAll, AcceptedOn, CallsOf;
    if calls != [] {
      TokenBucket.WindowBoundFromStore(limits, keys, from, calls, k);
      LongerWindow(rate, calls[|calls| - 1].now - calls[0].now, d);
    } else {
      LongerWindow(rate, 0, d);
    }
  }

  lemma LongerWindow(rate: nat, a: int, b: int)
    requires a <= b
    ensures rate * a <= rate * b
  {
  }

  lemma {:induction false} PrefixServed(limits: TokenBucket.Limits, keys: TokenBucket.Store, from: int, rs: seq<Request>, j: nat)
    requires TokenBucket.ValidLimits(limits) && Legal(limits, keys, from, rs) && j <= |rs|
    ensures Legal(limits, keys, from, rs[..j]) && ServeAll(limits, keys, rs)[..j] == ServeAll(limits, keys, rs[..j])
    decreases |rs|
  {
    hide Serve;
    if j > 0 {
      PrefixServed(limits, Serve(limits, keys, rs[0]).0, rs[0].now, rs[1..], j - 1);
      assert rs[..j][1..] == rs[1..][..j - 1];
    }
  }

  /**
   In any history of requests, by any users in any sessions, the messages accepted for one user, or for one room, between two
   requests D milliseconds apart number at most burst + rate * D / 1000.
   */
  lemma {:induction false} AcceptedWithinWindow(limits: TokenBucket.Limits, keys: TokenBucket.Store, from: int, rs: seq<Request>, i: nat, j: nat, k: TokenBucket.Key)
    requires TokenBucket.ValidLimits(limits) && TokenBucket.ValidStore(limits, keys, from) && Legal(limits, keys, from, rs) && i < j <= |rs|
    ensures 1000 * AcceptedOn(rs[i..j], ServeAll(limits, keys, rs)[i..j], k)
         <= 1000 * TokenBucket.LimitOf(limits, k).burst + TokenBucket.LimitOf(limits, k).rate * (rs[j - 1].now - rs[i].now)
    decreases i
  {
    hide AcceptedOn, Serve, ServeAll;
    if i == 0 {
      PrefixServed(limits, keys, from, rs, j);
      assert rs[0..j] == rs[..j] && ServeAll(limits, keys, rs)[0..j] == ServeAll(limits, keys, rs)[..j];
      WindowFrom(limits, keys, from, rs[..j], k);
    } else {
      var next := Serve(limits, keys, rs[0]).0;
      ServeKeepsValid(limits, keys, from, rs[0]);
      var rest := ServeAll(limits, next, rs[1..]);
      ServedTail(limits, keys, rs);
      AcceptedWithinWindow(limits, next, rs[0].now, rs[1..], i - 1, j - 1, k);
      assert rs[1..][i - 1..j - 1] == rs[i..j] && rest[i - 1..j - 1] == ServeAll(limits, keys, rs)[i..j];
    }
  }

  lemma ServedTail(limits: TokenBucket.Limits, keys: TokenBucket.Store, rs: seq<Request>)
    requires TokenBucket.ValidLimits(limits) && rs != []
    ensures ServeAll(limits, keys, rs)[1..] == ServeAll(limits, Serve(limits, keys, rs[0]).0, rs[1..])
  {
    hide Serve;
  }

  lemma ServeKeepsValid(limits: TokenBucket.Limits, keys: TokenBucket.Store, now: int, r: Request)
    requires TokenBucket.ValidLimits(limits) && TokenBucket.ValidStore(limits, keys, now) && now <= r.now
    ensures TokenBucket.ValidStore(limits, Serve(limits, keys, r).0, r.now)
  {
    TokenBucket.ScriptKeepsValid(limits, keys, CallOf(r), now);
    hide TokenBucket.Script;
  }
}
