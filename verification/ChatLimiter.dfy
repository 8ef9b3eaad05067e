/** The Redis keyspace of Chat admission and the script's reads and writes on it, in the order the script makes them. */
module ChatLimiter {
  import opened TokenBucket

  class Keyspace {
    const limits: Limits
    var keys: Store

    constructor (limits: Limits)
      requires ValidLimits(limits)
      ensures this.limits == limits && keys == map[]
    {
      this.limits := limits;
      keys := map[];
    }

    /** HSET: a hash written anew has no expiry until PEXPIRE gives it one; an existing one keeps its own. */
    method HSet(k: Key, tokens: real, now: int)
      modifies this
      ensures keys == old(keys)[k := Bucket(tokens, now, if k in old(keys) then old(keys)[k].expiresAt else now)]
    {
      var expiry := if k in keys then keys[k].expiresAt else now;
      keys := keys[k := Bucket(tokens, now, expiry)];
    }

    method PExpire(k: Key, ms: int, now: int)
      requires k in keys
      modifies this
      ensures keys == old(keys)[k := old(keys)[k].(expiresAt := now + ms)]
    {
      keys := keys[k := keys[k].(expiresAt := now + ms)];
    }

    /** Redis drops keys whose time has come. */
    method Expire(gone: set<Key>, now: int)
      requires forall k <- gone :: k in keys ==> keys[k].expiresAt <= now
      modifies this
      ensures keys == old(keys) - gone
    {
      keys := keys - gone;
    }

    /** The script body. Both buckets change together, whether or not the call is allowed. */
    method Allow(session: nat, user: nat, now: int) returns (allowed: bool)
      requires ValidLimits(limits)
      modifies this
      ensures (keys, allowed) == Script(limits, old(keys), Call(session, user, now, {}))
      ensures allowed <==> Level(limits, old(keys), UserKey(session, user), now) >= 1.0 && Level(limits, old(keys), RoomKey(session), now) >= 1.0
    {
      assert keys - {} == keys;
      var userKey, roomKey := UserKey(session, user), RoomKey(session);
      var userTokens := Refill(limits.user, Lookup(keys, userKey), now);
      var roomTokens := Refill(limits.room, Lookup(keys, roomKey), now);
      allowed := false;
      if userTokens >= 1.0 && roomTokens >= 1.0 {
        userTokens := userTokens - 1.0;
        roomTokens := roomTokens - 1.0;
        allowed := true;
      }
      HSet(userKey, userTokens, now);
      HSet(roomKey, roomTokens, now);
      PExpire(userKey, TimeToLive(limits.user), now);
      PExpire(roomKey, TimeToLive(limits.room), now);
      assert keys == Script(limits, old(keys), Call(session, user, now, {})).0;
    }

    /** One call as the store sees it: the keys Redis has dropped by then are gone before the script runs. */
    method Admit(c: Call) returns (allowed: bool)
      requires ValidLimits(limits)
      requires forall k <- c.evicted :: k in keys ==> keys[k].expiresAt <= c.now
      modifies this
      ensures (keys, allowed) == Script(limits, old(keys), c)
      ensures allowed <==> Level(limits, old(keys) - c.evicted, UserKey(c.session, c.user), c.now) >= 1.0
                           && Level(limits, old(keys) - c.evicted, RoomKey(c.session), c.now) >= 1.0
    {
      Expire(c.evicted, c.now);
      assert keys - {} == keys;
      allowed := Allow(c.session, c.user, c.now);
    }
  }
}
