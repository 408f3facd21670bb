/** The verifier's cache of the IdP's published keys: a timed state machine on a
    clock that never goes back. Times are nanoseconds. */
module KeyCache {
  import opened Prelude

  const SECOND := 1_000_000_000
  const JWKS_REFRESH_INTERVAL := 10 * SECOND
  const JWKS_MAX_AGE := 300 * SECOND

  /** A published key (section 4 of RFC 7517). `key` is None when the material does
      not make a decoding key. */
  datatype Jwk = Jwk(kid: Option<string>, key: Option<string>)

  datatype Cached = Cached(keys: seq<Jwk>, fetched: nat)

  datatype KeyError = FetchFailed | Unusable | UnknownKey

  /** The first key with that id (section 4.5 of RFC 7517). */
  function Find(keys: seq<Jwk>, kid: string): (r: Option<Jwk>)
    ensures r.None? <==> forall i | 0 <= i < |keys| :: keys[i].kid != Some(kid)
    ensures r.Some? ==> exists i | 0 <= i < |keys| ::
              keys[i] == r.value && r.value.kid == Some(kid) && forall j | 0 <= j < i :: keys[j].kid != Some(kid)
  {
    if keys == [] then None
    else if keys[0].kid == Some(kid) then Some(keys[0])
    else
      var r := Find(keys[1..], kid);
      assert forall i | 0 < i < |keys| :: keys[i] == keys[1..][i - 1];
      assert r.Some? ==>
          exists i | 0 <= i < |keys[1..]| :: keys[1..][i] == r.value && keys[i + 1] == r.value
            && forall j | 0 <= j < i :: keys[1..][j].kid != Some(kid) && keys[j + 1].kid != Some(kid);
      r
  }

  predicate Knows(keys: seq<Jwk>, kid: string) { exists i | 0 <= i < |keys| :: keys[i].kid == Some(kid) }

  /** Whether a call at time `now` goes to the IdP. */
  predicate NeedsFetch(c: Option<Cached>, refresh: bool, now: nat) {
    match c
    case None => true
    case Some(k) =>
      now - k.fetched >= JWKS_MAX_AGE || (refresh && now - k.fetched >= JWKS_REFRESH_INTERVAL)
  }

  /** The fetches that went through are never closer than the refresh interval. */
  ghost predicate Spaced(times: seq<nat>) {
    forall i | 0 <= i < |times| - 1 :: times[i + 1] - times[i] >= JWKS_REFRESH_INTERVAL
  }

  /** What a call asks and what the clock and the IdP make of it: the lock is taken
      at `now`, and a fetch, if there is one, is answered at `done`. */
  datatype Call = Call(kid: string, refresh: bool, now: nat, done: nat, reply: Option<seq<Jwk>>)

  /** A set fetched at that time was fetched by this very call, or was there when
      the call began and younger than `age`. */
  predicate Within(fetched: nat, c: Call, age: int) {
    fetched == c.done || 0 <= c.now - fetched < age
  }

  class ActorJwtVerifier {
    var keys: Option<Cached>
    /** When each successful fetch was answered, and the latest time seen. */
    ghost var fetches: seq<nat>
    ghost var clock: nat

    constructor ()
      ensures Valid() && fetches == [] && keys.None? && clock == 0
    {
      keys, fetches, clock := None, [], 0;
    }

    ghost predicate Valid()
      reads this
    {
      && Spaced(fetches)
      && (keys.None? <==> fetches == [])
      && (keys.Some? ==> keys.value.fetched == fetches[|fetches| - 1] <= clock)
    }

    /** One lookup. A set under five minutes old is used as it is, or under ten seconds
        if the lookup refreshes; otherwise the IdP is asked. Whatever key comes back is
        the first with that id in a set that was fetched just now or less than
        JWKS_MAX_AGE ago; a refreshing lookup that finds nothing has looked in a set
        fetched just now or less than JWKS_REFRESH_INTERVAL ago; and material is called
        unusable only if it is. */
    method Key(c: Call) returns (r: Result<Option<string>, KeyError>)
      requires Valid() && clock <= c.now <= c.done
      modifies this
      ensures Valid() && clock == c.done
      ensures var fetch := NeedsFetch(old(keys), c.refresh, c.now);
        && fetches == (if fetch && c.reply.Some? then old(fetches) + [c.done] else old(fetches))
        && keys == (if fetch && c.reply.Some? then Some(Cached(c.reply.value, c.done)) else old(keys))
        && (r == Err(FetchFailed) <==> fetch && c.reply.None?)
      ensures r.Ok? ==> keys.Some? && (r.value.Some? <==> Knows(keys.value.keys, c.kid))
      ensures r.Ok? && r.value.Some? ==>
                && Find(keys.value.keys, c.kid) == Some(Jwk(Some(c.kid), r.value))
                && Within(keys.value.fetched, c, JWKS_MAX_AGE)
      ensures r.Ok? && r.value.None? && c.refresh ==> Within(keys.value.fetched, c, JWKS_REFRESH_INTERVAL)
      ensures r == Err(Unusable) <==>
                && r != Err(FetchFailed) && keys.Some?
                && Find(keys.value.keys, c.kid).Some? && Find(keys.value.keys, c.kid).value.key.None?
      ensures r != Err(UnknownKey)
      ensures !c.refresh && old(keys).Some? && c.now - old(keys).value.fetched < 300 * SECOND ==>
                keys == old(keys) && fetches == old(fetches)
      ensures old(keys).Some? && c.now - old(keys).value.fetched < 10 * SECOND ==>
                keys == old(keys) && fetches == old(fetches)
      ensures old(keys).None? || c.now - old(keys).value.fetched >= 300 * SECOND
              || (c.refresh && c.now - old(keys).value.fetched >= 10 * SECOND) ==>
                if c.reply.Some? then keys == Some(Cached(c.reply.value, c.done)) else r == Err(FetchFailed)
    {
      clock := c.done;
      var stale := keys.None? || c.now - keys.value.fetched >= JWKS_REFRESH_INTERVAL;
      var expired := keys.Some? && c.now - keys.value.fetched >= JWKS_MAX_AGE;
      if keys.None? || expired || (c.refresh && stale) {
        if c.reply.None? {
          return Err(FetchFailed);
        }
        keys := Some(Cached(c.reply.value, c.done));
        fetches := fetches + [c.done];
      }
      var jwk := Find(keys.value.keys, c.kid);
      match jwk {
        case None => r := Ok(None);
        case Some(j) =>
          r := if j.key.Some? then Ok(j.key) else Err(Unusable);
      }
    }

    /** Lookups of other requests, which may run while a verify waits for the lock. */
    method Others(calls: seq<Call>)
      requires Valid() && InTime(clock, calls)
      modifies this
      ensures Valid() && clock == After(old(clock), calls) && old(fetches) <= fetches
    {
      var i := 0;
      while i < |calls|
        invariant 0 <= i <= |calls| && Valid() && InTime(clock, calls[i..])
        invariant After(clock, calls[i..]) == After(old(clock), calls) && old(fetches) <= fetches
      {
        assert calls[i..][1..] == calls[i + 1..];
        var _ := Key(calls[i]);
        i := i + 1;
      }
    }

    /** The key a token's verification uses: one lookup, and when the id is unknown
        one more that refreshes, with anything at all going on in between. The key is
        from a set that the answering lookup fetched, or found and that was then
        younger than JWKS_MAX_AGE. It says "unknown key" only of a kid that is absent
        from a set fetched just now or less than JWKS_REFRESH_INTERVAL ago. */
    method KeyFor(first: Call, between: seq<Call>, second: Call) returns (r: Result<string, KeyError>)
      requires Valid() && first.kid == second.kid && !first.refresh && second.refresh
      requires InTime(clock, [first]) && InTime(first.done, between) && InTime(After(first.done, between), [second])
      modifies this
      ensures Valid() && old(fetches) <= fetches
      ensures r.Ok? ==> keys.Some? && Find(keys.value.keys, first.kid) == Some(Jwk(Some(first.kid), Some(r.value)))
      ensures r.Ok? ==>
                || (clock == first.done && Within(keys.value.fetched, first, JWKS_MAX_AGE))
                || (clock == second.done && Within(keys.value.fetched, second, JWKS_MAX_AGE))
      ensures r == Err(UnknownKey) ==>
                && keys.Some? && !Knows(keys.value.keys, first.kid) && clock == second.done
                && Within(keys.value.fetched, second, JWKS_REFRESH_INTERVAL)
      ensures r == Err(Unusable) ==>
                && keys.Some?
                && Find(keys.value.keys, first.kid).Some? && Find(keys.value.keys, first.kid).value.key.None?
      ensures r == Err(FetchFailed) ==>
                || (NeedsFetch(old(keys), false, first.now) && first.reply.None?)
                || (clock == second.done && second.reply.None?)
    {
      hide Find, Spaced;
      var found := Key(first);
      match found
      case Err(e) => r := Err(e);
      case Ok(Some(key)) => r := Ok(key);
      case Ok(None) =>
        Others(between);
        var again := Key(second);
        match again
        case Err(e) => r := Err(e);
        case Ok(Some(key)) => r := Ok(key);
        case Ok(None) => r := Err(UnknownKey);
    }
  }

  /** The calls follow one another on a clock that reads `t` before the first. */
  ghost predicate InTime(t: nat, calls: seq<Call>)
    decreases calls
  {
    calls != [] ==> t <= calls[0].now <= calls[0].done && InTime(calls[0].done, calls[1..])
  }

  function After(t: nat, calls: seq<Call>): nat
    decreases calls
  {
    if calls == [] then t else After(calls[0].done, calls[1..])
  }

  lemma {:induction false} SpacedApart(times: seq<nat>, i: nat, j: nat)
    requires Spaced(times) && i <= j < |times|
    ensures times[j] - times[i] >= (j - i) * JWKS_REFRESH_INTERVAL
    decreases j
  {
    if i < j {
      SpacedApart(times, i, j - 1);
    }
  }

  /** Any window of length t sees at most t / 10 s + 1 successful fetches. */
  lemma FetchRate(times: seq<nat>, i: nat, j: nat, start: nat, t: nat)
    requires Spaced(times) && i <= j < |times| && start <= times[i] && times[j] <= start + t
    ensures j - i + 1 <= t / JWKS_REFRESH_INTERVAL + 1
  {
    SpacedApart(times, i, j);
  }
}
