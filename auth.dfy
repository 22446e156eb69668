/** The server's cached upstream access token (an OAuth 2.0 client-credentials
    grant, section 4.4 of RFC 6749) and the bearer header that carries it
    (section 2.1 of RFC 6750). The clock is a parameter in milliseconds. */
module Auth {
  import opened Common

  /** What the token endpoint answers: `access_token`, `expires_in` in seconds
      (section 5.1 of RFC 6749), and the clock reading when the answer arrived. */
  datatype ExchangeReply = Granted(accessToken: string, expiresIn: nat, at: nat) | Refused

  /** The two module-level variables: the held token and its expiry (both `null` at start). */
  datatype Cache = Cache(token: Option<string>, expiresAt: Option<nat>)

  const EMPTY: Cache := Cache(None, None)

  /** `Date.now() >= tokenExpiresAt`; a `null` expiry compares as 0, so it has always passed. */
  predicate Expired(expiresAt: Option<nat>, now: nat): (e: bool)
    ensures expiresAt.None? ==> e
    ensures expiresAt.Some? ==> (e <==> expiresAt.value <= now)
  {
    match expiresAt
    case None => now >= 0
    case Some(e) => now >= e
  }

  /** The refresh condition of `getAccessToken`: the empty cache always needs one, and
      a cache that needs none holds a non-empty token with an expiry still ahead. */
  predicate NeedsRefresh(c: Cache, now: nat): (b: bool)
    ensures c == EMPTY ==> b
    ensures !b <==> c.token.Some? && c.token.value != "" && c.expiresAt.Some? && now < c.expiresAt.value
  {
    !Truthy(c.token) || Expired(c.expiresAt, now)
  }

  /** One call of `getAccessToken`: the new cache, what the call returns
      (or that it threw), and whether a credential exchange was made. */
  datatype Step = Step(cache: Cache, result: Result<string>, exchanged: bool)

  /** The cache after a successful exchange. */
  function Store(reply: ExchangeReply): (c: Cache)
    requires reply.Granted?
    ensures c.token == Some(reply.accessToken)
    ensures c.expiresAt == Some(reply.at + reply.expiresIn * 1000)
  {
    Cache(Some(reply.accessToken), Some(reply.at + reply.expiresIn * 1000))
  }

  /** `getAccessToken` at clock reading `now`; `reply` is what the exchange would answer. */
  function Get(c: Cache, now: nat, reply: ExchangeReply): (s: Step)
    ensures s.exchanged <==> NeedsRefresh(c, now)
    ensures !s.exchanged ==> s.cache == c && s.result == Ok(c.token.value)
    ensures s.exchanged && reply.Granted? ==> s.cache == Store(reply) && s.result == Ok(reply.accessToken)
    ensures s.exchanged && reply.Refused? ==> s.cache == c && s.result == Failed
    ensures s.result.Ok? ==> s.cache.token == Some(s.result.value)
  {
    if NeedsRefresh(c, now) then
      match reply
      case Granted(_, _, _) => Step(Store(reply), Ok(reply.accessToken), true)
      case Refused => Step(c, Failed, true)
    else
      Step(c, Ok(c.token.value), false)
  }

  /** One call of `getAccessToken`: its clock reading and the exchange's answer, if one is made. */
  datatype Call = Call(now: nat, reply: ExchangeReply)

  /** The cache in force before call `k` of `calls`, starting from `c`. */
  function CacheAt(c: Cache, calls: seq<Call>, k: nat): Cache
    requires k <= |calls|
  {
    if k == 0 then c else Get(CacheAt(c, calls, k - 1), calls[k - 1].now, calls[k - 1].reply).cache
  }

  /** The steps of a sequence of calls made one after another. */
  function Run(c: Cache, calls: seq<Call>): (steps: seq<Step>)
    ensures |steps| == |calls|
    decreases |calls|
  {
    if calls == [] then []
    else
      var s := Get(c, calls[0].now, calls[0].reply);
      [s] + Run(s.cache, calls[1..])
  }

  /** Number of credential exchanges among `steps`. */
  function Exchanges(steps: seq<Step>): (n: nat)
    ensures n <= |steps|
  {
    if steps == [] then 0 else (if steps[0].exchanged then 1 else 0) + Exchanges(steps[1..])
  }

  /** Step `k` of a run is `Get` on the cache left by the steps before it. */
  lemma {:induction false} RunAt(c: Cache, calls: seq<Call>, k: nat)
    requires k < |calls|
    ensures Run(c, calls)[k] == Get(CacheAt(c, calls, k), calls[k].now, calls[k].reply)
    decreases k
  {
    if k > 0 {
      var s := Get(c, calls[0].now, calls[0].reply);
      RunAt(s.cache, calls[1..], k - 1);
      CacheAtShift(c, calls, k);
    }
  }

  /** The cache before call `k` equals the cache before call `k - 1` of the remaining calls. */
  lemma {:induction false} CacheAtShift(c: Cache, calls: seq<Call>, k: nat)
    requires 0 < k <= |calls|
    ensures CacheAt(c, calls, k) == CacheAt(Get(c, calls[0].now, calls[0].reply).cache, calls[1..], k - 1)
  {
    if k > 1 {
      CacheAtShift(c, calls, k - 1);
    }
  }

  /** The first call on an empty cache makes exactly one exchange. */
  lemma FirstCallExchangesOnce(now: nat, reply: ExchangeReply)
    ensures Exchanges(Run(EMPTY, [Call(now, reply)])) == 1
  {
    assert Run(EMPTY, [Call(now, reply)])[1..] == [];
  }

  /** A call that throws leaves the cache as it was. */
  lemma FailedKeepsCache(c: Cache, calls: seq<Call>, m: nat)
    requires m < |calls| && Run(c, calls)[m].result.Failed?
    ensures CacheAt(c, calls, m + 1) == CacheAt(c, calls, m)
  {
    RunAt(c, calls, m);
  }

  /** A stretch of calls that all throw leaves the cache as it was before them. */
  lemma {:induction false} FailuresKeepCache(c: Cache, calls: seq<Call>, from: nat, k: nat)
    requires from <= k <= |calls|
    requires forall m :: from <= m < k ==> Run(c, calls)[m].result.Failed?
    ensures CacheAt(c, calls, k) == CacheAt(c, calls, from)
    decreases k - from
  {
    if from < k {
      FailuresKeepCache(c, calls, from, k - 1);
      FailedKeepsCache(c, calls, k - 1);
    }
  }

  /** A call that makes no exchange returns the same token as the last successful
      call before it, whatever refused exchanges came in between: the returned
      token changes only where a refresh happened. */
  lemma {:induction false} TokenChangesOnlyOnRefresh(c: Cache, calls: seq<Call>, i: nat, k: nat)
    requires i < k < |calls|
    requires Run(c, calls)[i].result.Ok?
    requires forall m :: i < m < k ==> Run(c, calls)[m].result.Failed?
    requires !Run(c, calls)[k].exchanged
    ensures Run(c, calls)[k].result == Run(c, calls)[i].result
  {
    RunAt(c, calls, i);
    FailuresKeepCache(c, calls, i + 1, k);
    RunAt(c, calls, k);
  }

  /** After a successful exchange at step `i` that yields a non-empty token,
      every later call up to `j` made before the token's expiry reuses that
      token with no exchange. */
  lemma {:induction false} ReusedBeforeExpiry(c: Cache, calls: seq<Call>, i: nat, j: nat)
    requires i < j < |calls|
    requires Run(c, calls)[i].exchanged && calls[i].reply.Granted?
    requires calls[i].reply.accessToken != ""
    requires forall m :: i < m <= j ==> calls[m].now < Store(calls[i].reply).expiresAt.value
    ensures !Run(c, calls)[j].exchanged
    ensures Run(c, calls)[j].result == Ok(calls[i].reply.accessToken)
    ensures CacheAt(c, calls, j + 1) == Store(calls[i].reply)
  {
    var g := calls[i].reply;
    RunAt(c, calls, i);
    if j > i + 1 {
      ReusedBeforeExpiry(c, calls, i, j - 1);
    }
    assert CacheAt(c, calls, j) == Store(g);
    RunAt(c, calls, j);
  }

  /** No exchange anywhere in `steps` gives an exchange count of zero. */
  lemma {:induction false} NoExchanges(steps: seq<Step>)
    requires forall k :: 0 <= k < |steps| ==> !steps[k].exchanged
    ensures Exchanges(steps) == 0
  {
    if steps != [] {
      NoExchanges(steps[1..]);
    }
  }

  /** Starting empty, if the first exchange grants a non-empty token and every
      later call comes before its expiry, the whole run makes exactly one
      exchange and every call returns that token. */
  lemma {:induction false} SingleExchangeWithinLifetime(calls: seq<Call>)
    requires calls != [] && calls[0].reply.Granted? && calls[0].reply.accessToken != ""
    requires forall m :: 0 < m < |calls| ==> calls[m].now < Store(calls[0].reply).expiresAt.value
    ensures Exchanges(Run(EMPTY, calls)) == 1
    ensures forall m :: 0 <= m < |calls| ==> Run(EMPTY, calls)[m].result == Ok(calls[0].reply.accessToken)
  {
    var steps := Run(EMPTY, calls);
    RunAt(EMPTY, calls, 0);
    forall m | 0 < m < |calls|
      ensures !steps[m].exchanged && steps[m].result == Ok(calls[0].reply.accessToken)
    {
      ReusedBeforeExpiry(EMPTY, calls, 0, m);
    }
    var s := Get(EMPTY, calls[0].now, calls[0].reply);
    assert steps[1..] == Run(s.cache, calls[1..]);
    NoExchanges(steps[1..]);
  }

  /** The `Authorization` header value for a bearer token. */
  function BearerHeader(token: string): (h: string)
    ensures |h| == |"Bearer "| + |token|
    ensures h[..7] == "Bearer " && h[7..] == token
  {
    "Bearer " + token
  }

  /** The token of an `Authorization` header in the bearer scheme, if it is one. */
  function BearerToken(header: string): Option<string> {
    if |header| >= 7 && header[..7] == "Bearer " then Some(header[7..]) else None
  }

  /** The header carries the token unchanged. */
  lemma BearerRoundTrip(token: string)
    ensures BearerToken(BearerHeader(token)) == Some(token)
  {
    assert BearerHeader(token)[7..] == token;
  }

  /** The module-level token state of the server, with a count of the
      credential exchanges made so far. */
  class TokenCache {
    var accessToken: Option<string>
    var tokenExpiresAt: Option<nat>
    var exchanges: nat

    function State(): Cache
      reads this
    {
      Cache(accessToken, tokenExpiresAt)
    }

    constructor ()
      ensures State() == EMPTY && exchanges == 0
    {
      accessToken := None;
      tokenExpiresAt := None;
      exchanges := 0;
    }

    /** `authenticate`: one exchange; on success the token and its expiry are replaced. */
    method Authenticate(reply: ExchangeReply) returns (ok: bool)
      modifies this
      ensures exchanges == old(exchanges) + 1
      ensures ok <==> reply.Granted?
      ensures State() == if ok then Store(reply) else old(State())
    {
      exchanges := exchanges + 1;
      if reply.Refused? {
        return false;
      }
      accessToken := Some(reply.accessToken);
      tokenExpiresAt := Some(reply.at + reply.expiresIn * 1000);
      return true;
    }

    /** `getAccessToken` at clock reading `now`. */
    method GetAccessToken(now: nat, reply: ExchangeReply) returns (r: Result<string>)
      modifies this
      ensures var s := Get(old(State()), now, reply);
        State() == s.cache && r == s.result &&
        exchanges == old(exchanges) + (if s.exchanged then 1 else 0)
    {
      if !Truthy(accessToken) || Expired(tokenExpiresAt, now) {
        var ok := Authenticate(reply);
        if !ok {
          return Failed;
        }
      }
      return Ok(accessToken.value);
    }
  }
}
