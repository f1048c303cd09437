/** Authentication against Nextcloud: the per-process credential cache, the
    circuit breaker that stops calling a failing server, the retry loop with
    its growing back-off, and the HTTP Basic `Authorization` header of
    section 2 of RFC 7617.

    Time is whole milliseconds of the monotonic clock; the clock reading at
    each step and the server's answer to each attempt are parameters. */
module Sec {

  import opened Wrappers
  import opened Strings
  import opened Encodings

  // ---------------------------------------------------------------------
  // Credentials
  // ---------------------------------------------------------------------

  /** `cache_key`: the user name and password joined by `:`. */
  function CacheKey(username: string, password: string): (r: string)
    ensures |r| == |username| + 1 + |password|
    ensures r[..|username|] == username && r[|username|] == ':' && r[|username| + 1..] == password
  {
    username + ":" + password
  }

  /** Splitting a key at its first `:` gives the user name back when the
      name has no `:` (HTTP Basic cannot carry any other). */
  lemma CacheKeyUser(username: string, password: string)
    requires ':' !in username
    ensures BeforeFirst(CacheKey(username, password), ':') == username
  {
    var k := CacheKey(username, password);
    assert k[..|username|] == username;
    assert k[|username|] == ':';
  }

  /** Such user names never share a cache entry: the key determines the
      credentials. */
  lemma CacheKeyInjective(u1: string, p1: string, u2: string, p2: string)
    requires ':' !in u1 && ':' !in u2
    requires CacheKey(u1, p1) == CacheKey(u2, p2)
    ensures u1 == u2 && p1 == p2
  {
    CacheKeyUser(u1, p1);
    CacheKeyUser(u2, p2);
  }

  /** `gen_basic_auth_header`: `Basic ` and the Base64 text of the UTF-8
      bytes of `username:password`. */
  function BasicAuthHeader(username: string, password: string): (r: string)
    ensures |r| >= 6 && r[..6] == "Basic "
  {
    "Basic " + Base64(Utf8(CacheKey(username, password)))
  }

  /** The receiving side recovers the exact credential bytes. */
  lemma BasicAuthDecodes(username: string, password: string)
    ensures DecodeBase64(BasicAuthHeader(username, password)[6..]) == Some(Utf8(CacheKey(username, password)))
  {
    var payload := Base64(Utf8(CacheKey(username, password)));
    assert BasicAuthHeader(username, password)[6..] == payload;
    Base64RoundTrip(Utf8(CacheKey(username, password)));
  }

  /** The documented example: `user` / `pass` give `Basic dXNlcjpwYXNz`. */
  lemma BasicAuthExample()
    ensures BasicAuthHeader("user", "pass") == "Basic dXNlcjpwYXNz"
  {
    PayloadExample();
    HeaderOf("user", "pass", "dXNlcjpwYXNz");
    PrefixExample();
  }

  lemma HeaderOf(username: string, password: string, payload: string)
    requires Base64(Utf8(CacheKey(username, password))) == payload
    ensures BasicAuthHeader(username, password) == "Basic " + payload
  {
  }

  lemma PrefixExample()
    ensures "Basic " + "dXNlcjpwYXNz" == "Basic dXNlcjpwYXNz"
  {
  }

  lemma PayloadExample()
    ensures Base64(Utf8(CacheKey("user", "pass"))) == "dXNlcjpwYXNz"
  {
    assert CacheKey("user", "pass") == "user:pass";
    Utf8Example();
    Base64Example();
  }

  lemma Utf8Example()
    ensures Utf8("user:pass") == [117, 115, 101, 114, 58, 112, 97, 115, 115]
  {
    Utf8Ascii("user:pass");
  }

  lemma Base64Example()
    ensures Base64([117, 115, 101, 114, 58, 112, 97, 115, 115]) == "dXNlcjpwYXNz"
  {
    var b: seq<Byte> := [117, 115, 101, 114, 58, 112, 97, 115, 115];
    Base64Step(b);
    assert b[3..] == [114, 58, 112, 97, 115, 115];
    Base64Middle();
    FirstGroupExample();
    assert "dXNl" + "cjpwYXNz" == "dXNlcjpwYXNz";
  }

  lemma Base64Middle()
    ensures Base64([114, 58, 112, 97, 115, 115]) == "cjpwYXNz"
  {
    var b: seq<Byte> := [114, 58, 112, 97, 115, 115];
    Base64Step(b);
    assert b[3..] == [97, 115, 115];
    Base64Last();
    MiddleGroupExample();
    assert "cjpw" + "YXNz" == "cjpwYXNz";
  }

  lemma Base64Last()
    ensures Base64([97, 115, 115]) == "YXNz"
  {
    var b: seq<Byte> := [97, 115, 115];
    Base64Step(b);
    assert b[3..] == [];
    LastGroupExample();
  }

  lemma Base64Step(b: seq<Byte>)
    requires |b| >= 3
    ensures Base64(b) == Group3(b[0], b[1], b[2]) + Base64(b[3..])
  {
  }

  lemma FirstGroupExample()
    ensures Group3(117, 115, 101) == "dXNl"
  {
  }

  lemma MiddleGroupExample()
    ensures Group3(114, 58, 112) == "cjpw"
  {
  }

  lemma LastGroupExample()
    ensures Group3(97, 115, 115) == "YXNz"
  {
  }


  // ---------------------------------------------------------------------
  // Circuit breaker
  // ---------------------------------------------------------------------

  /** The settings read from the environment: attempts beyond the first,
      the back-off unit, the failures that open the breaker and how long it
      stays open. */
  datatype Config = Config(maxRetries: int, backoff: int, threshold: int, reset: int)

  /** The defaults: 3 retries, 600 ms back-off unit, 5 failures, 30 s. */
  const Defaults := Config(3, 600, 5, 30_000)

  /** `_circuit_state`: consecutive failures and the time the breaker stays
      open until, 0 when closed. */
  datatype Circuit = Circuit(failures: int, openUntil: int)

  const Closed := Circuit(0, 0)

  /** Requests are refused: an open time is set and not yet reached. */
  predicate Refuses(c: Circuit, now: int) {
    c.openUntil != 0 && now < c.openUntil
  }

  /** `_ensure_circuit_allows_request` when it lets the request through:
      an expired open time closes the breaker. */
  function Admit(c: Circuit, now: int): (r: Circuit)
    requires !Refuses(c, now)
    ensures r.openUntil == 0
    ensures c.openUntil != 0 ==> r == Closed
    ensures c.openUntil == 0 ==> r == c
  {
    if c.openUntil != 0 && now >= c.openUntil then Closed else c
  }

  /** `_record_failure`: one more failure; reaching the threshold opens the
      breaker for `reset` and starts the count again. With a positive
      threshold the count stays below it. */
  function Fail(c: Circuit, now: int, cfg: Config): (r: Circuit)
    ensures cfg.threshold >= 1 ==> r.failures < cfg.threshold
    ensures c.failures >= 0 ==> r.failures >= 0
    ensures r == Circuit(c.failures + 1, c.openUntil) || r == Circuit(0, now + cfg.reset)
    ensures r.openUntil == now + cfg.reset <==> c.failures + 1 >= cfg.threshold || c.openUntil == now + cfg.reset
  {
    var failures := c.failures + 1;
    if failures >= cfg.threshold then Circuit(0, now + cfg.reset) else Circuit(failures, c.openUntil)
  }

  /** The breaker after failures recorded at the times `times`, in order. */
  function Failures(c: Circuit, times: seq<int>, cfg: Config): Circuit
    decreases |times|
  {
    if times == [] then c else Failures(Fail(c, times[0], cfg), times[1..], cfg)
  }

  /** From `k` failures, fewer than `threshold - k` more only count up and
      leave the open time alone. */
  lemma {:induction false} FailuresCountUp(k: int, until: int, times: seq<int>, cfg: Config)
    requires 0 <= k && k + |times| < cfg.threshold
    ensures Failures(Circuit(k, until), times, cfg) == Circuit(k + |times|, until)
    decreases |times|
  {
    if times != [] {
      FailuresCountUp(k + 1, until, times[1..], cfg);
    }
  }

  /** A closed breaker opens on the `threshold`-th consecutive failure, until
      the time of that failure plus `reset`, and counts from zero again. */
  lemma BreakerOpensAtThreshold(times: seq<int>, cfg: Config)
    requires cfg.threshold >= 1 && |times| == cfg.threshold
    ensures Failures(Closed, times, cfg) == Circuit(0, times[|times| - 1] + cfg.reset)
  {
    var n := |times| - 1;
    FailuresCountUp(0, 0, times[..n], cfg);
    FailuresSplit(Closed, times[..n], [times[n]], cfg);
    assert times[..n] + [times[n]] == times;
  }

  lemma {:induction false} FailuresSplit(c: Circuit, a: seq<int>, b: seq<int>, cfg: Config)
    ensures Failures(c, a + b, cfg) == Failures(Failures(c, a, cfg), b, cfg)
    decreases |a|
  {
    if a == [] {
      assert a + b == b;
    } else {
      assert (a + b)[1..] == a[1..] + b;
      FailuresSplit(Fail(c, a[0], cfg), a[1..], b, cfg);
    }
  }

  // ---------------------------------------------------------------------
  // The retry loop
  // ---------------------------------------------------------------------

  /** What one attempt gets: an HTTP answer (its status and, on 200, the
      `ocs.data` user record) or a transport error. */
  datatype Answer = Response(status: int, data: string) | RequestError(message: string)

  /** A server error or a transport error: counted as a failure and retried. */
  predicate Retryable(a: Answer) {
    a.RequestError? || a.status >= 500
  }

  /** The most attempts one call makes. */
  function Limit(cfg: Config): (r: nat)
    ensures r >= 1 && (cfg.maxRetries >= 0 ==> r == cfg.maxRetries + 1)
  {
    if cfg.maxRetries < 0 then 1 else cfg.maxRetries + 1
  }

  /** What the loop does with an answer it does not retry: the user record
      on 200, the status raised otherwise (401 included). */
  function Verdict(a: Answer): (r: Result<string>)
    requires !Retryable(a)
    ensures r.Ok? <==> a.status == 200
    ensures r.Ok? ==> r.value == a.data
    ensures r.Err? ==> r.error == HttpError(a.status)
  {
    if a.status == 200 then Ok(a.data) else Err(HttpError(a.status))
  }

  /** Where a call ends: its result, the attempts made and the breaker. */
  datatype RunEnd = RunEnd(result: Result<string>, attempts: nat, circuit: Circuit)

  /** The loop from attempt `k` on, with the breaker at `c`: an answer that
      is not retried ends it and closes the breaker; a failure is recorded,
      and ends it with 503 once `k` exceeds the retries allowed. */
  function Run(c: Circuit, answer: nat -> Answer, clock: nat -> int, cfg: Config, k: nat): RunEnd
    requires 1 <= k <= Limit(cfg)
    decreases Limit(cfg) - k
  {
    var a := answer(k);
    if !Retryable(a) then RunEnd(Verdict(a), k, Closed)
    else
      var next := Fail(c, clock(k), cfg);
      if k > cfg.maxRetries then RunEnd(Err(HttpError(503)), k, next)
      else Run(next, answer, clock, cfg, k + 1)
  }

  /** A call makes between one and `AUTH_MAX_RETRIES + 1` attempts, each
      before the last one a retried failure; it ends on an answer it does not
      retry, or on a failure once no retry is left, with 503. */
  lemma {:induction false} RunShape(c: Circuit, answer: nat -> Answer, clock: nat -> int, cfg: Config, k: nat)
    requires 1 <= k <= Limit(cfg)
    ensures var e := Run(c, answer, clock, cfg, k);
            && k <= e.attempts <= Limit(cfg)
            && (forall j :: k <= j < e.attempts ==> Retryable(answer(j)))
            && (!Retryable(answer(e.attempts)) ==> e.result == Verdict(answer(e.attempts)) && e.circuit == Closed)
            && (Retryable(answer(e.attempts)) ==> e.result == Err(HttpError(503)) && e.attempts == Limit(cfg))
            && (cfg.threshold >= 1 ==> e.circuit.failures < cfg.threshold)
    decreases Limit(cfg) - k
  {
    var a := answer(k);
    if Retryable(a) && k <= cfg.maxRetries {
      RunShape(Fail(c, clock(k), cfg), answer, clock, cfg, k + 1);
    }
  }

  /** The first answer that is not retried, when it comes within the
      limit, ends the call with its verdict and closes the breaker. */
  lemma {:induction false} RunStopsAt(c: Circuit, answer: nat -> Answer, clock: nat -> int, cfg: Config, k: nat, n: nat)
    requires 1 <= k <= n <= Limit(cfg) && !Retryable(answer(n))
    requires forall j :: k <= j < n ==> Retryable(answer(j))
    ensures Run(c, answer, clock, cfg, k) == RunEnd(Verdict(answer(n)), n, Closed)
    decreases n - k
  {
    if k < n {
      RunStopsAt(Fail(c, clock(k), cfg), answer, clock, cfg, k + 1, n);
    }
  }

  /** A call succeeds exactly when some attempt within the limit answers
      200 and every attempt before it failed in a retried way. */
  lemma RunSucceeds(c: Circuit, answer: nat -> Answer, clock: nat -> int, cfg: Config, data: string)
    ensures Run(c, answer, clock, cfg, 1).result == Ok(data) <==>
            exists n :: 1 <= n <= Limit(cfg) && answer(n) == Response(200, data)
                        && forall j :: 1 <= j < n ==> Retryable(answer(j))
  {
    var e := Run(c, answer, clock, cfg, 1);
    RunShape(c, answer, clock, cfg, 1);
    if e.result == Ok(data) {
      var n := e.attempts;
      assert 1 <= n <= Limit(cfg) && answer(n) == Response(200, data)
             && forall j :: 1 <= j < n ==> Retryable(answer(j));
    }
    if exists n :: 1 <= n <= Limit(cfg) && answer(n) == Response(200, data)
                   && forall j :: 1 <= j < n ==> Retryable(answer(j)) {
      var n :| 1 <= n <= Limit(cfg) && answer(n) == Response(200, data)
               && forall j :: 1 <= j < n ==> Retryable(answer(j));
      RunStopsAt(c, answer, clock, cfg, 1, n);
    }
  }

  /** When every attempt fails, the call gives up with 503 after exactly
      `AUTH_MAX_RETRIES + 1` attempts. */
  lemma RunGivesUp(c: Circuit, answer: nat -> Answer, clock: nat -> int, cfg: Config)
    requires forall j :: 1 <= j <= Limit(cfg) ==> Retryable(answer(j))
    ensures Run(c, answer, clock, cfg, 1).result == Err(HttpError(503))
    ensures Run(c, answer, clock, cfg, 1).attempts == Limit(cfg)
  {
    RunShape(c, answer, clock, cfg, 1);
  }

  // ---------------------------------------------------------------------
  // The module state
  // ---------------------------------------------------------------------

  /** The module-level state of the authentication helpers: the cache of
      user records by credentials, and the circuit breaker. */
  class Authenticator {
    var cache: map<string, string>
    var failures: int
    var openUntil: int
    const cfg: Config

    function State(): Circuit
      reads this
    {
      Circuit(failures, openUntil)
    }

    constructor (cfg: Config)
      ensures this.cfg == cfg && cache == map[] && State() == Closed
    {
      this.cfg := cfg;
      cache := map[];
      failures := 0;
      openUntil := 0;
    }

    /** `_ensure_circuit_allows_request`: 503 while the breaker is open;
        an expired open time closes it. */
    method EnsureCircuitAllowsRequest(now: int) returns (r: Option<Error>)
      modifies this
      ensures cache == old(cache)
      ensures r.Some? <==> Refuses(old(State()), now)
      ensures r.Some? ==> r.value == HttpError(503) && State() == old(State())
      ensures r.None? ==> State() == Admit(old(State()), now)
    {
      if openUntil != 0 && now < openUntil {
        return Some(HttpError(503));
      }
      if openUntil != 0 && now >= openUntil {
        openUntil := 0;
        failures := 0;
      }
      return None;
    }

    /** `_record_success`: the breaker closes. */
    method RecordSuccess()
      modifies this
      ensures cache == old(cache) && State() == Closed
    {
      failures := 0;
      openUntil := 0;
    }

    /** `_record_failure`. */
    method RecordFailure(now: int)
      modifies this
      ensures cache == old(cache) && State() == Fail(old(State()), now, cfg)
    {
      failures := failures + 1;
      if failures >= cfg.threshold {
        openUntil := now + cfg.reset;
        failures := 0;
      }
    }

    /** `authenticate_with_nextcloud`: a cached user is returned at once;
        otherwise the breaker is consulted, then attempts are made until one
        is not retried or no retry is left, sleeping `backoff * attempt`
        between them. A 200 is cached. */
    method Authenticate(username: string, password: string, now: int,
                        answer: nat -> Answer, clock: nat -> int)
      returns (r: Result<string>, attempts: nat, waits: seq<int>)
      modifies this
      ensures var key := CacheKey(username, password);
              key in old(cache) ==>
                r == Ok(old(cache)[key]) && attempts == 0 && waits == []
                && cache == old(cache) && State() == old(State())
      ensures var key := CacheKey(username, password);
              key !in old(cache) && Refuses(old(State()), now) ==>
                r == Err(HttpError(503)) && attempts == 0 && waits == []
                && cache == old(cache) && State() == old(State())
      ensures var key := CacheKey(username, password);
              key !in old(cache) && !Refuses(old(State()), now) ==>
                var e := Run(Admit(old(State()), now), answer, clock, cfg, 1);
                && r == e.result && attempts == e.attempts && State() == e.circuit
                && cache == (if r.Ok? then old(cache)[key := r.value] else old(cache))
                && |waits| == attempts - 1
                && forall i :: 0 <= i < |waits| ==> waits[i] == cfg.backoff * (i + 1)
    {
      var key := CacheKey(username, password);
      if key in cache {
        return Ok(cache[key]), 0, [];
      }
      var blocked := EnsureCircuitAllowsRequest(now);
      if blocked.Some? {
        return Err(blocked.value), 0, [];
      }
      ghost var goal := Run(State(), answer, clock, cfg, 1);
      var attempt := 0;
      waits := [];
      while true
        invariant 0 <= attempt < Limit(cfg)
        invariant Run(State(), answer, clock, cfg, attempt + 1) == goal
        invariant cache == old(cache)
        invariant |waits| == attempt && forall i :: 0 <= i < |waits| ==> waits[i] == cfg.backoff * (i + 1)
        decreases Limit(cfg) - attempt
      {
        attempt := attempt + 1;
        var a := answer(attempt);
        if a.Response? && a.status == 200 {
          cache := cache[key := a.data];
          RecordSuccess();
          return Ok(a.data), attempt, waits;
        }
        if a.Response? && a.status == 401 {
          RecordSuccess();
          return Err(HttpError(401)), attempt, waits;
        }
        if a.Response? && a.status < 500 {
          RecordSuccess();
          return Err(HttpError(a.status)), attempt, waits;
        }
        RecordFailure(clock(attempt));
        if attempt > cfg.maxRetries {
          return Err(HttpError(503)), attempt, waits;
        }
        waits := waits + [cfg.backoff * attempt];
      }
    }
  }
}
