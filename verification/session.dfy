/** A session: the shim's module-level cache living across a sequence of
    `cors_url` calls, each with its own URL and its own network answers. */
module Session {
  import opened Probe
  import opened Cors

  /** One request handed to the rewriter, with what the network would answer
      to a probe sent for it. */
  datatype Call = Call(url: string, respond: HttpMethod -> Outcome)

  /** What a sequence of calls leaves behind: the final cache, the URL each
      call returned, the origins warned about and the origins probed, each
      in call order. */
  datatype Trace = Trace(cache: Cache, urls: seq<string>, warnings: seq<string>, probed: seq<string>)

  /** The calls one after another, each seeing the cache the previous left. */
  function Run(b: Browser, cache: Cache, calls: seq<Call>): (t: Trace)
    ensures |t.urls| == |calls|
    decreases |calls|
  {
    if calls == [] then Trace(cache, [], [], [])
    else
      var origin := b.originOf(calls[0].url);
      var r := CorsUrl(b, cache, calls[0].url, calls[0].respond);
      var rest := Run(b, r.cache, calls[1..]);
      Trace(rest.cache,
            [r.url] + rest.urls,
            (if r.warned then [origin] else []) + rest.warnings,
            (if r.probes != [] then [origin] else []) + rest.probed)
  }

  /** The URL the rewriter returns for an origin whose entry is settled. */
  function Settled(cache: Cache, url: string, origin: string): string
    requires origin in cache
  {
    if cache[origin] then url else ProxyBase + url
  }

  /** Entries are write-once: every entry present before a session is still
      there with the same value after it, and its origin is never probed or
      warned about during the session. */
  lemma {:induction false} WriteOnce(b: Browser, cache: Cache, calls: seq<Call>)
    ensures var t := Run(b, cache, calls);
      forall o :: o in cache ==> o in t.cache && t.cache[o] == cache[o] && o !in t.probed && o !in t.warnings
    decreases |calls|
  {
    if calls != [] {
      var r := CorsUrl(b, cache, calls[0].url, calls[0].respond);
      WriteOnce(b, r.cache, calls[1..]);
    }
  }

  /** Every origin warned about during a session was unknown when the
      session began and is marked unsupported when it ends. */
  lemma {:induction false} WarnedAreProxied(b: Browser, cache: Cache, calls: seq<Call>)
    ensures var t := Run(b, cache, calls);
      forall o :: o in t.warnings ==> o !in cache && Proxied(t.cache, o)
    decreases |calls|
  {
    if calls != [] {
      var r := CorsUrl(b, cache, calls[0].url, calls[0].respond);
      WarnedAreProxied(b, r.cache, calls[1..]);
      WriteOnce(b, r.cache, calls[1..]);
    }
  }

  /** No element occurs twice. */
  predicate Distinct(s: seq<string>) {
    forall i, j :: 0 <= i < j < |s| ==> s[i] != s[j]
  }

  lemma DistinctPrepend(x: string, s: seq<string>)
    requires Distinct(s) && x !in s
    ensures Distinct([x] + s)
  {
  }

  /** The warning is printed at most once per origin over a whole session. */
  lemma {:induction false} WarnOnce(b: Browser, cache: Cache, calls: seq<Call>)
    ensures Distinct(Run(b, cache, calls).warnings)
    decreases |calls|
  {
    if calls != [] {
      var origin := b.originOf(calls[0].url);
      var r := CorsUrl(b, cache, calls[0].url, calls[0].respond);
      var rest := Run(b, r.cache, calls[1..]);
      WarnOnce(b, r.cache, calls[1..]);
      if r.warned {
        WarnedAreProxied(b, r.cache, calls[1..]);
        DistinctPrepend(origin, rest.warnings);
      }
    }
  }

  /** Every URL on an origin that is settled when the session begins comes
      back the same way on every call, whatever the network answers: as is
      when the origin is supported, behind the proxy when it is not. */
  lemma {:induction false} SettledOriginsStable(b: Browser, cache: Cache, calls: seq<Call>)
    ensures var t := Run(b, cache, calls);
      forall i :: 0 <= i < |calls| && b.originOf(calls[i].url) in cache ==>
        t.urls[i] == Settled(cache, calls[i].url, b.originOf(calls[i].url))
    decreases |calls|
  {
    if calls != [] {
      var r := CorsUrl(b, cache, calls[0].url, calls[0].respond);
      SettledOriginsStable(b, r.cache, calls[1..]);
      var t := Run(b, cache, calls);
      forall i | 0 <= i < |calls| && b.originOf(calls[i].url) in cache
        ensures t.urls[i] == Settled(cache, calls[i].url, b.originOf(calls[i].url))
      {
        if i > 0 {
          assert calls[1..][i - 1] == calls[i];
        }
      }
    }
  }

  /** From module load on, every call with a URL on the page's origin or the
      proxy's origin returns that URL unchanged. */
  lemma SeededOriginsNeverProxied(b: Browser, calls: seq<Call>)
    ensures var t := Run(b, InitialCache(b), calls);
      forall i :: 0 <= i < |calls| && Seeded(b, b.originOf(calls[i].url)) ==> t.urls[i] == calls[i].url
  {
    var c := InitialCache(b);
    SettledOriginsStable(b, c, calls);
    assert forall o :: Seeded(b, o) ==> o in c && c[o];
  }

  /** From module load on, the page's origin and the proxy's origin are never
      probed and never warned about. */
  lemma SeededOriginsNeverProbed(b: Browser, calls: seq<Call>)
    ensures var t := Run(b, InitialCache(b), calls);
      && b.location !in t.probed && ProxyOrigin(b) !in t.probed
      && b.location !in t.warnings && ProxyOrigin(b) !in t.warnings
  {
    WriteOnce(b, InitialCache(b), calls);
  }
}
