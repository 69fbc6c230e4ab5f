/** The CORS compatibility shim: the shared origin cache, the request
    rewriter `cors_url` and the response status unmasker `cors_status`.
    The cache is threaded through as a value: each call takes the cache it
    finds and `CorsUrl` returns the cache it leaves behind. */
module Cors {
  import opened Probe

  /** Base URL of the CORS proxy; a proxied request goes to this prefix
      followed by the original URL. */
  const ProxyBase: string := "https://cors.climet.eu/"

  /** The standard redirect codes the proxy hides from the browser. */
  const RedirectCodes: set<int> := {301, 302, 303, 307, 308}

  /** The codes the proxy relays in their place (each redirect code minus 50). */
  const MaskedCodes: set<int> := {251, 252, 253, 257, 258}

  /** What the shim asks of the browser: the page's own origin
      (`location.origin`) and the URL parser's notion of a URL's origin
      (`new URL(url).origin`), left uninterpreted. */
  datatype Browser = Browser(location: string, originOf: string -> string)

  /** Origin -> can requests go to it directly? An absent origin is unknown. */
  type Cache = map<string, bool>

  /** One call of the rewriter: the URL to request, the cache afterwards,
      whether the one-time warning was printed, and the probes sent. */
  datatype Rewrite = Rewrite(url: string, cache: Cache, warned: bool, probes: seq<HttpMethod>)

  function ProxyOrigin(b: Browser): string {
    b.originOf(ProxyBase)
  }

  /** The cache at module load: the page's origin and the proxy's origin,
      both allowed direct requests. */
  function InitialCache(b: Browser): Cache {
    map[b.location := true, ProxyOrigin(b) := true]
  }

  /** The two origins the cache is seeded with. */
  predicate Seeded(b: Browser, origin: string) {
    origin == b.location || origin == ProxyOrigin(b)
  }

  /** The origin is explicitly marked as not supporting CORS. */
  predicate Proxied(cache: Cache, origin: string) {
    origin in cache && !cache[origin]
  }

  /** `cors_url`: probe an unknown origin (HEAD, then GET), record a decisive
      verdict, warn when the origin has just been found unsupported, and send
      the request through the proxy exactly when the origin is marked
      unsupported. */
  function CorsUrl(b: Browser, cache: Cache, url: string, respond: HttpMethod -> Outcome): (r: Rewrite)
    // the rewrite follows the entry the call leaves behind
    ensures Proxied(r.cache, b.originOf(url)) ==> r.url == ProxyBase + url
    ensures !Proxied(r.cache, b.originOf(url)) ==> r.url == url
    // a known origin is never probed, never rewritten in the cache, never warned about
    ensures b.originOf(url) in cache ==> r.cache == cache && r.probes == [] && !r.warned
    // an unknown origin is probed with HEAD first and at most GET after it
    ensures b.originOf(url) !in cache ==> 0 < |r.probes| <= 2 && r.probes == Methods[..|r.probes|]
    // only the entry of this URL's origin can change, and nothing is removed
    ensures r.cache - {b.originOf(url)} == cache - {b.originOf(url)}
    ensures forall o :: o in cache ==> o in r.cache && r.cache[o] == cache[o]
    ensures r.cache.Keys <= cache.Keys + {b.originOf(url)}
    // the warning: only on the call that first marks the origin unsupported
    ensures r.warned <==> b.originOf(url) !in cache && Proxied(r.cache, b.originOf(url))
  {
    var origin := b.originOf(url);
    if origin in cache then
      Rewrite(if Proxied(cache, origin) then ProxyBase + url else url, cache, false, [])
    else
      var p := RunProbes(Methods, respond);
      var after := if p.verdict.Decided? then cache[origin := p.verdict.supported] else cache;
      var warned := Proxied(after, origin);
      Rewrite(if Proxied(after, origin) then ProxyBase + url else url, after, warned, p.issued)
  }

  /** The probe decision for an unknown origin, case by case: a decisive HEAD
      settles it and GET is not sent; otherwise GET is sent and a decisive GET
      settles it; when neither decides, nothing is recorded, no warning is
      printed and the URL goes out unchanged. */
  lemma CorsUrlDecision(b: Browser, cache: Cache, url: string, respond: HttpMethod -> Outcome)
    requires b.originOf(url) !in cache
    ensures var r := CorsUrl(b, cache, url, respond);
      var o := b.originOf(url);
      var head := Classify(respond(Head));
      var get := Classify(respond(Get));
      && (head.Decided? ==> r.probes == [Head] && r.cache == cache[o := head.supported])
      && (head.Undecided? ==> r.probes == [Head, Get])
      && (head.Undecided? && get.Decided? ==> r.cache == cache[o := get.supported])
      && (head.Undecided? && get.Undecided? ==> r.cache == cache && r.url == url && !r.warned)
  {
  }

  /** A probe that raises on HEAD marks the origin unsupported at once, even
      when GET would have succeeded: the request is proxied and the warning
      printed. */
  lemma HeadRaisedIsFinal(b: Browser, cache: Cache, url: string)
    requires b.originOf(url) !in cache
    ensures var r := CorsUrl(b, cache, url, m => if m == Head then Raised else Status(200));
      && r.probes == [Head]
      && Proxied(r.cache, b.originOf(url))
      && r.url == ProxyBase + url
      && r.warned
  {
  }

  /** URLs on the page's own origin or on the proxy's origin pass through the
      freshly loaded shim unchanged, without a probe or a warning. */
  lemma SeededOriginsPassThrough(b: Browser, url: string, respond: HttpMethod -> Outcome)
    requires Seeded(b, b.originOf(url))
    ensures CorsUrl(b, InitialCache(b), url, respond) == Rewrite(url, InitialCache(b), false, [])
  {
  }

  /** Once a call has decided the URL's origin, a second call with the same
      URL, whatever the network would now answer, returns the same URL, keeps
      the cache as it is, and neither probes nor warns. */
  lemma CorsUrlIdempotent(b: Browser, cache: Cache, url: string,
                          first: HttpMethod -> Outcome, second: HttpMethod -> Outcome)
    requires b.originOf(url) in CorsUrl(b, cache, url, first).cache
    ensures var r1 := CorsUrl(b, cache, url, first);
      var r2 := CorsUrl(b, r1.cache, url, second);
      r2.url == r1.url && r2.cache == r1.cache && r2.probes == [] && !r2.warned
  {
  }

  /** An undecided probe leaves the origin unknown, so the next call with a
      URL on that origin probes again. */
  lemma UndecidedReprobes(b: Browser, cache: Cache, url: string,
                          first: HttpMethod -> Outcome, second: HttpMethod -> Outcome)
    requires b.originOf(url) !in cache
    requires Classify(first(Head)).Undecided? && Classify(first(Get)).Undecided?
    ensures var r1 := CorsUrl(b, cache, url, first);
      CorsUrl(b, r1.cache, url, second).probes != []
  {
  }

  /** `cors_status`: for an origin explicitly marked unsupported, a masked
      code is turned back into the redirect code it stands for; every other
      status, and every status of an unknown or supported origin, is kept. */
  function CorsStatus(b: Browser, cache: Cache, url: string, status: int): (r: int)
    ensures r == status + 50 <==> Proxied(cache, b.originOf(url)) && status in MaskedCodes
    ensures r != status + 50 ==> r == status
    ensures r != status ==> r in RedirectCodes
  {
    var origin := b.originOf(url);
    var direct := if origin in cache then cache[origin] else true;
    if !direct && status in MaskedCodes then status + 50 else status
  }

  /** What the proxy does to a status before relaying it: a redirect code is
      lowered by 50, anything else is relayed as is. */
  function ProxyMask(status: int): int {
    if status in RedirectCodes then status - 50 else status
  }

  /** Unmasking undoes the proxy for every upstream status that is not itself
      one of the masked codes; in particular every redirect code comes back. */
  lemma UnmaskInvertsProxy(b: Browser, cache: Cache, url: string, status: int)
    requires Proxied(cache, b.originOf(url))
    requires status !in MaskedCodes
    ensures CorsStatus(b, cache, url, ProxyMask(status)) == status
  {
  }

  /** An upstream status that is itself a masked code is indistinguishable,
      once relayed, from the redirect it would stand for: 251 comes back as 301. */
  lemma MaskedUpstreamCollides(b: Browser, cache: Cache, url: string)
    requires Proxied(cache, b.originOf(url))
    ensures ProxyMask(251) == ProxyMask(301)
    ensures CorsStatus(b, cache, url, ProxyMask(251)) == 301
  {
  }

  /** End to end: whatever `CorsUrl` chose, the status a caller sees after
      `CorsStatus` is the status the origin server sent, whenever that status
      is not a masked code. A direct request's status is never altered. */
  lemma StatusTransparent(b: Browser, cache: Cache, url: string,
                          respond: HttpMethod -> Outcome, upstream: int)
    requires upstream !in MaskedCodes
    ensures var r := CorsUrl(b, cache, url, respond);
      var relayed := if r.url == url then upstream else ProxyMask(upstream);
      CorsStatus(b, r.cache, url, relayed) == upstream
  {
  }

  /** Worked cases: 253 from an unsupported origin reads as 303; the same code
      from a supported origin stays 253; 404 stays 404 whatever the origin. */
  lemma StatusExamples(b: Browser, url: string)
    ensures CorsStatus(b, map[b.originOf(url) := false], url, 253) == 303
    ensures CorsStatus(b, map[b.originOf(url) := true], url, 253) == 253
    ensures CorsStatus(b, map[], url, 253) == 253
    ensures forall c: Cache :: CorsStatus(b, c, url, 404) == 404
  {
  }
}
