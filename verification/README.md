# CORS compatibility shim — Dafny model

This project models `jupyterlite_cors`. It is the small shim that lets
Python code running in the browser make HTTP requests to origins that do not
send CORS headers. The shim has three parts:

- **One module-level cache** maps an origin to `True` (direct requests work)
  or `False` (requests must go through the proxy). An origin that is absent
  is unknown. At load time the cache holds the page's own origin and the
  proxy's origin, both `True`.
- **`cors_url(url)`** rewrites a request. For an unknown origin it first
  sends a synchronous `HEAD` and, if that is not decisive, a `GET`. It records
  a decisive result and prints a warning the first time an origin is found
  unsupported. It returns either `url` or `https://cors.climet.eu/` + `url`.
- **`cors_status(url, status)`** reverses the proxy's status encoding. For
  origins marked `False`, the proxy relays the redirect codes
  301/302/303/307/308 as 251/252/253/257/258, and this function turns them
  back.

The model is functional. The cache is a `map<string, bool>` passed into each
call and returned from it (`Cors.CorsUrl` returns a `Rewrite` that carries
the new cache). A `Session.Run` threads the cache through a sequence of
calls, which models the module-level dictionary's lifetime.

The browser is given as parameters:

- `Browser.location` is `js.location.origin`.
- `Browser.originOf` is `js.URL.new(url).origin`, left uninterpreted.
- Each probe's `xhr.send()` is an oracle `respond: HttpMethod -> Outcome`.
  The `Outcome` is `Raised` or `Status(n)`.

`Cors.CorsStatus` is a function of the cache it is given and returns only a
status, so it cannot change the cache or send a probe.

The printed warning is modelled as a `warned` flag per call and as the list
of origins warned about in a session.

Modules:

- `Probe` (`probe.dfy`): the HEAD-then-GET loop. It has a recursive
  definition (`RunProbes`) and a loop with `break` (`ProbeLoop`). The model
  proves that the two agree and characterises the result as the first
  decisive outcome.
- `Cors` (`cors.dfy`): the constants, the seeded cache, `CorsUrl`,
  `CorsStatus` and the proxy's status mask.
- `Session` (`session.dfy`): sequences of calls sharing one cache.

Points a reader might not expect:

- The unmasking adds 50 rather than subtracting it: 253 becomes 303.
- An exception from `send` on `HEAD` settles the origin as unsupported. The
  code does not fall back to `GET` (`HeadRaisedIsFinal`).
- The probe does **not** fail closed. When both methods return a status
  outside 200..399 that is not 403, the code writes nothing. The origin
  stays unknown, no warning is printed, the URL is returned unproxied, and
  the next call probes again (`CorsUrlDecision`, `UndecidedReprobes`).

## Model

| member | source | states |
|---|---|---|
| Probe.RunProbes | packages/jupyterlite-cors/jupyterlite-cors/jupyterlite_cors.py:16-35 | The `for method in ["HEAD", "GET"]` loop with its `break`s: it sends at most one probe per method in the list, and at least one when the list is not empty. |
| Probe.RunProbesFirstDecisive | packages/jupyterlite-cors/jupyterlite-cors/jupyterlite_cors.py:16-35 | The loop stops at the first decisive outcome: the methods sent are a prefix of the method list. Every method sent before the last was non-decisive. A decided verdict is the last method's verdict. When nothing decided, every method was sent and every one was non-decisive. |
| Probe.ProbeLoop | packages/jupyterlite-cors/jupyterlite-cors/jupyterlite_cors.py:16-35 | The for-loop with `break` sends exactly the methods the recursive definition `RunProbes` describes and reaches the same verdict. |
| Probe.ProbeOrder | packages/jupyterlite-cors/jupyterlite-cors/jupyterlite_cors.py:16-35 | HEAD is always sent first. A decisive HEAD (exception, 200..399 or 403) ends the probe with HEAD's verdict. Otherwise GET is sent and its verdict is the result. No more than these two probes are sent. |
| Cors.CorsUrl | packages/jupyterlite-cors/jupyterlite-cors/jupyterlite_cors.py:11-57 | The result is the proxy prefix plus `url` exactly when the origin's entry after the call is `False`, and `url` otherwise. A known origin is never probed, its entry never changes, and no warning is printed. An unknown origin gets one or two probes, HEAD first. Only the entry for the URL's origin can change and no entry is removed. The warning is printed exactly when the origin was unknown on entry and is `False` on exit. |
| Cors.CorsUrlDecision | packages/jupyterlite-cors/jupyterlite-cors/jupyterlite_cors.py:14-35 | For an unknown origin, a decisive HEAD writes its verdict and GET is not sent. After a non-decisive HEAD, GET is sent and a decisive GET writes its verdict. If both are non-decisive, the cache is unchanged, the URL is returned as is, and no warning is printed. |
| Cors.HeadRaisedIsFinal | packages/jupyterlite-cors/jupyterlite-cors/jupyterlite_cors.py:21-26 | An exception on HEAD marks the origin unsupported without trying GET, even when GET would succeed. The URL is proxied and the warning printed. |
| Cors.SeededOriginsPassThrough | packages/jupyterlite-cors/jupyterlite-cors/jupyterlite_cors.py:8-14 | With the cache as loaded, a URL on the page's origin or the proxy's origin is returned unchanged. No probe is sent, no warning is printed, and the cache stays the same. |
| Cors.CorsUrlIdempotent | packages/jupyterlite-cors/jupyterlite-cors/jupyterlite_cors.py:14-57 | Once a call has decided the URL's origin, a second call with the same URL gives the same URL and the same cache, with no probe and no warning, whatever the network would answer. |
| Cors.UndecidedReprobes | packages/jupyterlite-cors/jupyterlite-cors/jupyterlite_cors.py:14-38 | When both probes are non-decisive, the origin stays unknown, so the next call for that origin probes again. |
| Cors.CorsStatus | packages/jupyterlite-cors/jupyterlite-cors/jupyterlite_cors.py:60-69 | The result is `status + 50` exactly when the origin's entry is `False` and the status is one of 251, 252, 253, 257, 258. In that case the result is a redirect code (301, 302, 303, 307, 308). Otherwise the status is returned unchanged, which includes unknown origins (default `True`). |
| Cors.UnmaskInvertsProxy | packages/jupyterlite-cors/jupyterlite-cors/jupyterlite_cors.py:63-67 | For an unsupported origin, unmasking undoes the proxy's mask for every upstream status that is not itself a masked code. |
| Cors.MaskedUpstreamCollides | packages/jupyterlite-cors/jupyterlite-cors/jupyterlite_cors.py:63-67 | An upstream 251 and an upstream 301 reach the client as the same relayed code, and unmasking reads both as 301. |
| Cors.StatusTransparent | packages/jupyterlite-cors/jupyterlite-cors/jupyterlite_cors.py:53-67 | After `CorsUrl`, a direct response's status and a proxied response's relayed status both come back out of `CorsStatus` as the upstream status, provided the upstream status is not a masked code. |
| Cors.StatusExamples | packages/jupyterlite-cors/jupyterlite-cors/jupyterlite_cors.py:63-69 | 253 from an unsupported origin reads as 303. 253 from a supported or unknown origin stays 253. 404 stays 404 for any cache. |
| Session.Run | packages/jupyterlite-cors/jupyterlite-cors/jupyterlite_cors.py:8-57 | The module-level cache living across a sequence of `cors_url` calls, each call seeing the cache the previous one left: exactly one URL is returned per call. |
| Session.WriteOnce | packages/jupyterlite-cors/jupyterlite-cors/jupyterlite_cors.py:14-35 | Over any sequence of calls, every entry present at the start keeps its value. Its origin is never probed and never warned about. |
| Session.WarnOnce | packages/jupyterlite-cors/jupyterlite-cors/jupyterlite_cors.py:37-51 | Over any sequence of calls, no origin is warned about twice. |
| Session.WarnedAreProxied | packages/jupyterlite-cors/jupyterlite-cors/jupyterlite_cors.py:37-51 | Every origin warned about during a sequence of calls was unknown at the start and is marked unsupported at the end. |
| Session.SettledOriginsStable | packages/jupyterlite-cors/jupyterlite-cors/jupyterlite_cors.py:53-57 | Every call on an origin settled at the start of a session returns the same kind of URL: unchanged when the origin is supported, proxied when it is not. |
| Session.SeededOriginsNeverProxied | packages/jupyterlite-cors/jupyterlite-cors/jupyterlite_cors.py:8-14 | From module load on, every call with a URL on the page's origin or the proxy's origin returns that URL unchanged. |
| Session.SeededOriginsNeverProbed | packages/jupyterlite-cors/jupyterlite-cors/jupyterlite_cors.py:8-14 | From module load on, the page's origin and the proxy's origin are never probed and never warned about. |

## Left out

- The XMLHttpRequest machinery is not modelled: creating the request, `responseType = "arraybuffer"`, and the synchronous `open`/`send`. Each probe's outcome is an oracle parameter instead. An exception raised by `send` is the `Raised` outcome; the code catches every exception from `send` alike, so the model does not distinguish kinds of exception there.
- Exceptions that escape the shim are not modelled. `js.URL.new(url)` can raise, for instance on a relative URL, and that exception leaves `cors_url` and `cors_status` (lines 12 and 61). An exception from creating the request, setting `responseType` or calling `open` (lines 17-19, outside the `try`) also leaves `cors_url`. `Cors.CorsUrl` and `Cors.CorsStatus` are total and return a result in those cases. Such a call writes nothing to the cache: every write (lines 25, 30 and 34) follows a completed `send`, and a raising `open` on GET can only follow an undecided HEAD. A call that raises therefore acts like a call that leaves the cache unchanged, so the session properties still hold for the calls that return.
- URL parsing (`js.URL.new(url).origin`) is not modelled. It is an uninterpreted function `Browser.originOf`, so nothing is assumed about which URLs share an origin. In particular, the model does not assume that the proxy URL's origin is `https://cors.climet.eu`.
- The warning text and the `stderr` stream are not modelled. Only the fact that a warning was printed, and for which origin, is kept.
- Concurrency is not modelled. A synchronous request with `responseType = "arraybuffer"` is only allowed in a worker, so the calls are synchronous and blocking in the worker's single thread, and a session is a plain sequence of calls.
- The rest of the repository is not part of this model: the interpreter bootstrap and preload scripts, the async lock, the git wrapper, the lockfile build script and the integration test.
