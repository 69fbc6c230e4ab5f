/** Capability probing of one origin: the HEAD-then-GET loop of `cors_url`.
    Each synchronous XMLHttpRequest is an oracle `respond` that tells what
    `send` did for a given HTTP method: it raised, or it produced a status. */
module Probe {

  datatype HttpMethod = Head | Get

  /** What one synchronous `send` gave: an exception, or a response status. */
  datatype Outcome = Raised | Status(code: int)

  /** What one outcome says about the origin: nothing yet, or a decision
      (`supported` is the value written into the cache). */
  datatype Verdict = Undecided | Decided(supported: bool)

  /** The result of the whole loop: the verdict (Undecided when no method
      decided) and the methods actually sent, in order. */
  datatype ProbeResult = ProbeResult(verdict: Verdict, issued: seq<HttpMethod>)

  /** The methods tried, in order: HEAD first, GET as fallback. */
  const Methods: seq<HttpMethod> := [Head, Get]

  /** A status inside the inclusive success band 200..399. */
  predicate Succeeded(code: int) {
    200 <= code <= 399
  }

  /** How the loop body reads one outcome. */
  function Classify(o: Outcome): Verdict {
    match o
    case Raised => Decided(false)
    case Status(code) =>
      if Succeeded(code) then Decided(true)
      else if code == 403 then Decided(false)
      else Undecided
  }

  /** The loop over `methods` that stops at the first decisive outcome. */
  function RunProbes(methods: seq<HttpMethod>, respond: HttpMethod -> Outcome): (r: ProbeResult)
    ensures |r.issued| <= |methods|
    ensures methods != [] ==> r.issued != []
  {
    if methods == [] then ProbeResult(Undecided, [])
    else
      var v := Classify(respond(methods[0]));
      if v.Decided? then ProbeResult(v, [methods[0]])
      else
        var rest := RunProbes(methods[1..], respond);
        ProbeResult(rest.verdict, [methods[0]] + rest.issued)
  }

  /** Every method before position `k` of `ms` was undecided. */
  predicate UndecidedBefore(ms: seq<HttpMethod>, respond: HttpMethod -> Outcome, k: int) {
    forall j :: 0 <= j < k && j < |ms| ==> Classify(respond(ms[j])) == Undecided
  }

  /** The loop's result, characterised without reference to the recursion:
      the methods sent form a prefix of `methods`; every one of them but the
      last was undecided; a decided verdict is the last one's; and an
      undecided verdict means that every method was sent and none decided. */
  lemma {:induction false} RunProbesFirstDecisive(methods: seq<HttpMethod>, respond: HttpMethod -> Outcome)
    ensures var r := RunProbes(methods, respond);
      && r.issued == methods[..|r.issued|]
      && UndecidedBefore(r.issued, respond, |r.issued| - 1)
      && (r.verdict.Decided? ==> Classify(respond(r.issued[|r.issued| - 1])) == r.verdict)
      && (r.verdict.Undecided? ==> r.issued == methods && UndecidedBefore(methods, respond, |methods|))
  {
    if methods != [] {
      var rest := methods[1..];
      RunProbesFirstDecisive(rest, respond);
      var tail := RunProbes(rest, respond);
      var r := RunProbes(methods, respond);
      if Classify(respond(methods[0])).Undecided? {
        assert r.issued == [methods[0]] + tail.issued;
        assert rest[..|tail.issued|] == tail.issued;
        assert methods[..|r.issued|] == [methods[0]] + rest[..|tail.issued|];
        forall j | 0 <= j < |r.issued| - 1
          ensures Classify(respond(r.issued[j])) == Undecided
        {
          if j > 0 {
            assert r.issued[j] == tail.issued[j - 1];
          }
        }
        if r.verdict.Undecided? {
          forall j | 0 <= j < |methods|
            ensures Classify(respond(methods[j])) == Undecided
          {
            if j > 0 {
              assert methods[j] == rest[j - 1];
            }
          }
        }
      }
    }
  }

  /** The `for method in [...]` loop with its `break`s, written as a loop.
      It sends the same methods and reaches the same verdict as RunProbes. */
  method ProbeLoop(methods: seq<HttpMethod>, respond: HttpMethod -> Outcome)
    returns (verdict: Verdict, issued: seq<HttpMethod>)
    ensures verdict == RunProbes(methods, respond).verdict
    ensures issued == RunProbes(methods, respond).issued
  {
    verdict := Undecided;
    issued := [];
    var rest := methods;
    while rest != []
      invariant RunProbes(methods, respond).verdict == RunProbes(rest, respond).verdict
      invariant RunProbes(methods, respond).issued == issued + RunProbes(rest, respond).issued
      decreases |rest|
    {
      var m := rest[0];
      var v := Classify(respond(m));
      ghost var tail := RunProbes(rest[1..], respond).issued;
      assert issued + ([m] + tail) == (issued + [m]) + tail;
      issued := issued + [m];
      if v.Decided? {
        verdict := v;
        return;
      }
      rest := rest[1..];
    }
  }

  /** With the source's method list: HEAD is always sent; GET is sent exactly
      when HEAD was undecided; never more than these two; and the verdict is
      that of the last method sent. */
  lemma ProbeOrder(respond: HttpMethod -> Outcome)
    ensures var r := RunProbes(Methods, respond);
      && (Classify(respond(Head)).Decided? ==> r == ProbeResult(Classify(respond(Head)), [Head]))
      && (Classify(respond(Head)).Undecided? ==> r == ProbeResult(Classify(respond(Get)), [Head, Get]))
  {
  }
}
