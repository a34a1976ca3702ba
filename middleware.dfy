/**
  Express-style middleware chains. A route is an ordered list of middleware;
  each either calls `next()` (possibly having stored something in
  `res.locals`) or `next(error)`, and the first error ends the chain.
 */
module Middleware {

  /** What a failing middleware passes to `next(err)`: a `{status, message}`
      object, or a TypeError thrown by the JavaScript runtime, which Express
      hands to the application's error handler in the same way. */
  datatype Failure = Reject(status: nat, message: string) | Thrown

  /** The outcome of one middleware: continue with the request-local state
      `locals`, or stop with a failure. */
  datatype Step<L> = Next(locals: L) | Stop(failure: Failure)

  type Handler<!Q, !L> = (Q, L) -> Step<L>

  /** What a route sends back: a success status with its payload, or the
      failure of the middleware that stopped it. */
  datatype Reply<T> = Sent(code: nat, data: T) | Failed(failure: Failure)

  /** A reply together with the record list as the route leaves it. */
  datatype Handled<T, R> = Handled(reply: Reply<T>, store: seq<R>)

  /** Runs `chain` on `req` from `locals`: the short-circuiting fold that
      Express performs with `next`. */
  function Run<Q, L(!new)>(chain: seq<Handler<Q, L>>, req: Q, locals: L): (r: Step<L>)
    ensures r.Stop? ==> chain != []
    ensures (forall k, l :: 0 <= k < |chain| ==> chain[k](req, l).Next?) ==> r.Next?
    decreases |chain|
  {
    if chain == [] then Next(locals)
    else match chain[0](req, locals)
      case Stop(f) => Stop(f)
      case Next(l) => Run(chain[1..], req, l)
  }

  /** Running the suffix of a chain from position `k`: the middleware at
      `k` runs first, and the rest runs only if it passes. */
  lemma RunFrom<Q, L(!new)>(chain: seq<Handler<Q, L>>, k: nat, req: Q, locals: L)
    requires k < |chain|
    ensures Run(chain[k..], req, locals) ==
            var s := chain[k](req, locals); if s.Stop? then s else Run(chain[k + 1..], req, s.locals)
  {
    assert chain[k..][1..] == chain[k + 1..];
  }

  /** Running two chains back to back is running their concatenation. */
  lemma {:induction false} RunAppend<Q, L(!new)>(a: seq<Handler<Q, L>>, b: seq<Handler<Q, L>>, req: Q, locals: L)
    ensures Run(a + b, req, locals) ==
            var s := Run(a, req, locals); if s.Stop? then s else Run(b, req, s.locals)
    decreases |a|
  {
    if a == [] {
      assert a + b == b;
    } else {
      assert (a + b)[0] == a[0];
      assert (a + b)[1..] == a[1..] + b;
      var first := a[0](req, locals);
      if first.Next? {
        RunAppend(a[1..], b, req, first.locals);
      }
    }
  }

  /** The first middleware that fails decides the chain's failure: whatever
      follows it is never run. */
  lemma RunFirstFailure<Q, L(!new)>(chain: seq<Handler<Q, L>>, req: Q, locals: L, k: nat, before: L, f: Failure)
    requires k < |chain|
    requires Run(chain[..k], req, locals) == Next(before)
    requires chain[k](req, before) == Stop(f)
    ensures Run(chain, req, locals) == Stop(f)
  {
    assert chain == chain[..k] + chain[k..];
    RunAppend(chain[..k], chain[k..], req, locals);
  }

  /** Every failure of a chain comes from one of its middleware, reached with
      every middleware before it passing. */
  lemma {:induction false} RunFailureHasCause<Q, L(!new)>(chain: seq<Handler<Q, L>>, req: Q, locals: L)
    requires Run(chain, req, locals).Stop?
    ensures exists k: nat, before: L :: k < |chain| && Run(chain[..k], req, locals) == Next(before) &&
                                       chain[k](req, before) == Run(chain, req, locals)
    decreases |chain|
  {
    assert chain[..0] == [];
    var first := chain[0](req, locals);
    if first.Stop? {
      assert Run(chain[..0], req, locals) == Next(locals);
    } else {
      var rest := chain[1..];
      RunFailureHasCause(rest, req, first.locals);
      var k: nat, before: L :| k < |rest| && Run(rest[..k], req, first.locals) == Next(before) &&
                               rest[k](req, before) == Run(rest, req, first.locals);
      assert chain[..k + 1] == [chain[0]] + rest[..k];
      RunAppend([chain[0]], rest[..k], req, locals);
      assert [chain[0]][1..] == [];
    }
  }
}
