/**
 * The retrying call executor `get_llm_results`
 * (tools/datasets/convert_datasets.py): a generator that sends each
 * pending request to the chat-completion service and yields
 * (request, response-or-null) pairs, upgrading the model on a
 * context-length error, backing off linearly on any other failure and
 * re-raising other bad-request errors.
 *
 * The service is an oracle: a finite sequence of call outcomes consumed
 * one per call. Sleeping is replaced by recording each delay in seconds.
 */
module Executor {
  import opened Wrappers
  import opened Requests

  /** What one call to the service does. */
  datatype Outcome =
    | Success(resp: Response)           // the call returned a response
    | ContextExceeded                   // BadRequestError with code "context_length_exceeded"
    | OtherBadRequest(code: string)     // BadRequestError with any other code
    | Transient                         // any other exception

  /** What one resumption of the generator produces. */
  datatype Event =
    | Yielded(req: Request, result: Option<Response>)  // a (request, response-or-null) pair
    | Raised(code: string)                             // the bad-request error escapes
    | Exhausted                                        // all requests served: StopIteration
    | Starved                                          // the outcome oracle ran out

  /** The result of serving the current request until the generator next yields or stops. */
  datatype Served = Served(event: Event, req: Request, tryNum: nat, advance: bool,
                           sleeps: seq<nat>, used: nat)

  /**
   * The `while True` retry loop for one request, from attempt counter
   * `tryNum`, against the outcomes `outs`. `advance` says whether the
   * generator moves on to the next request (the `break` after a success).
   */
  function Serve(req: Request, tryNum: nat, outs: seq<Outcome>): (s: Served)
    ensures s.used <= |outs|
    decreases |outs|
  {
    if outs == [] then Served(Starved, req, tryNum, false, [], 0)
    else
      match outs[0]
      case Success(resp) => Served(Yielded(req, Some(resp)), req, tryNum, true, [], 1)
      case ContextExceeded =>
        if req.model == Turbo then
          var s := Serve(req.(model := Turbo16k), tryNum, outs[1..]);
          s.(used := s.used + 1)
        else
          Served(Yielded(req, None), req, tryNum, false, [], 1)
      case OtherBadRequest(code) => Served(Raised(code), req, tryNum, false, [], 1)
      case Transient =>
        var s := Serve(req, tryNum + 1, outs[1..]);
        s.(sleeps := [(tryNum + 1) * 60] + s.sleeps, used := s.used + 1)
  }

  /**
   * What every run of the retry loop guarantees: it consumes at least one
   * outcome when there is one; it changes the request only by upgrading
   * the smaller model to the larger one, never its messages; it moves on
   * exactly when a response arrived; it yields the request as last sent;
   * and it sleeps once per increment of the attempt counter.
   */
  lemma {:induction false} ServeFacts(req: Request, tryNum: nat, outs: seq<Outcome>)
    ensures var s := Serve(req, tryNum, outs);
      && (outs != [] ==> 0 < s.used)
      && s.req.messages == req.messages && s.req.temperature == req.temperature
      && (s.req.model == req.model || (req.model == Turbo && s.req.model == Turbo16k))
      && (s.advance <==> s.event.Yielded? && s.event.result.Some?)
      && (s.event.Yielded? ==> s.event.req == s.req)
      && !s.event.Exhausted?
      && tryNum <= s.tryNum && |s.sleeps| == s.tryNum - tryNum
    decreases |outs|
  {
    if outs != [] {
      match outs[0]
      case Success(_) =>
      case ContextExceeded =>
        if req.model == Turbo {
          ServeFacts(req.(model := Turbo16k), tryNum, outs[1..]);
        }
      case OtherBadRequest(_) =>
      case Transient =>
        ServeFacts(req, tryNum + 1, outs[1..]);
    }
  }

  /** The delays, in seconds, of `k` consecutive transient failures after attempt counter `tryNum`. */
  function Backoff(tryNum: nat, k: nat): (d: seq<nat>)
  {
    seq(k, i requires 0 <= i < k => (tryNum + i + 1) * 60)
  }

  /** `k` transient failures in a row. */
  function Transients(k: nat): (outs: seq<Outcome>)
    ensures |outs| == k && forall i :: 0 <= i < k ==> outs[i] == Transient
  {
    if k == 0 then [] else [Transient] + Transients(k - 1)
  }

  /**
   * Linear, uncapped backoff: `k` transient failures in a row raise the
   * attempt counter by `k`, wait 60, 120, ... seconds more each time, and
   * then the request is served as it would have been from the raised counter.
   */
  lemma {:induction false} TransientBackoff(req: Request, tryNum: nat, k: nat, outs: seq<Outcome>)
    ensures Serve(req, tryNum, Transients(k) + outs)
         == var s := Serve(req, tryNum + k, outs);
            s.(sleeps := Backoff(tryNum, k) + s.sleeps, used := k + s.used)
    decreases k
  {
    if k > 0 {
      var outs' := Transients(k - 1) + outs;
      assert Transients(k) + outs == [Transient] + outs';
      TransientStep(req, tryNum, outs');
      TransientBackoff(req, tryNum + 1, k - 1, outs);
      WaitThenBackoff(Serve(req, tryNum, [Transient] + outs'), Serve(req, tryNum + 1, outs'), Serve(req, tryNum + 1 + (k - 1), outs), tryNum, k);
    } else {
      assert Transients(k) + outs == outs;
      assert Backoff(tryNum, 0) == [];
    }
  }

  /** One transient failure: wait `(tryNum + 1) * 60` seconds and retry with the counter raised. */
  lemma TransientStep(req: Request, tryNum: nat, outs: seq<Outcome>)
    ensures Serve(req, tryNum, [Transient] + outs)
         == var s := Serve(req, tryNum + 1, outs); s.(sleeps := [(tryNum + 1) * 60] + s.sleeps, used := s.used + 1)
  {
    assert ([Transient] + outs)[1..] == outs;
  }

  /** One wait of `(tryNum + 1) * 60` seconds followed by `k - 1` more backoff steps is `k` backoff steps. */
  lemma WaitThenBackoff(x: Served, x1: Served, s: Served, tryNum: nat, k: nat)
    requires k > 0
    requires x == x1.(sleeps := [(tryNum + 1) * 60] + x1.sleeps, used := x1.used + 1)
    requires x1 == s.(sleeps := Backoff(tryNum + 1, k - 1) + s.sleeps, used := k - 1 + s.used)
    ensures x == s.(sleeps := Backoff(tryNum, k) + s.sleeps, used := k + s.used)
  {
    assert Backoff(tryNum, k) == [(tryNum + 1) * 60] + Backoff(tryNum + 1, k - 1);
    assert [(tryNum + 1) * 60] + (Backoff(tryNum + 1, k - 1) + s.sleeps) == Backoff(tryNum, k) + s.sleeps;
  }

  /** The k-th consecutive transient failure of a request waits k minutes. */
  lemma {:induction false} KthFailureWaits(req: Request, k: nat, outs: seq<Outcome>)
    requires k > 0
    ensures |Serve(req, 0, Transients(k) + outs).sleeps| >= k
    ensures Serve(req, 0, Transients(k) + outs).sleeps[k - 1] == 60 * k
  {
    TransientBackoff(req, 0, k, outs);
  }

  /**
   * A context-length error on the smaller model switches the request to
   * the larger model and retries at once, with the same attempt counter
   * and no delay.
   */
  lemma UpgradeRetries(req: Request, tryNum: nat, outs: seq<Outcome>)
    requires req.model == Turbo
    ensures Serve(req, tryNum, [ContextExceeded] + outs)
         == var s := Serve(req.(model := Turbo16k), tryNum, outs); s.(used := s.used + 1)
  {
    assert ([ContextExceeded] + outs)[1..] == outs;
  }

  /**
   * A context-length error on any other model yields (request, null) and
   * does not move on: the same request is tried again on the next resumption.
   */
  lemma SkipDoesNotAdvance(req: Request, tryNum: nat, outs: seq<Outcome>)
    requires req.model != Turbo
    ensures Serve(req, tryNum, [ContextExceeded] + outs)
         == Served(Yielded(req, None), req, tryNum, false, [], 1)
  {
  }

  /** Any other bad-request error escapes. */
  lemma OtherBadRequestRaises(req: Request, tryNum: nat, code: string, outs: seq<Outcome>)
    ensures Serve(req, tryNum, [OtherBadRequest(code)] + outs).event == Raised(code)
  {
  }

  /**
   * The suspended generator: its list of requests (whose current entry
   * the model upgrade mutates), the position of the current request and
   * its attempt counter.
   */
  datatype Gen = Gen(inputs: seq<Request>, pos: nat, tryNum: nat)

  datatype Pulled = Pulled(event: Event, gen: Gen, sleeps: seq<nat>, used: nat)

  /** One resumption of the generator (one `next()`). */
  function Pull(g: Gen, outs: seq<Outcome>): (p: Pulled)
    ensures p.used <= |outs|
  {
    if g.pos >= |g.inputs| then Pulled(Exhausted, g, [], 0)
    else
      var s := Serve(g.inputs[g.pos], g.tryNum, outs);
      var inputs := g.inputs[g.pos := s.req];
      Pulled(s.event,
             if s.advance then Gen(inputs, g.pos + 1, 0) else Gen(inputs, g.pos, s.tryNum),
             s.sleeps, s.used)
  }

  /** A run of pulls: the pairs yielded, the event that stopped it early (if any), the final state. */
  datatype Trace = Trace(pairs: seq<(Request, Option<Response>)>, stop: Option<Event>,
                         gen: Gen, sleeps: seq<nat>, used: nat)

  /**
   * Up to `n` pulls, stopping at the first one that does not yield a pair:
   * what `zip(inds, generator)` draws from the generator when `|inds| == n`.
   */
  function Drive(g: Gen, outs: seq<Outcome>, n: nat): (t: Trace)
    ensures |t.pairs| <= n && t.used <= |outs|
    decreases n
  {
    if n == 0 then Trace([], None, g, [], 0)
    else
      var p := Pull(g, outs);
      if p.event.Yielded? then
        var t := Drive(p.gen, outs[p.used..], n - 1);
        Trace([(p.event.req, p.event.result)] + t.pairs, t.stop, t.gen, p.sleeps + t.sleeps, p.used + t.used)
      else
        Trace([], Some(p.event), p.gen, p.sleeps, p.used)
  }

  /** No pair carries a null response. */
  ghost predicate AllAnswered(pairs: seq<(Request, Option<Response>)>)
  {
    forall j :: 0 <= j < |pairs| ==> pairs[j].1.Some?
  }

  /** The j-th pair carries the messages of request `pos + j` of `inputs`. */
  ghost predicate Aligned(pairs: seq<(Request, Option<Response>)>, inputs: seq<Request>, pos: nat)
  {
    && pos + |pairs| <= |inputs|
    && forall j :: 0 <= j < |pairs| ==> pairs[j].0.messages == inputs[pos + j].messages
  }

  /**
   * As long as no pair carries a null response, the j-th pair carries the
   * j-th remaining request (up to the model upgrade): its messages are
   * exactly those of that request.
   */
  lemma {:induction false} DriveAligned(g: Gen, outs: seq<Outcome>, n: nat)
    requires g.pos <= |g.inputs|
    ensures AllAnswered(Drive(g, outs, n).pairs) ==> Aligned(Drive(g, outs, n).pairs, g.inputs, g.pos)
    decreases n
  {
    if n == 0 || g.pos == |g.inputs| {
      return;
    }
    var t := Drive(g, outs, n);
    var p := Pull(g, outs);
    if !p.event.Yielded? {
      assert t.pairs == [];
      return;
    }
    var t' := Drive(p.gen, outs[p.used..], n - 1);
    assert t.pairs == [(p.event.req, p.event.result)] + t'.pairs;
    if !AllAnswered(t.pairs) {
      return;
    }
    assert t.pairs[0].1.Some?;
    var s := Serve(g.inputs[g.pos], g.tryNum, outs);
    ServeFacts(g.inputs[g.pos], g.tryNum, outs);
    assert s.advance;
    assert p.gen == Gen(g.inputs[g.pos := s.req], g.pos + 1, 0);
    assert AllAnswered(t'.pairs) by {
      forall j | 0 <= j < |t'.pairs| ensures t'.pairs[j].1.Some? {
        assert t'.pairs[j] == t.pairs[j + 1];
      }
    }
    DriveAligned(p.gen, outs[p.used..], n - 1);
    forall j | 0 <= j < |t.pairs|
      ensures t.pairs[j].0.messages == g.inputs[g.pos + j].messages
    {
      if j > 0 {
        assert t.pairs[j] == t'.pairs[j - 1];
      }
    }
  }

  /**
   * The request as the skip path leaves it: a context-length error moves a
   * request on the smaller model to the larger one and leaves any other
   * request as it is.
   */
  function Widened(req: Request): Request
  {
    if req.model == Turbo then req.(model := Turbo16k) else req
  }

  /**
   * The skip path has no `break`: under repeated context-length errors,
   * the first error upgrades a request on the smaller model (consuming one
   * extra outcome), and from then on each of the `n` pulls yields that same
   * widened request with a null response, so `zip` pairs it with every
   * following pending index. The run is not stopped.
   */
  lemma {:induction false} DriveRepeatsSkip(g: Gen, outs: seq<Outcome>, n: nat)
    requires g.pos < |g.inputs|
    requires n + (if g.inputs[g.pos].model == Turbo then 1 else 0) <= |outs|
    requires forall k :: 0 <= k < |outs| ==> outs[k].ContextExceeded?
    ensures Drive(g, outs, n).pairs == seq(n, _ => (Widened(g.inputs[g.pos]), None))
    ensures Drive(g, outs, n).stop == None
  {
    var req := g.inputs[g.pos];
    if req.model != Turbo {
      RepeatSkip(g, outs, n);
    } else if n > 0 {
      var wide := req.(model := Turbo16k);
      assert outs == [ContextExceeded] + outs[1..];
      assert outs[1..] == [ContextExceeded] + outs[2..];
      UpgradeRetries(req, g.tryNum, outs[1..]);
      SkipDoesNotAdvance(wide, g.tryNum, outs[2..]);
      var g' := Gen(g.inputs[g.pos := wide], g.pos, g.tryNum);
      var p := Pull(g, outs);
      assert p.event == Yielded(wide, None) && p.gen == g' && p.used == 2;
      RepeatSkip(g', outs[2..], n - 1);
      var none: Option<Response> := None;
      assert [(wide, none)] + seq(n - 1, _ => (wide, none)) == seq(n, _ => (wide, none));
    }
  }

  /** The skip loop once the current request is off the smaller model: one outcome per pull. */
  lemma {:induction false} RepeatSkip(g: Gen, outs: seq<Outcome>, n: nat)
    requires g.pos < |g.inputs| && g.inputs[g.pos].model != Turbo
    requires n <= |outs| && forall k :: 0 <= k < |outs| ==> outs[k].ContextExceeded?
    ensures Drive(g, outs, n).pairs == seq(n, _ => (g.inputs[g.pos], None))
    ensures Drive(g, outs, n).stop == None
    decreases n
  {
    if n > 0 {
      var req := g.inputs[g.pos];
      assert outs == [ContextExceeded] + outs[1..];
      SkipDoesNotAdvance(req, g.tryNum, outs[1..]);
      var p := Pull(g, outs);
      assert p.gen == Gen(g.inputs, g.pos, g.tryNum) == g;
      RepeatSkip(g, outs[1..], n - 1);
      var none: Option<Response> := None;
      assert [(req, none)] + seq(n - 1, _ => (req, none)) == seq(n, _ => (req, none));
    }
  }

  /** A run that no event stopped drew all `n` pairs. */
  lemma {:induction false} DriveCompletes(g: Gen, outs: seq<Outcome>, n: nat)
    ensures Drive(g, outs, n).stop.None? ==> |Drive(g, outs, n).pairs| == n
    decreases n
  {
    if n > 0 {
      var p := Pull(g, outs);
      if p.event.Yielded? {
        DriveCompletes(p.gen, outs[p.used..], n - 1);
      }
    }
  }

  /**
   * The run `t0` started with the delays `base` recorded and `baseUsed`
   * outcomes consumed; `pairs` have been drawn since, the delays now
   * recorded are `sleeps` and `served` outcomes are consumed. Driving the
   * generator from `g` over `outs` for `n` more pulls completes `t0`.
   */
  ghost predicate Progress(t0: Trace, base: seq<nat>, baseUsed: nat, pairs: seq<(Request, Option<Response>)>,
                           g: Gen, outs: seq<Outcome>, n: nat, sleeps: seq<nat>, served: nat)
  {
    var t := Drive(g, outs, n);
    && t0.pairs == pairs + t.pairs && t0.stop == t.stop && t0.gen == t.gen
    && base + t0.sleeps == sleeps + t.sleeps && baseUsed + t0.used == served + t.used
  }

  lemma ProgressStep(t0: Trace, base: seq<nat>, baseUsed: nat, pairs: seq<(Request, Option<Response>)>,
                     g: Gen, outs: seq<Outcome>, n: nat, sleeps: seq<nat>, served: nat)
    requires Progress(t0, base, baseUsed, pairs, g, outs, n, sleeps, served)
    requires n > 0 && Pull(g, outs).event.Yielded?
    ensures var p := Pull(g, outs);
      Progress(t0, base, baseUsed, pairs + [(p.event.req, p.event.result)], p.gen, outs[p.used..], n - 1,
               sleeps + p.sleeps, served + p.used)
  {
    var p := Pull(g, outs);
    var t' := Drive(p.gen, outs[p.used..], n - 1);
    assert sleeps + (p.sleeps + t'.sleeps) == (sleeps + p.sleeps) + t'.sleeps;
    assert pairs + ([(p.event.req, p.event.result)] + t'.pairs) == (pairs + [(p.event.req, p.event.result)]) + t'.pairs;
  }

  lemma ProgressStop(t0: Trace, base: seq<nat>, baseUsed: nat, pairs: seq<(Request, Option<Response>)>,
                     g: Gen, outs: seq<Outcome>, n: nat, sleeps: seq<nat>, served: nat)
    requires Progress(t0, base, baseUsed, pairs, g, outs, n, sleeps, served)
    requires n > 0 && !Pull(g, outs).event.Yielded?
    ensures var p := Pull(g, outs);
      && t0.pairs == pairs && t0.stop == Some(p.event) && t0.gen == p.gen
      && base + t0.sleeps == sleeps + p.sleeps && baseUsed + t0.used == served + p.used
  {
  }

  lemma ProgressEnd(t0: Trace, base: seq<nat>, baseUsed: nat, pairs: seq<(Request, Option<Response>)>,
                    g: Gen, outs: seq<Outcome>, sleeps: seq<nat>, served: nat)
    requires Progress(t0, base, baseUsed, pairs, g, outs, 0, sleeps, served)
    ensures t0.pairs == pairs && t0.stop == None && t0.gen == g
    ensures base + t0.sleeps == sleeps && baseUsed + t0.used == served
  {
  }

  /**
   * The suspended `get_llm_results` generator together with the service
   * it calls: `service[served..]` are the outcomes still to come, and
   * `sleeps` records every backoff delay so far.
   */
  class CallStream {
    var inputs: seq<Request>
    var pos: nat
    var tryNum: nat
    const service: seq<Outcome>
    var served: nat
    var sleeps: seq<nat>

    ghost predicate Valid()
      reads this
    {
      served <= |service|
    }

    function State(): Gen
      reads this
    {
      Gen(inputs, pos, tryNum)
    }

    function Remaining(): seq<Outcome>
      reads this
      requires Valid()
    {
      service[served..]
    }

    constructor (inputs: seq<Request>, service: seq<Outcome>)
      ensures Valid() && State() == Gen(inputs, 0, 0)
      ensures this.service == service && served == 0 && sleeps == []
    {
      this.inputs := inputs;
      this.pos := 0;
      this.tryNum := 0;
      this.service := service;
      this.served := 0;
      this.sleeps := [];
    }

    /**
     * One attempt of the retry loop: send `req` and react to the next
     * outcome, retrying with `req'` and `t'` unless `done`.
     */
    method Attempt(req: Request, t: nat, ghost s0: Served, ghost sleeps0: seq<nat>, ghost served0: nat)
      returns (e: Event, req': Request, t': nat, advance: bool, done: bool)
      requires served < |service|
      requires Continues(s0, sleeps0, served0, Serve(req, t, service[served..]), sleeps, served)
      modifies this
      ensures served == old(served) + 1 && inputs == old(inputs) && pos == old(pos) && tryNum == old(tryNum)
      ensures !done ==> Continues(s0, sleeps0, served0, Serve(req', t', service[served..]), sleeps, served)
      ensures !done ==> !advance && e == Starved
      ensures done ==> Finished(s0, sleeps0, served0, e, req', t', advance, sleeps, served)
    {
      var o := service[served];
      assert service[served..] == [o] + service[served + 1..];
      served := served + 1;
      e, req', t', advance, done := Starved, req, t, false, false;
      match o {
        case Success(resp) =>
          e, advance, done := Yielded(req, Some(resp)), true, true;
        case ContextExceeded =>
          if req.model == Turbo {
            req' := req.(model := Turbo16k);
          } else {
            e, done := Yielded(req, None), true;
          }
        case OtherBadRequest(code) =>
          e, done := Raised(code), true;
        case Transient =>
          t' := t + 1;
          sleeps := sleeps + [t' * 60];
      }
    }

    /** Resume the generator until it yields, raises or runs out of requests. */
    method Next() returns (e: Event)
      requires Valid()
      modifies this
      ensures Valid()
      ensures var p := Pull(old(State()), old(Remaining()));
        && e == p.event && State() == p.gen
        && served == old(served) + p.used && sleeps == old(sleeps) + p.sleeps
    {
      if pos >= |inputs| {
        return Exhausted;
      }
      var req, t := inputs[pos], tryNum;
      ghost var s0 := Serve(req, t, service[served..]);
      ghost var served0, sleeps0 := served, sleeps;
      var advance, done := false, false;
      e := Starved;
      while !done && served < |service|
        invariant served0 <= served <= |service|
        invariant inputs == old(inputs) && pos == old(pos) && tryNum == old(tryNum)
        invariant !done ==> Continues(s0, sleeps0, served0, Serve(req, t, service[served..]), sleeps, served)
        invariant !done ==> !advance && e == Starved
        invariant done ==> Finished(s0, sleeps0, served0, e, req, t, advance, sleeps, served)
        decreases |service| - served, !done
      {
        e, req, t, advance, done := Attempt(req, t, s0, sleeps0, served0);
      }
      inputs := inputs[pos := req];
      if advance {
        pos, tryNum := pos + 1, 0;
      } else {
        tryNum := t;
      }
    }
  }

  /**
   * The retry loop started with the delays `base` recorded and `baseUsed`
   * outcomes consumed; resumed from `s`, with `sleeps` recorded and
   * `served` consumed now, it ends as it would have from the start `s0`.
   */
  ghost predicate Continues(s0: Served, base: seq<nat>, baseUsed: nat, s: Served, sleeps: seq<nat>, served: nat)
  {
    && s.event == s0.event && s.req == s0.req && s.tryNum == s0.tryNum && s.advance == s0.advance
    && base + s0.sleeps == sleeps + s.sleeps && baseUsed + s0.used == served + s.used
  }

  /** The retry loop, started from `base` and `baseUsed`, has ended exactly as `s0` says. */
  ghost predicate Finished(s0: Served, base: seq<nat>, baseUsed: nat, e: Event, req: Request, tryNum: nat,
                           advance: bool, sleeps: seq<nat>, served: nat)
  {
    && e == s0.event && req == s0.req && tryNum == s0.tryNum && advance == s0.advance
    && sleeps == base + s0.sleeps && served == baseUsed + s0.used
  }
}
