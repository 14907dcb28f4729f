/**
 * Middleware and the continuation chain (src/middleware.rs, and the chain
 * built by `handle_request` in src/api.rs).
 *
 * A middleware's function receives the request, the state and a `Next`, and
 * may call `next.run` at most once, since `run` consumes `Next`. The model
 * gives each function-based middleware a behaviour: for a request and state it
 * either answers by itself, or passes a (possibly changed) request on and
 * then transforms the response that comes back. The conditional `When`
 * middleware of the helpers crate (rust-api-middleware/helpers/src/lib.rs) is
 * the second kind of middleware. Every stage records an event, so the order
 * in which stages run, and whether the handler ran at all, can be stated.
 */
module Middleware {
  import opened Wrappers
  import R = Responses
  import opened TypeMap
  import opened Requests

  /** `Arc<S>`: the unit state of `RustApi::new`, or the application's state. */
  datatype State = Unit | AppState(value: AnyValue)

  /** A route handler: an identifying tag and the response it gives. */
  datatype Handler = Handler(tag: nat, call: (Request, State) -> R.Res)

  /** What a middleware function does with one request. */
  datatype Step =
    | Respond(res: R.Res)
    | Proceed(req: Request, after: R.Res -> R.Res)

  datatype Middleware =
    | FnMiddleware(tag: nat, f: (Request, State) -> Step)
    | When(inner: Middleware, condition: (Request, State) -> bool)

  /**
   * The closure a `Next` holds: the handler itself, or a middleware wrapped
   * around the rest of the chain together with the state it captured.
   */
  datatype Cont =
    | Call(handler: Handler)
    | Wrap(mw: Middleware, rest: Cont, captured: State)

  /** `Next`: the continuation and the state `run` passes to it. */
  datatype Next = Next(cont: Cont, state: State)

  datatype Event = Entered(tag: nat) | Handled(tag: nat)

  /** A response and the stages that ran to produce it, in order. */
  datatype Outcome = Outcome(res: R.Res, log: seq<Event>)

  /** Every event but the last is a middleware being entered: the handler, if it ran, ran last. */
  predicate WellOrdered(log: seq<Event>) {
    |log| >= 1 && forall i | 0 <= i < |log| - 1 :: log[i].Entered?
  }

  /**
   * Calling a continuation. A wrapped middleware ignores the state it is
   * called with and uses the one it captured, as the closures built in
   * `handle_request` do.
   */
  function Invoke(c: Cont, req: Request, st: State): (o: Outcome)
    ensures WellOrdered(o.log)
    decreases c, 0
  {
    match c
    case Call(h) => Outcome(h.call(req, st), [Handled(h.tag)])
    case Wrap(mw, rest, captured) => Handle(mw, req, captured, Next(rest, captured))
  }

  /** `Next::new`. */
  function NextNew(c: Cont, st: State): Next
  {
    Next(c, st)
  }

  /** `Next::run`: the continuation called with the request unchanged and the state `Next` holds. */
  function Run(next: Next, req: Request): (o: Outcome)
    ensures WellOrdered(o.log)
    decreases next.cont, 1
  {
    Invoke(next.cont, req, next.state)
  }

  /** `Middleware::handle` for both kinds of middleware. */
  function Handle(mw: Middleware, req: Request, st: State, next: Next): (o: Outcome)
    ensures WellOrdered(o.log)
    decreases next.cont, 2, mw
  {
    match mw
    case FnMiddleware(tag, f) =>
      (match f(req, st)
       case Respond(res) => Outcome(res, [Entered(tag)])
       case Proceed(req', after) =>
         var o := Run(next, req');
         Outcome(after(o.res), [Entered(tag)] + o.log))
    case When(inner, condition) =>
      if condition(req, st) then Handle(inner, req, st, next) else Run(next, req)
  }

  /** `from_fn`: the function wrapped as it is. */
  function FromFn(tag: nat, f: (Request, State) -> Step): (mw: Middleware)
    ensures mw.FnMiddleware? && mw.f == f
  {
    FnMiddleware(tag, f)
  }

  /** `middleware`: an alias for `from_fn`. */
  function MiddlewareFn(tag: nat, f: (Request, State) -> Step): (mw: Middleware)
    ensures mw == FromFn(tag, f)
  {
    FromFn(tag, f)
  }

  /**
   * The chain `handle_request` composes: the first middleware outermost,
   * the handler innermost, every layer capturing the same state.
   */
  function Fold(mws: seq<Middleware>, h: Handler, st: State): Cont
  {
    if mws == [] then Call(h) else Wrap(mws[0], Fold(mws[1..], h, st), st)
  }

  /** The tag of the function-based middleware a middleware runs. */
  function TagOf(mw: Middleware): nat
  {
    match mw
    case FnMiddleware(tag, _) => tag
    case When(inner, _) => TagOf(inner)
  }

  /** The events of middleware that each run once, in order. */
  function EnteredTags(mws: seq<Middleware>): (log: seq<Event>)
    ensures |log| == |mws|
  {
    if mws == [] then [] else [Entered(TagOf(mws[0]))] + EnteredTags(mws[1..])
  }

  /** A function-based middleware that passes every request on. */
  ghost predicate AlwaysProceeds(mw: Middleware) {
    mw.FnMiddleware? && forall req, st :: mw.f(req, st).Proceed?
  }

  /** A function-based middleware that answers every request by itself. */
  ghost predicate AlwaysResponds(mw: Middleware) {
    mw.FnMiddleware? && forall req, st :: mw.f(req, st).Respond?
  }

  /** The request the handler receives when every middleware passes it on: each one's output is the next one's input. */
  ghost function Forwarded(mws: seq<Middleware>, req: Request, st: State): Request
    requires forall i | 0 <= i < |mws| :: AlwaysProceeds(mws[i])
  {
    if mws == [] then req
    else
      assert AlwaysProceeds(mws[0]);
      Forwarded(mws[1..], mws[0].f(req, st).req, st)
  }

  /**
   * The handler's response carried back out through every middleware's
   * `after`, the innermost (last registered) first.
   */
  ghost function Unwound(mws: seq<Middleware>, req: Request, st: State, res: R.Res): R.Res
    requires forall i | 0 <= i < |mws| :: AlwaysProceeds(mws[i])
  {
    if mws == [] then res
    else
      assert AlwaysProceeds(mws[0]);
      var step := mws[0].f(req, st);
      step.after(Unwound(mws[1..], step.req, st, res))
  }

  // ---------------------------------------------------------------------------
  // Properties

  /**
   * `Next::run` passes the request unchanged with the state captured when
   * the `Next` was made; a wrapped layer gives the same outcome whatever state
   * it is called with.
   */
  lemma RunUsesCapturedState(c: Cont, st: State, req: Request, other: State)
    ensures Run(NextNew(c, st), req) == Invoke(c, req, st)
    ensures c.Wrap? ==> Invoke(c, req, st) == Invoke(c, req, other)
  {
  }

  /**
   * `FnMiddleware::handle` is the function's behaviour: an answer is the
   * response and the handler does not run; passing on runs the rest of the
   * chain exactly once, on the request the function produced.
   */
  lemma FnMiddlewareHandle(tag: nat, f: (Request, State) -> Step, req: Request, st: State, next: Next)
    ensures f(req, st).Respond? ==> Handle(FnMiddleware(tag, f), req, st, next) == Outcome(f(req, st).res, [Entered(tag)])
    ensures f(req, st).Proceed? ==>
      var o := Run(next, f(req, st).req);
      Handle(FnMiddleware(tag, f), req, st, next) == Outcome(f(req, st).after(o.res), [Entered(tag)] + o.log)
  {
  }

  /** With no middleware the chain is the handler, called once with the request and state. */
  lemma EmptyChainCallsHandler(h: Handler, req: Request, st: State)
    ensures Invoke(Fold([], h, st), req, st) == Outcome(h.call(req, st), [Handled(h.tag)])
  {
  }

  /**
   * When every middleware passes the request on, each runs once, in
   * registration order, and then the handler runs, on the request as the
   * middleware passed it down; the response is the handler's, transformed on
   * the way out by each middleware, the innermost first.
   */
  lemma {:induction false} ForwardOrder(mws: seq<Middleware>, h: Handler, req: Request, st: State)
    requires forall i | 0 <= i < |mws| :: AlwaysProceeds(mws[i])
    ensures Invoke(Fold(mws, h, st), req, st).log == EnteredTags(mws) + [Handled(h.tag)]
    ensures Invoke(Fold(mws, h, st), req, st).res == Unwound(mws, req, st, h.call(Forwarded(mws, req, st), st))
  {
    if mws != [] {
      var step := mws[0].f(req, st);
      assert step.Proceed?;
      var rest := Fold(mws[1..], h, st);
      ForwardOrder(mws[1..], h, step.req, st);
      var o := Invoke(rest, step.req, st);
      assert Run(Next(rest, st), step.req) == o;
      assert Handle(mws[0], req, st, Next(rest, st)) == Outcome(step.after(o.res), [Entered(TagOf(mws[0]))] + o.log);
    }
  }

  /**
   * A middleware that answers by itself stops the chain: the ones before it
   * run in order, the ones after it and the handler never run.
   */
  lemma {:induction false} ShortCircuit(mws: seq<Middleware>, k: nat, h: Handler, req: Request, st: State)
    requires k < |mws|
    requires forall i | 0 <= i < k :: AlwaysProceeds(mws[i])
    requires AlwaysResponds(mws[k])
    ensures Invoke(Fold(mws, h, st), req, st).log == EnteredTags(mws[..k + 1])
    ensures Handled(h.tag) !in Invoke(Fold(mws, h, st), req, st).log
  {
    var step := mws[0].f(req, st);
    var rest := Fold(mws[1..], h, st);
    if k == 0 {
      assert step.Respond?;
      assert mws[..1] == [mws[0]];
      assert Handle(mws[0], req, st, Next(rest, st)).log == [Entered(TagOf(mws[0]))];
    } else {
      assert step.Proceed?;
      ShortCircuit(mws[1..], k - 1, h, step.req, st);
      var o := Invoke(rest, step.req, st);
      assert Run(Next(rest, st), step.req) == o;
      assert Handle(mws[0], req, st, Next(rest, st)).log == [Entered(TagOf(mws[0]))] + o.log;
      assert mws[1..][..k] == mws[1..k + 1];
      assert mws[..k + 1] == [mws[0]] + mws[1..k + 1];
    }
    EnteredTagsNoHandled(mws[..k + 1]);
  }

  lemma {:induction false} EnteredTagsNoHandled(mws: seq<Middleware>)
    ensures forall e | e in EnteredTags(mws) :: e.Entered?
  {
    if mws != [] {
      EnteredTagsNoHandled(mws[1..]);
    }
  }
}
