/**
 * The conditional middleware of the helpers crate
 * (rust-api-middleware/helpers/src/lib.rs): `When` runs the middleware it
 * wraps only when its condition holds on the request and the state.
 */
module Helpers {
  import opened Requests
  import opened Middleware

  /** `When::new`: the middleware and the condition, stored as given. */
  function WhenNew(inner: Middleware, condition: (Request, State) -> bool): (w: Middleware)
    ensures w.When? && w.inner == inner && w.condition == condition
  {
    When(inner, condition)
  }

  /**
   * `When::handle`: the condition is evaluated once, on the request as it
   * arrived; when it holds the result is the wrapped middleware's, and when
   * it does not the wrapper is transparent and the rest of the chain runs.
   */
  lemma WhenHandle(inner: Middleware, condition: (Request, State) -> bool, req: Request, st: State, next: Next)
    ensures condition(req, st) ==> Handle(WhenNew(inner, condition), req, st, next) == Handle(inner, req, st, next)
    ensures !condition(req, st) ==> Handle(WhenNew(inner, condition), req, st, next) == Run(next, req)
  {
  }

  /** Two continuations that give the same outcome on every request. */
  ghost predicate SameBehaviour(x: Cont, y: Cont, st: State) {
    forall r :: Invoke(x, r, st) == Invoke(y, r, st)
  }

  /** A middleware treats two continuations with the same behaviour alike. */
  lemma {:induction false} HandleCongruence(mw: Middleware, req: Request, st: State, x: Cont, y: Cont)
    requires SameBehaviour(x, y, st)
    ensures Handle(mw, req, st, Next(x, st)) == Handle(mw, req, st, Next(y, st))
  {
    match mw
    case FnMiddleware(tag, f) =>
      match f(req, st) {
        case Respond(_) =>
        case Proceed(req', _) =>
          assert Run(Next(x, st), req') == Run(Next(y, st), req');
      }
    case When(inner, condition) =>
      if condition(req, st) {
        HandleCongruence(inner, req, st, x, y);
      } else {
        assert Run(Next(x, st), req) == Run(Next(y, st), req);
      }
  }

  /**
   * A `When` whose condition never holds can be taken out of a chain at any
   * position without changing the response or the stages that run.
   */
  lemma {:induction false} NeverWhenRemovable(
    before: seq<Middleware>, w: Middleware, after: seq<Middleware>, h: Handler, st: State)
    requires w.When? && forall r: Request, s: State :: !w.condition(r, s)
    ensures SameBehaviour(Fold(before + [w] + after, h, st), Fold(before + after, h, st), st)
  {
    if before == [] {
      assert before + [w] + after == [w] + after;
      assert before + after == after;
      forall r: Request
        ensures Invoke(Fold([w] + after, h, st), r, st) == Invoke(Fold(after, h, st), r, st)
      {
        assert ([w] + after)[1..] == after;
        assert Fold([w] + after, h, st) == Wrap(w, Fold(after, h, st), st);
        assert !w.condition(r, st);
        assert Handle(w, r, st, Next(Fold(after, h, st), st)) == Run(Next(Fold(after, h, st), st), r);
      }
    } else {
      var x := Fold(before[1..] + [w] + after, h, st);
      var y := Fold(before[1..] + after, h, st);
      NeverWhenRemovable(before[1..], w, after, h, st);
      assert (before + [w] + after)[1..] == before[1..] + [w] + after;
      assert (before + after)[1..] == before[1..] + after;
      forall r: Request
        ensures Invoke(Fold(before + [w] + after, h, st), r, st) == Invoke(Fold(before + after, h, st), r, st)
      {
        HandleCongruence(before[0], r, st, x, y);
      }
    }
  }
}
