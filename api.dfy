/**
 * The application (src/api.rs): route registration, the table of paths and
 * methods `build_router` makes from the registrations, and `handle_request`,
 * which matches a request against that table and runs the handler through
 * its middleware chain, or answers 404, 405 or 500.
 */
module Api {
  import opened Wrappers
  import opened Strings
  import opened Http
  import opened Errors
  import R = Responses
  import H = ErrorHandlers
  import IR = IntoResponse
  import opened TypeMap
  import opened Requests
  import opened Middleware
  import Routes
  import opened Routers

  /** What the table holds for one path and method: the handler and the middleware it runs under. */
  datatype Endpoint = Endpoint(handler: Handler, middlewares: seq<Middleware>)

  /** `HashMap<String, MethodHandlers>`: for every registered path, its methods. */
  type Table = map<string, map<Method, Endpoint>>

  // ---------------------------------------------------------------------------
  // Building the table

  /**
   * `build_router`'s choice of a route's middleware: the global list when the
   * route has none, the route's own when there is no global middleware, and
   * otherwise the global list followed by the route's.
   */
  function CombineGlobal(global: seq<Middleware>, own: seq<Middleware>): seq<Middleware>
  {
    if own == [] then global else if global == [] then own else global + own
  }

  /** Whichever branch is taken, the global middleware comes first and the route's own after it. */
  lemma CombineGlobalIsConcat(global: seq<Middleware>, own: seq<Middleware>)
    ensures CombineGlobal(global, own) == global + own
  {
  }

  /** One registration entered in the table: `entry(path).or_insert_with(HashMap::new).insert(method, ..)`. */
  function Register(t: Table, r: FlatRoute, global: seq<Middleware>): Table
  {
    var methods := if r.path in t then t[r.path] else map[];
    t[r.path := methods[r.httpMethod := Endpoint(r.handler, CombineGlobal(global, r.middlewares))]]
  }

  /** The table made from the registrations, entered in order. */
  function TableOf(rs: seq<FlatRoute>, global: seq<Middleware>): Table
    decreases |rs|
  {
    if rs == [] then map[] else Register(TableOf(rs[..|rs| - 1], global), rs[|rs| - 1], global)
  }

  /** Every path in the table has at least one method, so a 405 always lists some. */
  lemma {:induction false} TableOfNonEmpty(rs: seq<FlatRoute>, global: seq<Middleware>, p: string)
    requires p in TableOf(rs, global)
    ensures |TableOf(rs, global)[p]| > 0
    decreases |rs|
  {
    var n := |rs| - 1;
    var t0 := TableOf(rs[..n], global);
    if p != rs[n].path {
      TableOfNonEmpty(rs[..n], global, p);
    } else {
      var methods := if p in t0 then t0[p] else map[];
      assert rs[n].httpMethod in methods[rs[n].httpMethod := Endpoint(rs[n].handler, CombineGlobal(global, rs[n].middlewares))];
    }
  }

  /** Registration `i` is for path `p` and method `m`. */
  predicate Registers(rs: seq<FlatRoute>, i: int, p: string, m: Method) {
    0 <= i < |rs| && rs[i].path == p && rs[i].httpMethod == m
  }

  /** Registration `i` is the last one for path `p` and method `m`. */
  predicate LastFor(rs: seq<FlatRoute>, i: int, p: string, m: Method) {
    Registers(rs, i, p, m) && forall k | i < k < |rs| :: !Registers(rs, k, p, m)
  }

  /** What one registration does to a table: its own slot is set, every other slot is left as it was. */
  lemma RegisterLookup(t: Table, r: FlatRoute, global: seq<Middleware>, p: string, m: Method)
    ensures var t' := Register(t, r, global);
      && (p in t' <==> p in t || p == r.path)
      && (r.path == p && r.httpMethod == m ==>
            p in t' && m in t'[p] && t'[p][m] == Endpoint(r.handler, global + r.middlewares))
      && (!(r.path == p && r.httpMethod == m) ==>
            (p in t' && m in t'[p] <==> p in t && m in t[p])
            && (p in t && m in t[p] ==> t'[p][m] == t[p][m]))
  {
    CombineGlobalIsConcat(global, r.middlewares);
  }

  /** The table has a path exactly when some route was registered at it. */
  lemma {:induction false} TableOfPaths(rs: seq<FlatRoute>, global: seq<Middleware>, p: string)
    ensures p in TableOf(rs, global) <==> exists i | 0 <= i < |rs| :: rs[i].path == p
    decreases |rs|
  {
    if rs != [] {
      var n := |rs| - 1;
      TableOfPaths(rs[..n], global, p);
      RegisterLookup(TableOf(rs[..n], global), rs[n], global, p, rs[n].httpMethod);
      if exists i | 0 <= i < |rs| :: rs[i].path == p {
        var i :| 0 <= i < |rs| && rs[i].path == p;
        if i < n {
          assert rs[..n][i] == rs[i];
        }
      }
      if exists i | 0 <= i < n :: rs[..n][i].path == p {
        var i :| 0 <= i < n && rs[..n][i].path == p;
        assert rs[i].path == p;
      }
    }
  }

  /** The table has a method under a path exactly when some route was registered for both. */
  lemma {:induction false} TableOfMethods(rs: seq<FlatRoute>, global: seq<Middleware>, p: string, m: Method)
    ensures var t := TableOf(rs, global);
      p in t && m in t[p] <==> exists i :: Registers(rs, i, p, m)
    decreases |rs|
  {
    if rs != [] {
      var n := |rs| - 1;
      TableOfMethods(rs[..n], global, p, m);
      var t0 := TableOf(rs[..n], global);
      assert TableOf(rs, global) == Register(t0, rs[n], global);
      RegisterLookup(t0, rs[n], global, p, m);
      assert (exists i :: Registers(rs, i, p, m)) <==> (exists i :: Registers(rs[..n], i, p, m)) || Registers(rs, n, p, m) by {
        if exists i :: Registers(rs, i, p, m) {
          var i :| Registers(rs, i, p, m);
          if i < n {
            assert Registers(rs[..n], i, p, m);
          }
        }
        if exists i :: Registers(rs[..n], i, p, m) {
          var i :| Registers(rs[..n], i, p, m);
          assert rs[..n][i] == rs[i];
          assert Registers(rs, i, p, m);
        }
      }
    }
  }

  /**
   * The slot for a path and method holds the handler of the last
   * registration for both, under the global middleware followed by that
   * route's own.
   */
  lemma {:induction false} TableOfLast(rs: seq<FlatRoute>, global: seq<Middleware>, i: int, p: string, m: Method)
    requires LastFor(rs, i, p, m)
    ensures var t := TableOf(rs, global);
      p in t && m in t[p] && t[p][m] == Endpoint(rs[i].handler, global + rs[i].middlewares)
    decreases |rs|
  {
    var n := |rs| - 1;
    RegisterLookup(TableOf(rs[..n], global), rs[n], global, p, m);
    if i < n {
      assert !Registers(rs, n, p, m);
      assert LastFor(rs[..n], i, p, m) by {
        forall k | i < k < n ensures !Registers(rs[..n], k, p, m) {
          assert !Registers(rs, k, p, m);
        }
      }
      TableOfLast(rs[..n], global, i, p, m);
    }
  }

  /** A registration for a path and method has a last one. */
  lemma {:induction false} LastExists(rs: seq<FlatRoute>, i: int, p: string, m: Method)
    requires Registers(rs, i, p, m)
    ensures exists j :: LastFor(rs, j, p, m)
    decreases |rs| - i
  {
    if !LastFor(rs, i, p, m) {
      var k :| i < k < |rs| && Registers(rs, k, p, m);
      LastExists(rs, k, p, m);
    }
  }

  /**
   * Every slot of the table is the last registration for its path and
   * method, and its middleware starts with the global middleware.
   */
  lemma TableOfEntry(rs: seq<FlatRoute>, global: seq<Middleware>, p: string, m: Method)
    requires p in TableOf(rs, global) && m in TableOf(rs, global)[p]
    ensures exists i :: (LastFor(rs, i, p, m)
      && TableOf(rs, global)[p][m] == Endpoint(rs[i].handler, global + rs[i].middlewares))
    ensures IsPrefixOf(global, TableOf(rs, global)[p][m].middlewares)
  {
    TableOfMethods(rs, global, p, m);
    var i :| Registers(rs, i, p, m);
    LastExists(rs, i, p, m);
    var j :| LastFor(rs, j, p, m);
    TableOfLast(rs, global, j, p, m);
    assert TableOf(rs, global)[p][m].middlewares == global + rs[j].middlewares;
    assert (global + rs[j].middlewares)[..|global|] == global;
  }

  // ---------------------------------------------------------------------------
  // Matching and the dispatch decision

  /** A match: the registered pattern that matched and the parameters it captured. */
  datatype Match = Match(pattern: string, params: map<string, string>)

  /** The path matcher (`matchit`): given the registered patterns and a request path, the match, if any. */
  type Matcher = (set<string>, string) -> Option<Match>

  /** `router.at(path)`: what the matcher finds, when it names a registered pattern. */
  function At(t: Table, path: string, matcher: Matcher): (r: Option<Match>)
    ensures r.Some? ==> r.value.pattern in t && r == matcher(t.Keys, path)
    ensures r.None? ==> matcher(t.Keys, path).None? || matcher(t.Keys, path).value.pattern !in t
  {
    var found := matcher(t.Keys, path);
    if found.Some? && found.value.pattern in t then found else None
  }

  /** A matcher for patterns without parameters: a path matches only itself, capturing nothing. */
  function ExactMatch(patterns: set<string>, path: string): Option<Match>
  {
    if path in patterns then Some(Match(path, map[])) else None
  }

  /** What `handle_request` does with a request, before any handler or middleware runs. */
  datatype Decision =
    | RouterMissing
    | NoRoute
    | WrongMethod(allowed: set<Method>)
    | StateMissing
    | Dispatch(pattern: string, endpoint: Endpoint, params: map<string, string>, state: State)

  /**
   * The checks of `handle_request`, in its order: the router is built, the
   * path matches, the method is registered under the match, the state is set.
   */
  function Decide(router: Option<Table>, state: Option<State>, m: Method, path: string, matcher: Matcher): (d: Decision)
    ensures d.Dispatch? ==>
      && router.Some? && d.pattern in router.value && m in router.value[d.pattern]
      && d.endpoint == router.value[d.pattern][m] && Some(d.state) == state
    ensures d.WrongMethod? ==> m !in d.allowed
  {
    match router
    case None => RouterMissing
    case Some(t) =>
      match At(t, path, matcher)
      case None => NoRoute
      case Some(found) =>
        var methods := t[found.pattern];
        if m !in methods then WrongMethod(methods.Keys)
        else if state.None? then StateMissing
        else Dispatch(found.pattern, methods[m], found.params, state.value)
  }

  /**
   * The request a handler receives: the path parameters of the match, no
   * cached body, and the configured error handler, if any, in its extensions.
   */
  function Dispatched(m: Method, path: string, headers: Headers, params: map<string, string>,
                      errorHandler: Option<H.ErrorHandler>): Request
  {
    Request(m, path, headers, params, None,
            if errorHandler.Some? then Inserted(map[], HandlerValue(errorHandler.value)) else map[])
  }

  /**
   * The response for every decision but a wrong method: the fixed errors
   * through `into_res`, or the response of the endpoint's chain.
   */
  function ResponseFor(d: Decision, m: Method, path: string, headers: Headers, errorHandler: Option<H.ErrorHandler>): R.Res
    requires !d.WrongMethod?
  {
    match d
    case RouterMissing => IR.IntoRes(IR.ErrorValue(Internal("Router not initialized")))
    case NoRoute => IR.IntoRes(IR.ErrorValue(NotFound("Route not found")))
    case StateMissing => IR.IntoRes(IR.ErrorValue(Internal("State not initialized")))
    case Dispatch(_, e, params, st) =>
      Invoke(Fold(e.middlewares, e.handler, st), Dispatched(m, path, headers, params, errorHandler), st).res
  }

  // ---------------------------------------------------------------------------
  // The 405 response

  /** A method `hyper` accepts: a standard one, or an extension whose name is a token. */
  predicate IsValidMethod(m: Method) {
    !m.Extension? || IsToken(m.token)
  }

  /** The names of the methods, in order. */
  function Names(order: seq<Method>): seq<string>
  {
    seq(|order|, i requires 0 <= i < |order| => MethodName(order[i]))
  }

  /** A sequence that lists every element of `s` once. */
  ghost predicate Enumerates(order: seq<Method>, s: set<Method>) {
    |order| == |s| && forall x :: x in order <==> x in s
  }

  const ALLOW: string := "allow"

  /**
   * The 405 response: the default handler's rendering of the error that
   * names the method and the allowed ones, with an Allow header listing them.
   */
  function NotAllowedRes(m: Method, order: seq<Method>): R.Res
  {
    var res := IR.IntoRes(IR.ErrorValue(MethodNotAllowed(NotAllowedMessage(m, order))));
    res.(headers := res.headers[ALLOW := Join(Names(order), ", ")])
  }

  /** The message of the 405 error: the method refused and the allowed ones, joined with ", ". */
  function NotAllowedMessage(m: Method, order: seq<Method>): string
  {
    "Method " + MethodName(m) + " not allowed. Allowed methods: " + Join(Names(order), ", ")
  }

  lemma AllowIsToken()
    ensures IsToken("Allow")
  {
    var s := "Allow";
    assert forall i | 0 <= i < |s| :: ('a' <= s[i] <= 'z') || ('A' <= s[i] <= 'Z');
  }

  /** The header name "Allow" the source writes is stored as "allow". */
  lemma AllowName()
    ensures ParseHeaderName("Allow") == Some(ALLOW)
  {
    AllowIsToken();
    LowerNameIs("Allow", ALLOW);
  }

  lemma UpperWordIsToken(s: string)
    requires |s| > 0 && forall i | 0 <= i < |s| :: 'A' <= s[i] <= 'Z'
    ensures IsToken(s)
  {
  }

  /** The name of every valid method is a token. */
  lemma MethodNameIsToken(m: Method)
    requires IsValidMethod(m)
    ensures IsToken(MethodName(m))
  {
    if !m.Extension? {
      var s := MethodName(m);
      assert |s| > 0 && forall i | 0 <= i < |s| :: 'A' <= s[i] <= 'Z';
      UpperWordIsToken(s);
    }
  }

  /** A token is a valid header value and a list element that reads back as itself. */
  lemma TokenIsListElement(x: string)
    requires IsToken(x)
    ensures IsListElement(x) && IsValidHeaderValue(x)
  {
  }

  lemma ValidHeaderValueConcat(a: string, b: string)
    requires IsValidHeaderValue(a) && IsValidHeaderValue(b)
    ensures IsValidHeaderValue(a + b)
  {
    forall i | 0 <= i < |a + b|
      ensures (a + b)[i] == '\t' || ((a + b)[i] >= ' ' && (a + b)[i] as int != 0x7F)
    {
      if i < |a| {
        assert (a + b)[i] == a[i];
      } else {
        assert (a + b)[i] == b[i - |a|];
      }
    }
  }

  /** Joining valid header values with ", " gives a valid header value. */
  lemma {:induction false} JoinIsValidHeaderValue(xs: seq<string>)
    requires forall i | 0 <= i < |xs| :: IsValidHeaderValue(xs[i])
    ensures IsValidHeaderValue(Join(xs, ", "))
  {
    if |xs| > 1 {
      JoinIsValidHeaderValue(xs[1..]);
      assert IsValidHeaderValue(", ");
      ValidHeaderValueConcat(xs[0], ", ");
      ValidHeaderValueConcat(xs[0] + ", ", Join(xs[1..], ", "));
    }
  }

  /**
   * For valid methods the Allow value is a valid header value, so the
   * source's `unwrap` holds, and it reads back, element by element, as the
   * method names in the order given.
   */
  lemma AllowValue(order: seq<Method>)
    requires forall i | 0 <= i < |order| :: IsValidMethod(order[i])
    ensures IsValidHeaderValue(Join(Names(order), ", "))
    ensures |order| > 0 ==> ListElements(Join(Names(order), ", ")) == Names(order)
  {
    var names := Names(order);
    forall i | 0 <= i < |names| ensures IsListElement(names[i]) && IsValidHeaderValue(names[i]) {
      MethodNameIsToken(order[i]);
      TokenIsListElement(names[i]);
    }
    JoinIsValidHeaderValue(names);
    if |order| > 0 {
      ListElementsOfJoin(names);
    }
  }

  /**
   * The 405 response has status 405, the default handler's text body, and
   * exactly two headers, Content-Type and Allow, the Allow value listing the
   * method names in the order given.
   */
  lemma NotAllowedShape(m: Method, order: seq<Method>)
    ensures var joined := Join(Names(order), ", ");
      var r := NotAllowedRes(m, order);
      && r.status == 405
      && r.body == Utf8(NatToString(405) + " " + NotAllowedMessage(m, order))
      && r.headers == map[CONTENT_TYPE := R.CONTENT_TYPE_TEXT, ALLOW := joined]
  {
    H.DefaultHandleShape(MethodNotAllowed(NotAllowedMessage(m, order)));
  }

  // ---------------------------------------------------------------------------
  // Properties of dispatch

  /**
   * The handler and its middleware find the configured error handler in the
   * request's extensions, and nothing else there.
   */
  lemma DispatchedExtensions(m: Method, path: string, headers: Headers, params: map<string, string>,
                             errorHandler: Option<H.ErrorHandler>, name: string)
    ensures var x := Dispatched(m, path, headers, params, errorHandler).extensions;
      && Lookup(x, ErrorHandlerType) == (if errorHandler.Some? then Some(HandlerValue(errorHandler.value)) else None)
      && Lookup(x, Named(name)) == None
      && WellTyped(x)
  {
  }

  /**
   * The 404 and the two 500 responses are the default handler's, whatever
   * error handler the application configured: 500 "Router not initialized"
   * before the router is built, 404 "Route not found", and 500 "State not
   * initialized" for an application made by `default`.
   */
  lemma FixedErrorResponses(m: Method, path: string, headers: Headers, errorHandler: Option<H.ErrorHandler>)
    ensures ResponseFor(RouterMissing, m, path, headers, errorHandler) == H.DefaultHandle(Internal("Router not initialized"))
    ensures ResponseFor(NoRoute, m, path, headers, errorHandler) == H.DefaultHandle(NotFound("Route not found"))
    ensures ResponseFor(StateMissing, m, path, headers, errorHandler) == H.DefaultHandle(Internal("State not initialized"))
    ensures ResponseFor(RouterMissing, m, path, headers, errorHandler).status == 500
    ensures ResponseFor(NoRoute, m, path, headers, errorHandler).status == 404
    ensures ResponseFor(StateMissing, m, path, headers, errorHandler).status == 500
  {
    H.DefaultHandleShape(Internal("Router not initialized"));
    H.DefaultHandleShape(NotFound("Route not found"));
    H.DefaultHandleShape(Internal("State not initialized"));
  }

  /**
   * With a built table and paths without parameters: a request finds no
   * route exactly when no route was registered at its path; it is refused
   * with 405 exactly when routes were registered at its path but none for its
   * method, and the allowed methods are then those registered at the path;
   * and it is dispatched exactly when a route was registered for both, to the
   * last such registration's handler under the global middleware followed by
   * that route's own.
   */
  lemma ExactDecide(rs: seq<FlatRoute>, global: seq<Middleware>, st: State, m: Method, path: string)
    ensures var d := Decide(Some(TableOf(rs, global)), Some(st), m, path, ExactMatch);
      && (d.NoRoute? <==> forall i | 0 <= i < |rs| :: rs[i].path != path)
      && (d.WrongMethod? <==> (exists i | 0 <= i < |rs| :: rs[i].path == path) && !exists i :: Registers(rs, i, path, m))
      && (d.WrongMethod? ==> d.allowed == (set i | 0 <= i < |rs| && rs[i].path == path :: rs[i].httpMethod))
      && (d.Dispatch? <==> exists i :: Registers(rs, i, path, m))
      && (d.Dispatch? ==> d.params == map[] && d.state == st && exists i :: (LastFor(rs, i, path, m)
            && d.endpoint == Endpoint(rs[i].handler, global + rs[i].middlewares)))
  {
    var t := TableOf(rs, global);
    TableOfPaths(rs, global, path);
    TableOfMethods(rs, global, path, m);
    var d := Decide(Some(t), Some(st), m, path, ExactMatch);
    if d.WrongMethod? {
      forall x ensures x in d.allowed <==> x in (set i | 0 <= i < |rs| && rs[i].path == path :: rs[i].httpMethod) {
        TableOfMethods(rs, global, path, x);
        if x in d.allowed {
          var i :| Registers(rs, i, path, x);
          assert rs[i].httpMethod == x;
        }
      }
    }
    if d.Dispatch? {
      TableOfEntry(rs, global, path, m);
    }
  }

  // ---------------------------------------------------------------------------
  // The loops of handle_request

  /**
   * The chain `handle_request` composes, built as the source does: starting
   * from the handler and wrapping it in the middleware from the last to the
   * first, each layer capturing the state.
   */
  method ComposeChain(mws: seq<Middleware>, h: Handler, st: State) returns (c: Cont)
    ensures c == Fold(mws, h, st)
  {
    c := Call(h);
    var i := |mws|;
    while i > 0
      invariant 0 <= i <= |mws|
      invariant c == Fold(mws[i..], h, st)
    {
      i := i - 1;
      assert mws[i..][1..] == mws[i + 1..];
      c := Wrap(mws[i], c, st);
    }
  }

  /**
   * Running an endpoint as `handle_request` does: the handler is called
   * directly when there is no middleware, and through the composed chain
   * otherwise; either way the response is the chain's.
   */
  method RunEndpoint(e: Endpoint, req: Request, st: State) returns (res: R.Res)
    ensures res == Invoke(Fold(e.middlewares, e.handler, st), req, st).res
  {
    if e.middlewares == [] {
      res := e.handler.call(req, st);
    } else {
      var chain := ComposeChain(e.middlewares, e.handler, st);
      res := Invoke(chain, req, st).res;
    }
  }

  /** The keys of a method map in the order the map yields them, which the source leaves unspecified. */
  method MethodOrder(s: set<Method>) returns (order: seq<Method>)
    ensures Enumerates(order, s)
  {
    order := [];
    var rest := s;
    while rest != {}
      invariant rest <= s
      invariant forall x :: x in order <==> x in s && x !in rest
      invariant |order| + |rest| == |s|
      decreases |rest|
    {
      var x :| x in rest;
      order := order + [x];
      rest := rest - {x};
    }
  }

  /**
   * What `handle_request` does once the path has matched: a method without
   * a handler gets the 405 response listing the path's methods in the order
   * the map yields them; a missing state gets 500; otherwise the endpoint runs.
   */
  method AnswerMatched(methods: map<Method, Endpoint>, m: Method, req: Request, state: Option<State>)
    returns (res: R.Res)
    requires forall x | x in methods :: IsVerb(x)
    ensures m !in methods ==> exists order | Enumerates(order, methods.Keys) ::
      res == NotAllowedRes(m, order) && IsValidHeaderValue(Join(Names(order), ", "))
    ensures m in methods && state.None? ==> res == IR.IntoRes(IR.ErrorValue(Internal("State not initialized")))
    ensures m in methods && state.Some? ==>
      res == Invoke(Fold(methods[m].middlewares, methods[m].handler, state.value), req, state.value).res
  {
    if m in methods {
      if state.None? {
        return IR.IntoRes(IR.ErrorValue(Internal("State not initialized")));
      }
      res := RunEndpoint(methods[m], req, state.value);
    } else {
      var order := MethodOrder(methods.Keys);
      forall i | 0 <= i < |order|
        ensures IsValidMethod(order[i])
      {
        assert order[i] in order;
      }
      AllowValue(order);
      res := NotAllowedRes(m, order);
    }
  }

  // ---------------------------------------------------------------------------

  /** `RustApi`: the registrations, the global middleware, the state, the built table and the error handler. */
  class RustApi {
    var routes: seq<FlatRoute>
    var middlewares: seq<Middleware>
    var state: Option<State>
    var router: Option<Table>
    var errorHandler: Option<H.ErrorHandler>

    /**
     * An application built through the public API: every registration, and
     * every method of the built table, is one of the five verbs the
     * registration methods bind.
     */
    ghost predicate Valid()
      reads this
    {
      && (forall i | 0 <= i < |routes| :: IsVerb(routes[i].httpMethod))
      && (router.Some? ==> forall p, x | p in router.value && x in router.value[p] :: IsVerb(x))
    }

    /** `RustApi::new`: unit state, nothing registered, no table yet. */
    constructor New()
      ensures routes == [] && middlewares == [] && state == Some(Unit) && router == None && errorHandler == None
      ensures Valid()
    {
      routes := [];
      middlewares := [];
      state := Some(Unit);
      router := None;
      errorHandler := None;
    }

    /** `RustApi::with_state`. */
    constructor WithState(value: AnyValue)
      ensures routes == [] && middlewares == [] && state == Some(AppState(value)) && router == None && errorHandler == None
      ensures Valid()
    {
      routes := [];
      middlewares := [];
      state := Some(AppState(value));
      router := None;
      errorHandler := None;
    }

    /** `Default`: like `new`, but without any state. */
    constructor Default()
      ensures routes == [] && middlewares == [] && state == None && router == None && errorHandler == None
      ensures Valid()
    {
      routes := [];
      middlewares := [];
      state := None;
      router := None;
      errorHandler := None;
    }

    /** `error_handler`: the handler replaces any earlier one. */
    method UseErrorHandler(h: H.ErrorHandler)
      requires Valid()
      modifies this
      ensures Valid()
      ensures errorHandler == Some(h)
      ensures routes == old(routes) && middlewares == old(middlewares) && state == old(state) && router == old(router)
    {
      errorHandler := Some(h);
    }

    /** `layer`: global middleware, appended. */
    method Layer(mw: Middleware)
      requires Valid()
      modifies this
      ensures Valid()
      ensures middlewares == old(middlewares) + [mw]
      ensures routes == old(routes) && state == old(state) && router == old(router) && errorHandler == old(errorHandler)
    {
      middlewares := middlewares + [mw];
    }

    /** Registering a route with no middleware of its own, as `get`, `post`, `put`, `delete` and `patch` do. */
    method Add(m: Method, path: string, handler: Handler)
      requires Valid() && IsVerb(m)
      modifies this
      ensures Valid()
      ensures routes == old(routes) + [FlatRoute(m, path, handler, [])]
      ensures middlewares == old(middlewares) && state == old(state) && router == old(router) && errorHandler == old(errorHandler)
    {
      routes := routes + [FlatRoute(m, path, handler, [])];
    }

    /** `get`. */
    method Get(path: string, handler: Handler)
      requires Valid()
      modifies this
      ensures Valid()
      ensures routes == old(routes) + [FlatRoute(GET, path, handler, [])]
      ensures middlewares == old(middlewares) && state == old(state) && router == old(router) && errorHandler == old(errorHandler)
    {
      Add(GET, path, handler);
    }

    /** `post`. */
    method Post(path: string, handler: Handler)
      requires Valid()
      modifies this
      ensures Valid()
      ensures routes == old(routes) + [FlatRoute(POST, path, handler, [])]
      ensures middlewares == old(middlewares) && state == old(state) && router == old(router) && errorHandler == old(errorHandler)
    {
      Add(POST, path, handler);
    }

    /** `put`. */
    method Put(path: string, handler: Handler)
      requires Valid()
      modifies this
      ensures Valid()
      ensures routes == old(routes) + [FlatRoute(PUT, path, handler, [])]
      ensures middlewares == old(middlewares) && state == old(state) && router == old(router) && errorHandler == old(errorHandler)
    {
      Add(PUT, path, handler);
    }

    /** `delete`. */
    method Delete(path: string, handler: Handler)
      requires Valid()
      modifies this
      ensures Valid()
      ensures routes == old(routes) + [FlatRoute(DELETE, path, handler, [])]
      ensures middlewares == old(middlewares) && state == old(state) && router == old(router) && errorHandler == old(errorHandler)
    {
      Add(DELETE, path, handler);
    }

    /** `patch`. */
    method Patch(path: string, handler: Handler)
      requires Valid()
      modifies this
      ensures Valid()
      ensures routes == old(routes) + [FlatRoute(PATCH, path, handler, [])]
      ensures middlewares == old(middlewares) && state == old(state) && router == old(router) && errorHandler == old(errorHandler)
    {
      Add(PATCH, path, handler);
    }

    /** `route`: a route with its own middleware, registered as it is. */
    method Route(r: Routes.Route)
      requires Valid() && r.Valid()
      modifies this
      ensures Valid()
      ensures routes == old(routes) + [FlatRoute(r.httpMethod, r.path, r.handler, r.middlewares)]
      ensures middlewares == old(middlewares) && state == old(state) && router == old(router) && errorHandler == old(errorHandler)
    {
      routes := routes + [FlatRoute(r.httpMethod, r.path, r.handler, r.middlewares)];
    }

    /** `nest`: the router's flattened routes under the prefix, appended one by one. */
    method Nest(prefix: string, child: Router)
      requires Valid() && child.Valid()
      modifies this
      ensures Valid()
      ensures routes == old(routes) + Flat(child.Value(), prefix, None)
      ensures middlewares == old(middlewares) && state == old(state) && router == old(router) && errorHandler == old(errorHandler)
    {
      var flattened := child.Flatten(prefix);
      FlatVerbs(child.Value(), prefix, None);
      for i := 0 to |flattened|
        invariant routes == old(routes) + flattened[..i]
        invariant Valid()
        invariant middlewares == old(middlewares) && state == old(state) && router == old(router)
        invariant errorHandler == old(errorHandler)
      {
        assert flattened[..i + 1] == flattened[..i] + [flattened[i]];
        assert flattened[i] in flattened;
        routes := routes + [flattened[i]];
      }
      assert flattened[..|flattened|] == flattened;
    }

    /**
     * `build_router`: every registration is drained into the table in order,
     * under the global middleware followed by its own; the table becomes the
     * router.
     */
    method BuildRouter()
      requires Valid()
      modifies this
      ensures Valid()
      ensures router == Some(TableOf(old(routes), middlewares))
      ensures routes == [] && middlewares == old(middlewares) && state == old(state) && errorHandler == old(errorHandler)
    {
      var global := middlewares;
      var drained := routes;
      var pathMethods: Table := map[];
      for i := 0 to |drained|
        invariant pathMethods == TableOf(drained[..i], global)
      {
        var r := drained[i];
        var combined: seq<Middleware>;
        if r.middlewares == [] {
          combined := global;
        } else if global == [] {
          combined := r.middlewares;
        } else {
          combined := global + r.middlewares;
        }
        var methods := if r.path in pathMethods then pathMethods[r.path] else map[];
        assert combined == CombineGlobal(global, r.middlewares);
        pathMethods := pathMethods[r.path := methods[r.httpMethod := Endpoint(r.handler, combined)]];
        assert drained[..i + 1][..i] == drained[..i];
      }
      assert drained[..|drained|] == drained;
      forall p, x | p in pathMethods && x in pathMethods[p]
        ensures IsVerb(x)
      {
        TableOfMethods(drained, global, p, x);
        var i :| Registers(drained, i, p, x);
      }
      routes := [];
      router := Some(pathMethods);
    }

    /**
     * The request after a match: its path parameters set and the configured
     * error handler, if any, inserted into its extensions.
     */
    method Prepare(req: Req, params: map<string, string>)
      requires req.extensions.Valid() && req.extensions.entries == map[] && req.bodyBytes == None
      modifies req, req.extensions
      ensures req.View() == Dispatched(req.httpMethod, req.path, req.headers, params, errorHandler)
    {
      req.SetPathParams(params);
      if errorHandler.Some? {
        var previous := req.extensions.Insert(HandlerValue(errorHandler.value));
      }
    }

    /**
     * `handle_request`: the response is the one `Decide` and `ResponseFor`
     * describe; for a wrong method it is the 405 response listing the methods
     * of the matched path in the order the method map yields them.
     */
    method HandleRequest(m: Method, path: string, headers: Headers, incoming: IncomingBody, matcher: Matcher)
      returns (res: R.Res)
      requires Valid()
      ensures var d := Decide(router, state, m, path, matcher);
        && (d.WrongMethod? ==> exists order | Enumerates(order, d.allowed) ::
              res == NotAllowedRes(m, order) && IsValidHeaderValue(Join(Names(order), ", ")))
        && (!d.WrongMethod? ==> res == ResponseFor(d, m, path, headers, errorHandler))
    {
      var req := new Req.FromHyper(m, path, headers, incoming);
      if router.None? {
        res := IR.IntoRes(IR.ErrorValue(Internal("Router not initialized")));
        return;
      }
      var matched := At(router.value, path, matcher);
      if matched.None? {
        res := IR.IntoRes(IR.ErrorValue(NotFound("Route not found")));
        return;
      }
      Prepare(req, matched.value.params);
      res := AnswerMatched(router.value[matched.value.pattern], m, req.View(), state);
    }
  }
}
