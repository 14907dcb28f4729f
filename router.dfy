/**
 * Routers that group routes under shared middleware and mount other routers
 * at a prefix (src/router.rs), and their flattening into the list of
 * `(method, full path, handler, middleware)` entries the application registers.
 */
module Routers {
  import opened Wrappers
  import opened Strings
  import opened Http
  import opened Middleware

  /** One `(method, path, handler)` entry of a router. */
  datatype RouteDef = RouteDef(httpMethod: Method, path: string, handler: Handler)

  /** A router as a value: it is moved into its parent when nested. */
  datatype RouterValue = RouterValue(routes: seq<RouteDef>, middlewares: seq<Middleware>, nested: seq<Mount>)

  /** A nested router and the prefix it is mounted at. */
  datatype Mount = Mount(prefix: string, router: RouterValue)

  /** A flattened route: full path and the middleware that applies to it, outermost first. */
  datatype FlatRoute = FlatRoute(httpMethod: Method, path: string, handler: Handler, middlewares: seq<Middleware>)

  // ---------------------------------------------------------------------------
  // The specification of flattening

  /** The middleware a router's routes get: the parent's (if any), then the router's own. */
  function Combined(own: seq<Middleware>, parent: Option<seq<Middleware>>): seq<Middleware>
  {
    match parent
    case Some(p) => if own == [] then p else p + own
    case None => own
  }

  /** The middleware inherited from the parent; none at the top. */
  function Inherited(parent: Option<seq<Middleware>>): seq<Middleware>
  {
    match parent
    case Some(p) => p
    case None => []
  }

  /** A path under a prefix: an empty prefix leaves it as it is, otherwise the two are concatenated. */
  function JoinPath(prefix: string, path: string): string
  {
    if prefix == "" then path else prefix + path
  }

  function Entry(d: RouteDef, prefix: string, mws: seq<Middleware>): FlatRoute
  {
    FlatRoute(d.httpMethod, JoinPath(prefix, d.path), d.handler, mws)
  }

  /** A router's own routes, flattened. */
  function OwnFlat(routes: seq<RouteDef>, prefix: string, mws: seq<Middleware>): (r: seq<FlatRoute>)
    ensures |r| == |routes|
  {
    seq(|routes|, i requires 0 <= i < |routes| => Entry(routes[i], prefix, mws))
  }

  /** The flattened routes of `rv`: its own routes in order, then each nested router's, in nesting order. */
  function Flat(rv: RouterValue, prefix: string, parent: Option<seq<Middleware>>): seq<FlatRoute>
    decreases rv, 1, 0
  {
    var c := Combined(rv.middlewares, parent);
    OwnFlat(rv.routes, prefix, c) + NestedFlat(rv, 0, prefix, c)
  }

  /** The flattened routes of the routers nested in `rv` from index `i` on. */
  function NestedFlat(rv: RouterValue, i: nat, prefix: string, c: seq<Middleware>): seq<FlatRoute>
    requires i <= |rv.nested|
    decreases rv, 0, |rv.nested| - i
  {
    if i == |rv.nested| then []
    else
      assert rv.nested[i] in rv.nested;
      Flat(rv.nested[i].router, JoinPath(prefix, rv.nested[i].prefix), Some(c)) + NestedFlat(rv, i + 1, prefix, c)
  }

  /** Every route of the router tree, nested routers included, is bound to one of the five registration verbs. */
  predicate VerbsOnly(rv: RouterValue)
    decreases rv
  {
    && (forall i | 0 <= i < |rv.routes| :: IsVerb(rv.routes[i].httpMethod))
    && (forall k | 0 <= k < |rv.nested| :: VerbsOnly(rv.nested[k].router))
  }

  // ---------------------------------------------------------------------------
  // The flattening, as the source computes it

  /**
   * `flatten_with_shared`: the combined middleware, a loop over the own
   * routes, then a loop over the nested routers, each flattened recursively
   * under the joined prefix with the combined middleware as its parent's.
   * `basePrefix` is passed down unused, as in the source.
   */
  method FlattenWithShared(rv: RouterValue, basePrefix: string, prefix: string, parent: Option<seq<Middleware>>)
    returns (flattened: seq<FlatRoute>)
    ensures flattened == Flat(rv, prefix, parent)
    decreases rv
  {
    var combined: seq<Middleware>;
    if parent.Some? {
      if rv.middlewares == [] {
        combined := parent.value;
      } else {
        combined := parent.value + rv.middlewares;
      }
    } else {
      combined := rv.middlewares;
    }
    assert combined == Combined(rv.middlewares, parent);
    flattened := [];
    for i := 0 to |rv.routes|
      invariant flattened == OwnFlat(rv.routes[..i], prefix, combined)
    {
      var d := rv.routes[i];
      var fullPath := if prefix == "" then d.path else prefix + d.path;
      flattened := flattened + [FlatRoute(d.httpMethod, fullPath, d.handler, combined)];
    }
    assert rv.routes[..|rv.routes|] == rv.routes;
    for j := 0 to |rv.nested|
      invariant flattened + NestedFlat(rv, j, prefix, combined) == Flat(rv, prefix, parent)
    {
      var m := rv.nested[j];
      assert m in rv.nested;
      var fullPrefix := if prefix == "" then m.prefix else prefix + m.prefix;
      var nestedRoutes := FlattenWithShared(m.router, basePrefix, fullPrefix, Some(combined));
      assert NestedFlat(rv, j, prefix, combined) == nestedRoutes + NestedFlat(rv, j + 1, prefix, combined);
      AppendAssoc(flattened, nestedRoutes, NestedFlat(rv, j + 1, prefix, combined));
      flattened := flattened + nestedRoutes;
    }
  }

  // ---------------------------------------------------------------------------
  // Properties

  /** Whichever branch is taken, the combined middleware is the inherited list followed by the router's own. */
  lemma CombinedIsConcat(own: seq<Middleware>, parent: Option<seq<Middleware>>)
    ensures Combined(own, parent) == Inherited(parent) + own
  {
  }

  /** Joining a prefix and a path is plain concatenation, with no slash added or removed. */
  lemma JoinPathIsConcat(prefix: string, path: string)
    ensures JoinPath(prefix, path) == prefix + path
  {
  }

  /**
   * The first entries of a flattened router are its own routes, in
   * registration order, each under the prefix and with the inherited
   * middleware followed by the router's own.
   */
  lemma OwnRoutesFirst(rv: RouterValue, prefix: string, parent: Option<seq<Middleware>>, i: nat)
    requires i < |rv.routes|
    ensures i < |Flat(rv, prefix, parent)|
    ensures Flat(rv, prefix, parent)[i] ==
      FlatRoute(rv.routes[i].httpMethod, prefix + rv.routes[i].path, rv.routes[i].handler,
                Inherited(parent) + rv.middlewares)
  {
    JoinPathIsConcat(prefix, rv.routes[i].path);
    CombinedIsConcat(rv.middlewares, parent);
  }

  /** The prefix of a list of middleware. */
  ghost predicate IsPrefixOf<T>(p: seq<T>, s: seq<T>) {
    |p| <= |s| && s[..|p|] == p
  }

  /**
   * Every flattened entry lies under the prefix, and its middleware starts
   * with the inherited middleware followed by the router's own: a router's
   * middleware applies to all its routes and every router nested in it,
   * whenever it was added.
   */
  lemma {:induction false} FlatUnderPrefix(rv: RouterValue, prefix: string, parent: Option<seq<Middleware>>)
    ensures forall e | e in Flat(rv, prefix, parent) ::
      StartsWith(e.path, prefix) && IsPrefixOf(Inherited(parent) + rv.middlewares, e.middlewares)
    decreases rv, 1
  {
    var c := Combined(rv.middlewares, parent);
    CombinedIsConcat(rv.middlewares, parent);
    forall e | e in OwnFlat(rv.routes, prefix, c)
      ensures StartsWith(e.path, prefix) && IsPrefixOf(c, e.middlewares)
    {
      var i :| 0 <= i < |rv.routes| && OwnFlat(rv.routes, prefix, c)[i] == e;
      JoinPathIsConcat(prefix, rv.routes[i].path);
    }
    NestedUnderPrefix(rv, 0, prefix, c);
  }

  lemma {:induction false} NestedUnderPrefix(rv: RouterValue, i: nat, prefix: string, c: seq<Middleware>)
    requires i <= |rv.nested|
    ensures forall e | e in NestedFlat(rv, i, prefix, c) :: StartsWith(e.path, prefix) && IsPrefixOf(c, e.middlewares)
    decreases rv, 0, |rv.nested| - i
  {
    if i < |rv.nested| {
      var m := rv.nested[i];
      assert m in rv.nested;
      var p := JoinPath(prefix, m.prefix);
      JoinPathIsConcat(prefix, m.prefix);
      FlatUnderPrefix(m.router, p, Some(c));
      NestedUnderPrefix(rv, i + 1, prefix, c);
      forall e | e in Flat(m.router, p, Some(c))
        ensures StartsWith(e.path, prefix) && IsPrefixOf(c, e.middlewares)
      {
        assert e.path[..|prefix|] == p[..|prefix|];
        assert e.middlewares[..|c|] == (c + m.router.middlewares)[..|c|];
      }
    }
  }

  /** Flattening keeps the methods: a tree bound to verbs only flattens to routes bound to verbs only. */
  lemma {:induction false} FlatVerbs(rv: RouterValue, prefix: string, parent: Option<seq<Middleware>>)
    requires VerbsOnly(rv)
    ensures forall e | e in Flat(rv, prefix, parent) :: IsVerb(e.httpMethod)
    decreases rv, 1
  {
    NestedVerbs(rv, 0, prefix, Combined(rv.middlewares, parent));
  }

  lemma {:induction false} NestedVerbs(rv: RouterValue, i: nat, prefix: string, c: seq<Middleware>)
    requires VerbsOnly(rv) && i <= |rv.nested|
    ensures forall e | e in NestedFlat(rv, i, prefix, c) :: IsVerb(e.httpMethod)
    decreases rv, 0, |rv.nested| - i
  {
    if i < |rv.nested| {
      var m := rv.nested[i];
      assert m in rv.nested;
      FlatVerbs(m.router, JoinPath(prefix, m.prefix), Some(c));
      NestedVerbs(rv, i + 1, prefix, c);
    }
  }

  /** The method and handler of every route of a router tree, own routes first, then the nested trees in order. */
  function Preorder(rv: RouterValue): seq<(Method, Handler)>
    decreases rv, 1
  {
    seq(|rv.routes|, i requires 0 <= i < |rv.routes| => (rv.routes[i].httpMethod, rv.routes[i].handler))
    + PreorderNested(rv, 0)
  }

  function PreorderNested(rv: RouterValue, i: nat): seq<(Method, Handler)>
    requires i <= |rv.nested|
    decreases rv, 0, |rv.nested| - i
  {
    if i == |rv.nested| then []
    else
      assert rv.nested[i] in rv.nested;
      Preorder(rv.nested[i].router) + PreorderNested(rv, i + 1)
  }

  function Project(fs: seq<FlatRoute>): (r: seq<(Method, Handler)>)
    ensures |r| == |fs|
  {
    seq(|fs|, i requires 0 <= i < |fs| => (fs[i].httpMethod, fs[i].handler))
  }

  lemma ProjectAppend(a: seq<FlatRoute>, b: seq<FlatRoute>)
    ensures Project(a + b) == Project(a) + Project(b)
  {
  }

  /**
   * Flattening loses and duplicates nothing: every route of the tree appears
   * exactly once, in pre-order, with its method and handler unchanged.
   */
  lemma {:induction false} FlatIsPreorder(rv: RouterValue, prefix: string, parent: Option<seq<Middleware>>)
    ensures Project(Flat(rv, prefix, parent)) == Preorder(rv)
    decreases rv, 1
  {
    var c := Combined(rv.middlewares, parent);
    ProjectAppend(OwnFlat(rv.routes, prefix, c), NestedFlat(rv, 0, prefix, c));
    NestedIsPreorder(rv, 0, prefix, c);
  }

  lemma {:induction false} NestedIsPreorder(rv: RouterValue, i: nat, prefix: string, c: seq<Middleware>)
    requires i <= |rv.nested|
    ensures Project(NestedFlat(rv, i, prefix, c)) == PreorderNested(rv, i)
    decreases rv, 0, |rv.nested| - i
  {
    if i < |rv.nested| {
      var m := rv.nested[i];
      assert m in rv.nested;
      var p := JoinPath(prefix, m.prefix);
      ProjectAppend(Flat(m.router, p, Some(c)), NestedFlat(rv, i + 1, prefix, c));
      FlatIsPreorder(m.router, p, Some(c));
      NestedIsPreorder(rv, i + 1, prefix, c);
    }
  }

  // ---------------------------------------------------------------------------
  // Routers nested several levels deep

  /** A sequence of nesting indices that leads from `rv` to a router inside it. */
  predicate ValidPath(rv: RouterValue, idx: seq<nat>)
    decreases |idx|
  {
    idx == [] || (idx[0] < |rv.nested| && ValidPath(rv.nested[idx[0]].router, idx[1..]))
  }

  /** The router reached along `idx`. */
  function Descend(rv: RouterValue, idx: seq<nat>): RouterValue
    requires ValidPath(rv, idx)
    decreases |idx|
  {
    if idx == [] then rv else Descend(rv.nested[idx[0]].router, idx[1..])
  }

  /** The prefixes of the mounts along `idx`, concatenated. */
  function PrefixAlong(rv: RouterValue, idx: seq<nat>): string
    requires ValidPath(rv, idx)
    decreases |idx|
  {
    if idx == [] then "" else rv.nested[idx[0]].prefix + PrefixAlong(rv.nested[idx[0]].router, idx[1..])
  }

  /** The middleware of every router from `rv` down to the one reached along `idx`, root first. */
  function MiddlewareAlong(rv: RouterValue, idx: seq<nat>): seq<Middleware>
    requires ValidPath(rv, idx)
    decreases |idx|
  {
    if idx == [] then rv.middlewares else rv.middlewares + MiddlewareAlong(rv.nested[idx[0]].router, idx[1..])
  }

  lemma {:induction false} NestedContains(rv: RouterValue, i: nat, k: nat, prefix: string, c: seq<Middleware>)
    requires i <= k < |rv.nested|
    ensures forall e | e in Flat(rv.nested[k].router, JoinPath(prefix, rv.nested[k].prefix), Some(c)) ::
      e in NestedFlat(rv, i, prefix, c)
    decreases k - i
  {
    var here := Flat(rv.nested[i].router, JoinPath(prefix, rv.nested[i].prefix), Some(c));
    assert NestedFlat(rv, i, prefix, c) == here + NestedFlat(rv, i + 1, prefix, c);
    if i < k {
      NestedContains(rv, i + 1, k, prefix, c);
    }
  }

  /** What a nested router's flattening holds, its parent's holds too. */
  lemma NestedLift(rv: RouterValue, k: nat, prefix: string, parent: Option<seq<Middleware>>, e: FlatRoute)
    requires k < |rv.nested|
    requires e in Flat(rv.nested[k].router, JoinPath(prefix, rv.nested[k].prefix), Some(Combined(rv.middlewares, parent)))
    ensures e in Flat(rv, prefix, parent)
  {
    var c := Combined(rv.middlewares, parent);
    NestedContains(rv, 0, k, prefix, c);
    assert Flat(rv, prefix, parent) == OwnFlat(rv.routes, prefix, c) + NestedFlat(rv, 0, prefix, c);
  }

  /** A route of the router itself is flattened under the prefix with the inherited middleware and its own. */
  lemma OwnRouteIn(rv: RouterValue, j: nat, prefix: string, parent: Option<seq<Middleware>>)
    requires j < |rv.routes|
    ensures FlatRoute(rv.routes[j].httpMethod, prefix + rv.routes[j].path, rv.routes[j].handler,
                      Inherited(parent) + rv.middlewares) in Flat(rv, prefix, parent)
  {
    OwnRoutesFirst(rv, prefix, parent, j);
  }

  /** Descending one level along a path: the first mount's prefix and its parent's middleware come first. */
  lemma AlongStep(rv: RouterValue, idx: seq<nat>)
    requires idx != [] && ValidPath(rv, idx)
    ensures var m := rv.nested[idx[0]];
      && ValidPath(m.router, idx[1..])
      && Descend(rv, idx) == Descend(m.router, idx[1..])
      && PrefixAlong(rv, idx) == m.prefix + PrefixAlong(m.router, idx[1..])
      && MiddlewareAlong(rv, idx) == rv.middlewares + MiddlewareAlong(m.router, idx[1..])
  {
  }

  lemma AppendAssoc<T>(a: seq<T>, b: seq<T>, c: seq<T>)
    ensures a + (b + c) == (a + b) + c
  {
  }

  lemma ConcatAssoc<T>(a: seq<T>, b: seq<T>, c: seq<T>, d: seq<T>)
    ensures a + b + c + d == a + (b + c) + d
  {
  }

  /** One level of `DeepRoute`: an entry of the child's flattening, seen from the parent. */
  lemma DeepRouteStep(rv: RouterValue, idx: seq<nat>, j: nat, prefix: string, parent: Option<seq<Middleware>>)
    requires idx != [] && ValidPath(rv, idx) && j < |Descend(rv, idx).routes|
    requires var m := rv.nested[idx[0]];
      var d := Descend(m.router, idx[1..]).routes[j];
      var c := Combined(rv.middlewares, parent);
      FlatRoute(d.httpMethod, JoinPath(prefix, m.prefix) + PrefixAlong(m.router, idx[1..]) + d.path, d.handler,
                c + MiddlewareAlong(m.router, idx[1..]))
      in Flat(m.router, JoinPath(prefix, m.prefix), Some(c))
    ensures var d := Descend(rv, idx).routes[j];
      FlatRoute(d.httpMethod, prefix + PrefixAlong(rv, idx) + d.path, d.handler,
                Inherited(parent) + MiddlewareAlong(rv, idx))
      in Flat(rv, prefix, parent)
  {
    var m := rv.nested[idx[0]];
    AlongStep(rv, idx);
    JoinPathIsConcat(prefix, m.prefix);
    CombinedIsConcat(rv.middlewares, parent);
    var d := Descend(rv, idx).routes[j];
    ConcatAssoc(prefix, m.prefix, PrefixAlong(m.router, idx[1..]), d.path);
    ConcatAssoc(Inherited(parent), rv.middlewares, MiddlewareAlong(m.router, idx[1..]), []);
    var c := Combined(rv.middlewares, parent);
    var p := JoinPath(prefix, m.prefix);
    var path := p + PrefixAlong(m.router, idx[1..]) + d.path;
    var mws := c + MiddlewareAlong(m.router, idx[1..]);
    assert Descend(m.router, idx[1..]).routes[j] == d;
    assert path == prefix + PrefixAlong(rv, idx) + d.path;
    assert mws == Inherited(parent) + MiddlewareAlong(rv, idx) by {
      assert mws + [] == mws;
      assert Inherited(parent) + MiddlewareAlong(rv, idx) + [] == Inherited(parent) + MiddlewareAlong(rv, idx);
    }
    NestedLift(rv, idx[0], prefix, parent, FlatRoute(d.httpMethod, path, d.handler, mws));
  }

  /**
   * A route of a router nested k levels deep is flattened under the
   * concatenation of all k prefixes, with the middleware of every level from
   * the root down to its own router, in that order.
   */
  lemma {:induction false} DeepRoute(rv: RouterValue, idx: seq<nat>, j: nat, prefix: string, parent: Option<seq<Middleware>>)
    requires ValidPath(rv, idx) && j < |Descend(rv, idx).routes|
    ensures var d := Descend(rv, idx).routes[j];
      FlatRoute(d.httpMethod, prefix + PrefixAlong(rv, idx) + d.path, d.handler,
                Inherited(parent) + MiddlewareAlong(rv, idx))
      in Flat(rv, prefix, parent)
    decreases |idx|
  {
    if idx == [] {
      OwnRouteIn(rv, j, prefix, parent);
      assert prefix + "" == prefix;
    } else {
      var m := rv.nested[idx[0]];
      DeepRoute(m.router, idx[1..], j, JoinPath(prefix, m.prefix), Some(Combined(rv.middlewares, parent)));
      DeepRouteStep(rv, idx, j, prefix, parent);
    }
  }

  // ---------------------------------------------------------------------------

  /** `Router`: its routes, middleware and nested routers, appended to in place. */
  class Router {
    var routes: seq<RouteDef>
    var middlewares: seq<Middleware>
    var nested: seq<Mount>

    function Value(): RouterValue
      reads this
    {
      RouterValue(routes, middlewares, nested)
    }

    /** A router built through the public API: every route in its tree has one of the five verbs. */
    predicate Valid()
      reads this
    {
      VerbsOnly(Value())
    }

    /** `Router::with_capacity`: the capacities only reserve memory. */
    constructor WithCapacity(routeCapacity: nat, middlewareCapacity: nat)
      ensures Value() == RouterValue([], [], []) && Valid()
    {
      routes := [];
      middlewares := [];
      nested := [];
    }

    /** `Router::new` and `Default`: an empty router. */
    constructor New()
      ensures Value() == RouterValue([], [], []) && Valid()
    {
      routes := [];
      middlewares := [];
      nested := [];
    }

    /** `Router::get`. */
    method Get(path: string, handler: Handler)
      requires Valid()
      modifies this
      ensures Valid()
      ensures routes == old(routes) + [RouteDef(GET, path, handler)]
      ensures middlewares == old(middlewares) && nested == old(nested)
    {
      routes := routes + [RouteDef(GET, path, handler)];
    }

    /** `Router::post`. */
    method Post(path: string, handler: Handler)
      requires Valid()
      modifies this
      ensures Valid()
      ensures routes == old(routes) + [RouteDef(POST, path, handler)]
      ensures middlewares == old(middlewares) && nested == old(nested)
    {
      routes := routes + [RouteDef(POST, path, handler)];
    }

    /** `Router::put`. */
    method Put(path: string, handler: Handler)
      requires Valid()
      modifies this
      ensures Valid()
      ensures routes == old(routes) + [RouteDef(PUT, path, handler)]
      ensures middlewares == old(middlewares) && nested == old(nested)
    {
      routes := routes + [RouteDef(PUT, path, handler)];
    }

    /** `Router::delete`. */
    method Delete(path: string, handler: Handler)
      requires Valid()
      modifies this
      ensures Valid()
      ensures routes == old(routes) + [RouteDef(DELETE, path, handler)]
      ensures middlewares == old(middlewares) && nested == old(nested)
    {
      routes := routes + [RouteDef(DELETE, path, handler)];
    }

    /** `Router::patch`. */
    method Patch(path: string, handler: Handler)
      requires Valid()
      modifies this
      ensures Valid()
      ensures routes == old(routes) + [RouteDef(PATCH, path, handler)]
      ensures middlewares == old(middlewares) && nested == old(nested)
    {
      routes := routes + [RouteDef(PATCH, path, handler)];
    }

    /** `Router::layer`. */
    method Layer(mw: Middleware)
      requires Valid()
      modifies this
      ensures Valid()
      ensures middlewares == old(middlewares) + [mw]
      ensures routes == old(routes) && nested == old(nested)
    {
      middlewares := middlewares + [mw];
    }

    /** `Router::nest`: the router is moved in, so what is kept is its value at this moment. */
    method Nest(prefix: string, router: Router)
      requires Valid() && router.Valid()
      modifies this
      ensures Valid()
      ensures nested == old(nested) + [Mount(prefix, old(router.Value()))]
      ensures routes == old(routes) && middlewares == old(middlewares)
    {
      nested := nested + [Mount(prefix, router.Value())];
    }

    /** `Router::route_count`: own routes only, nested routers not included. */
    function RouteCount(): (n: nat)
      reads this
      ensures n == |Value().routes|
    {
      |routes|
    }

    /** `Router::flatten`. */
    method Flatten(prefix: string) returns (flattened: seq<FlatRoute>)
      ensures flattened == Flat(Value(), prefix, None)
    {
      flattened := FlattenWithShared(Value(), "", prefix, None);
    }
  }
}
