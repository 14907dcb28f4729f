/** A single route with its own middleware list (src/route.rs). */
module Routes {
  import opened Http
  import opened Middleware

  class Route {
    var httpMethod: Method
    var path: string
    var handler: Handler
    var middlewares: seq<Middleware>

    /**
     * A route the crate builds: `Route::new` is crate-private and its only
     * callers bind one of the five registration verbs.
     */
    predicate Valid()
      reads this
    {
      IsVerb(httpMethod)
    }

    /** `Route::new`: the given method, path and handler, and no middleware. */
    constructor New(httpMethod: Method, path: string, handler: Handler)
      ensures this.httpMethod == httpMethod && this.path == path && this.handler == handler
      ensures middlewares == []
    {
      this.httpMethod := httpMethod;
      this.path := path;
      this.handler := handler;
      middlewares := [];
    }

    /** `Route::get`. */
    constructor Get(path: string, handler: Handler)
      ensures httpMethod == GET && this.path == path && this.handler == handler && middlewares == []
      ensures Valid()
    {
      httpMethod := GET;
      this.path := path;
      this.handler := handler;
      middlewares := [];
    }

    /** `Route::post`. */
    constructor Post(path: string, handler: Handler)
      ensures httpMethod == POST && this.path == path && this.handler == handler && middlewares == []
      ensures Valid()
    {
      httpMethod := POST;
      this.path := path;
      this.handler := handler;
      middlewares := [];
    }

    /** `Route::put`. */
    constructor Put(path: string, handler: Handler)
      ensures httpMethod == PUT && this.path == path && this.handler == handler && middlewares == []
      ensures Valid()
    {
      httpMethod := PUT;
      this.path := path;
      this.handler := handler;
      middlewares := [];
    }

    /** `Route::delete`. */
    constructor Delete(path: string, handler: Handler)
      ensures httpMethod == DELETE && this.path == path && this.handler == handler && middlewares == []
      ensures Valid()
    {
      httpMethod := DELETE;
      this.path := path;
      this.handler := handler;
      middlewares := [];
    }

    /** `Route::patch`. */
    constructor Patch(path: string, handler: Handler)
      ensures httpMethod == PATCH && this.path == path && this.handler == handler && middlewares == []
      ensures Valid()
    {
      httpMethod := PATCH;
      this.path := path;
      this.handler := handler;
      middlewares := [];
    }

    /**
     * `Route::layer`: a new list, the old one plus `mw` at the end; the list
     * value held before (and anyone sharing it) is left as it was, and the
     * method, path and handler do not change.
     */
    method Layer(mw: Middleware)
      modifies this
      ensures middlewares == old(middlewares) + [mw]
      ensures httpMethod == old(httpMethod) && path == old(path) && handler == old(handler)
    {
      var copy := middlewares;
      copy := copy + [mw];
      middlewares := copy;
    }
  }
}
