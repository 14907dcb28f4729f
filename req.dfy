/**
 * The request wrapper (src/req.rs): path parameters set by the router, the
 * cached body bytes, the body size-hint check of `consume_body`, header
 * access and `is_json`.
 */
module Requests {
  import opened Wrappers
  import opened Strings
  import opened Http
  import opened Errors
  import opened TypeMap

  /**
   * The hyper body as far as the model needs it: the upper bound of its size
   * hint, if any, and what collecting it yields (the bytes, or the display
   * text of the failure).
   */
  datatype IncomingBody = IncomingBody(upperHint: Option<U64>, collected: Result<seq<Byte>, string>)

  /**
   * A request as it is handed to the middleware chain and the handler: it is
   * moved into the chain, so a value is what they receive.
   */
  datatype Request = Request(
    httpMethod: Method,
    path: string,
    headers: Headers,
    params: map<string, string>,
    bodyBytes: Option<seq<Byte>>,
    extensions: Entries)

  // ---------------------------------------------------------------------------
  // The pure reads, on values

  /** `HeaderMap::get(name)` then `to_str`: a case-insensitive lookup that only yields visible ASCII. */
  function HeaderLookup(headers: Headers, name: string): Option<string>
  {
    var n := ParseHeaderName(name);
    if n.Some? && n.value in headers && IsVisibleAscii(headers[n.value]) then Some(headers[n.value]) else None
  }

  /** `is_json` on the Content-Type header found, if any. */
  predicate MentionsJson(contentType: Option<string>) {
    contentType.Some? && Contains(contentType.value, "application/json")
  }

  /** `body_bytes`: the cached bytes, or the error the source returns when there are none. */
  function CachedBody(bodyBytes: Option<seq<Byte>>): Result<seq<Byte>, Error>
  {
    match bodyBytes
    case Some(b) => Ok(b)
    case None => Err(Custom("Body already consumed or not available"))
  }

  /** The size bound `consume_body` checks: a body without an upper hint counts as `u64::MAX` bytes. */
  function SizeBound(body: IncomingBody): U64
  {
    match body.upperHint
    case Some(n) => n
    case None => U64_MAX
  }

  /** What `consume_body(max)` yields: the collected bytes, or the error that stops it. */
  function ConsumeOutcome(body: IncomingBody, maxBodySize: U64): Result<seq<Byte>, Error>
  {
    if SizeBound(body) > maxBodySize then
      Err(PayloadTooLarge("Request body too large (max: " + NatToString(maxBodySize) + " bytes)"))
    else
      match body.collected
      case Ok(bytes) => Ok(bytes)
      case Err(e) => Err(Custom("Failed to read body: " + e))
  }

  // ---------------------------------------------------------------------------
  // Properties

  /** `is_json` holds exactly when a Content-Type header is present and has "application/json" somewhere in it. */
  lemma MentionsJsonIff(contentType: Option<string>)
    ensures MentionsJson(contentType) <==>
      contentType.Some? && exists i :: OccursAt(contentType.value, "application/json", i)
  {
    if contentType.Some? {
      ContainsIffOccurs(contentType.value, "application/json");
    }
  }

  /** Header lookup ignores the case of the name asked for, and fails for a name that is not a token. */
  lemma HeaderLookupCase(headers: Headers, a: string, b: string, c: string)
    requires IsToken(a) && IsToken(b)
    requires |a| == |b| && forall i | 0 <= i < |a| :: LowerAscii(a[i]) == LowerAscii(b[i])
    ensures HeaderLookup(headers, a) == HeaderLookup(headers, b)
    ensures !IsToken(c) ==> HeaderLookup(headers, c) == None
  {
    ParseHeaderNameIgnoresCase(a, b);
    ParseHeaderNameCanonical(c);
  }

  /**
   * `consume_body` fails with 413 exactly when the size bound exceeds the
   * limit, so a body without an upper hint passes only the limit `u64::MAX`;
   * otherwise it yields the collected bytes, or a custom error naming the
   * failure.
   */
  lemma ConsumeOutcomeCases(body: IncomingBody, maxBodySize: U64)
    ensures var r := ConsumeOutcome(body, maxBodySize);
      && (r.Err? && r.error.Status? <==> SizeBound(body) > maxBodySize)
      && (r.Err? && r.error.Status? ==> r.error.code == 413)
      && (SizeBound(body) <= maxBodySize && body.collected.Ok? ==> r == Ok(body.collected.value))
      && (SizeBound(body) <= maxBodySize && body.collected.Err? ==>
            r == Err(Custom("Failed to read body: " + body.collected.error)))
    ensures body.upperHint.None? ==> (ConsumeOutcome(body, maxBodySize).Err? && ConsumeOutcome(body, maxBodySize).error.Status?
                                      <==> maxBodySize < U64_MAX)
  {
  }

  /** `body_bytes` returns the cached bytes when there are some, and the fixed error otherwise. */
  lemma CachedBodyCases(bodyBytes: Option<seq<Byte>>)
    ensures CachedBody(bodyBytes).Ok? <==> bodyBytes.Some?
    ensures bodyBytes.Some? ==> CachedBody(bodyBytes).value == bodyBytes.value
    ensures bodyBytes.None? ==> Display(CachedBody(bodyBytes).error) == "Body already consumed or not available"
  {
  }

  // ---------------------------------------------------------------------------

  /**
   * `Req`: the hyper request (method, path, headers, body), the path
   * parameters, the cached body, and the hyper request's extensions, which
   * the dispatcher reaches through `extensions_mut`.
   */
  class Req {
    const httpMethod: Method
    const path: string
    const headers: Headers
    const incoming: IncomingBody
    const extensions: Extensions
    var pathParams: map<string, string>
    var bodyBytes: Option<seq<Byte>>

    /** `Req::from_hyper`: no path parameters, no cached body, no extensions yet. */
    constructor FromHyper(httpMethod: Method, path: string, headers: Headers, incoming: IncomingBody)
      ensures this.httpMethod == httpMethod && this.path == path && this.headers == headers && this.incoming == incoming
      ensures pathParams == map[] && bodyBytes == None
      ensures fresh(extensions) && extensions.entries == map[] && extensions.Valid()
    {
      this.httpMethod := httpMethod;
      this.path := path;
      this.headers := headers;
      this.incoming := incoming;
      extensions := new Extensions();
      pathParams := map[];
      bodyBytes := None;
    }

    /** `set_path_params`: the whole map is replaced. */
    method SetPathParams(params: map<string, string>)
      modifies this
      ensures pathParams == params && bodyBytes == old(bodyBytes)
    {
      pathParams := params;
    }

    /** `param`. */
    function Param(name: string): (r: Option<string>)
      reads this
      ensures r.Some? <==> name in pathParams
      ensures r.Some? ==> r.value == pathParams[name]
    {
      if name in pathParams then Some(pathParams[name]) else None
    }

    /** `params`. */
    function Params(): (r: map<string, string>)
      reads this
      ensures forall name :: name in r <==> Param(name).Some?
      ensures forall name | name in r :: Param(name) == Some(r[name])
    {
      pathParams
    }

    /** `header`. */
    function Header(name: string): Option<string>
    {
      HeaderLookup(headers, name)
    }

    /** `content_type`. */
    function ContentType(): Option<string>
    {
      HeaderLookup(headers, CONTENT_TYPE)
    }

    /** `is_json`. */
    predicate IsJson()
    {
      MentionsJson(ContentType())
    }

    /** `body_bytes`; it reads the cache and changes nothing. */
    function BodyBytes(): Result<seq<Byte>, Error>
      reads this
    {
      CachedBody(bodyBytes)
    }

    /**
     * `consume_body(max)`: on success the collected bytes are cached; on an
     * error the request is dropped by the source, and the model leaves it as it was.
     */
    method ConsumeBody(maxBodySize: U64) returns (r: Result<(), Error>)
      modifies this
      ensures var outcome := ConsumeOutcome(incoming, maxBodySize);
        && (outcome.Ok? ==> r == Ok(()) && bodyBytes == Some(outcome.value))
        && (outcome.Err? ==> r == Err(outcome.error) && bodyBytes == old(bodyBytes))
      ensures pathParams == old(pathParams)
    {
      var max := if incoming.upperHint.Some? then incoming.upperHint.value else U64_MAX;
      if max > maxBodySize {
        return Err(PayloadTooLarge("Request body too large (max: " + NatToString(maxBodySize) + " bytes)"));
      }
      match incoming.collected {
        case Err(e) =>
          r := Err(Custom("Failed to read body: " + e));
        case Ok(bytes) =>
          bodyBytes := Some(bytes);
          r := Ok(());
      }
    }

    /** The request as handed down the chain: the value `Req` is moved as. */
    function View(): Request
      reads this, extensions
    {
      Request(httpMethod, path, headers, pathParams, bodyBytes, extensions.entries)
    }
  }
}
