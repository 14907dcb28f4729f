/**
 * HTTP responses (src/res.rs): the `Res` constructors, header insertion, and
 * the `ResBuilder` whose text/html/json builders add a default Content-Type
 * only when the caller has not set one.
 */
module Responses {
  import opened Wrappers
  import opened Strings
  import opened Http

  const CONTENT_TYPE_TEXT: string := "text/plain; charset=utf-8"
  const CONTENT_TYPE_HTML: string := "text/html; charset=utf-8"
  const CONTENT_TYPE_JSON: string := "application/json"

  /** The fixed GUID of section 1.3 of RFC 6455, appended to the client's key before hashing. */
  const WEBSOCKET_GUID: string := "258EAFA5-E914-47DA-95CA-C5AB0DC85B11"

  /** The WebSocket handler a 101 response carries; what it does is outside the model. */
  datatype Upgrade = Upgrade(id: nat)

  /** `Res`: status, headers, a fully buffered body, and the optional WebSocket callback. */
  datatype Res = Res(status: StatusCode, headers: Headers, body: seq<Byte>, upgrade: Option<Upgrade>)

  /** `Res::new`: 200, no headers, empty body. */
  function New(): Res
  {
    Res(200, map[], [], None)
  }

  /** `Res::text`. */
  function Text(body: string): Res
  {
    Res(200, map[CONTENT_TYPE := CONTENT_TYPE_TEXT], Utf8(body), None)
  }

  /** `Res::html`. */
  function Html(body: string): Res
  {
    Res(200, map[CONTENT_TYPE := CONTENT_TYPE_HTML], Utf8(body), None)
  }

  /**
   * `Res::json`. `serialized` is what `serde_json::to_vec` returned: the bytes,
   * or the display text of its error.
   */
  function Json(serialized: Result<seq<Byte>, string>): Res
  {
    match serialized
    case Ok(bytes) => Res(200, map[CONTENT_TYPE := CONTENT_TYPE_JSON], bytes, None)
    case Err(e) =>
      Res(500, map[CONTENT_TYPE := CONTENT_TYPE_JSON],
          Utf8("{\"error\": \"JSON serialization failed: " + e + "\"}"), None)
  }

  /** `Res::status`: an empty response with the given status, or 500 if the code is not a status code. */
  function Status(code: U16): Res
  {
    Res(StatusOrInternal(code), map[], [], None)
  }

  /** `Res::status_code`. */
  function StatusCodeOf(r: Res): StatusCode
  {
    r.status
  }

  /** `Res::header`: inserts (replacing) when both name and value parse; otherwise nothing changes. */
  function Header(r: Res, name: string, value: string): Res
  {
    var n := ParseHeaderName(name);
    if n.Some? && IsValidHeaderValue(value) then r.(headers := r.headers[n.value := value]) else r
  }

  /**
   * `Res::websocket`: 101 Switching Protocols with the handshake headers of
   * section 4.2.2 of RFC 6455. `acceptOf` stands for base64(SHA-1(·)),
   * which is not modelled.
   */
  function Websocket(key: string, handler: Upgrade, acceptOf: string -> string): Res
  {
    Res(101,
        map["upgrade" := "websocket", "connection" := "Upgrade",
            "sec-websocket-accept" := acceptOf(key + WEBSOCKET_GUID)],
        [], Some(handler))
  }

  // ---------------------------------------------------------------------------
  // ResBuilder, as values; the class below is specified by these functions

  datatype Builder = Builder(status: StatusCode, headers: Headers)

  function BuilderNew(): Builder
  {
    Builder(200, map[])
  }

  function BuilderStatus(b: Builder, code: U16): Builder
  {
    b.(status := StatusOrInternal(code))
  }

  function BuilderHeader(b: Builder, name: string, value: string): Builder
  {
    var n := ParseHeaderName(name);
    if n.Some? && IsValidHeaderValue(value) then b.(headers := b.headers[n.value := value]) else b
  }

  /** The builders' Content-Type rule: keep the caller's, else use the default. */
  function WithDefaultContentType(h: Headers, contentType: string): Headers
  {
    if CONTENT_TYPE in h then h else h[CONTENT_TYPE := contentType]
  }

  function BuildText(b: Builder, body: string): Res
  {
    Res(b.status, WithDefaultContentType(b.headers, CONTENT_TYPE_TEXT), Utf8(body), None)
  }

  function BuildHtml(b: Builder, body: string): Res
  {
    Res(b.status, WithDefaultContentType(b.headers, CONTENT_TYPE_HTML), Utf8(body), None)
  }

  /** On a serialisation failure the builder's status and headers are dropped: a fresh 500 text response. */
  function BuildJson(b: Builder, serialized: Result<seq<Byte>, string>): Res
  {
    match serialized
    case Ok(bytes) => Res(b.status, WithDefaultContentType(b.headers, CONTENT_TYPE_JSON), bytes, None)
    case Err(_) => BuildText(BuilderStatus(BuilderNew(), 500), "Failed to serialize JSON")
  }

  function BuildBody(b: Builder, bytes: seq<Byte>): Res
  {
    Res(b.status, b.headers, bytes, None)
  }

  // ---------------------------------------------------------------------------
  // Properties

  /** A status outside 100..999 falls back to 500, for `Res::status` and `ResBuilder::status` alike. */
  lemma StatusFallback(code: U16, b: Builder)
    ensures Status(code).status == (if 100 <= code < 1000 then code else 500)
    ensures BuilderStatus(b, code).status == Status(code).status
    ensures BuilderStatus(b, code).headers == b.headers
    ensures Status(code).body == [] && Status(code).headers == map[]
  {
  }

  /**
   * `header` replaces any value stored under the lower-cased name, leaves every
   * other header, the status and the body alone, and ignores an invalid name or value.
   */
  lemma HeaderInsertion(r: Res, name: string, value: string)
    ensures var r' := Header(r, name, value);
      && r'.status == r.status && r'.body == r.body && r'.upgrade == r.upgrade
      && (IsToken(name) && IsValidHeaderValue(value) ==>
            r'.headers == r.headers[LowerName(name) := value] && r'.headers[LowerName(name)] == value)
      && (!IsToken(name) || !IsValidHeaderValue(value) ==> r' == r)
  {
  }

  /** Setting a header twice keeps only the second value. */
  lemma HeaderLastWins(r: Res, name: string, v1: string, v2: string)
    requires IsValidHeaderValue(v1) && IsValidHeaderValue(v2)
    ensures Header(Header(r, name, v1), name, v2) == Header(r, name, v2)
  {
  }

  /** A builder's header call never touches its status. */
  lemma BuilderHeaderKeepsStatus(b: Builder, name: string, value: string)
    ensures BuilderHeader(b, name, value).status == b.status
  {
  }

  /** A builder's header call with a valid name and value sets the header under its canonical name. */
  lemma BuilderHeaderSets(b: Builder, name: string, canonical: string, value: string)
    requires ParseHeaderName(name) == Some(canonical) && IsValidHeaderValue(value)
    ensures BuilderHeader(b, name, value).headers == b.headers[canonical := value]
  {
  }

  /**
   * The builders keep a Content-Type the caller set and add their default
   * otherwise; status and every other header carry over unchanged.
   */
  lemma {:induction false} BuilderContentType(b: Builder, body: string)
    ensures var t := BuildText(b, body);
      && t.status == b.status
      && (CONTENT_TYPE in b.headers ==> t.headers == b.headers)
      && (CONTENT_TYPE !in b.headers ==> t.headers[CONTENT_TYPE] == CONTENT_TYPE_TEXT)
      && t.headers.Keys == b.headers.Keys + {CONTENT_TYPE}
      && (forall k | k in b.headers && k != CONTENT_TYPE :: t.headers[k] == b.headers[k])
    ensures var h := BuildHtml(b, body);
      && h.status == b.status
      && (CONTENT_TYPE in b.headers ==> h.headers == b.headers)
      && (CONTENT_TYPE !in b.headers ==> h.headers[CONTENT_TYPE] == CONTENT_TYPE_HTML)
      && h.headers.Keys == b.headers.Keys + {CONTENT_TYPE}
  {
  }

  /** A caller-set Content-Type survives the JSON builder too; a failed serialisation is a 500. */
  lemma BuilderJsonOutcome(b: Builder, serialized: Result<seq<Byte>, string>)
    ensures serialized.Ok? ==> BuildJson(b, serialized).status == b.status
    ensures serialized.Ok? ==> BuildJson(b, serialized).body == serialized.value
    ensures serialized.Ok? && CONTENT_TYPE in b.headers ==> BuildJson(b, serialized).headers == b.headers
    ensures serialized.Ok? && CONTENT_TYPE !in b.headers ==>
      BuildJson(b, serialized).headers[CONTENT_TYPE] == CONTENT_TYPE_JSON
    ensures serialized.Err? ==> BuildJson(b, serialized).status == 500
    ensures serialized.Err? ==> Json(serialized).status == 500
  {
  }

  /** `body` copies status and headers exactly and adds no Content-Type. */
  lemma BuilderBodyExact(b: Builder, bytes: seq<Byte>)
    ensures BuildBody(b, bytes).headers == b.headers && BuildBody(b, bytes).status == b.status
    ensures CONTENT_TYPE !in b.headers ==> CONTENT_TYPE !in BuildBody(b, bytes).headers
  {
  }

  /**
   * `Res::new` is an empty 200 with no headers and no WebSocket callback, the
   * same response as `Res::status(200)` and as a fresh builder's empty body;
   * `status_code` reads back the status that `status` set.
   */
  lemma NewIsEmpty(code: U16)
    ensures New().status == 200 && New().headers == map[] && New().body == [] && New().upgrade == None
    ensures New() == Status(200) == BuildBody(BuilderNew(), [])
    ensures StatusCodeOf(Status(code)) == if 100 <= code < 1000 then code else 500
  {
  }

  /**
   * `Res::json` on success is a 200 carrying exactly the serialised bytes and
   * the JSON Content-Type, as a fresh builder's `json` gives; on failure it is
   * a 500 that keeps the JSON Content-Type, with a JSON error object naming
   * the failure as its body.
   */
  lemma JsonOutcome(serialized: Result<seq<Byte>, string>)
    ensures serialized.Ok? ==> Json(serialized) == BuildJson(BuilderNew(), serialized)
    ensures serialized.Ok? ==> Json(serialized).status == 200 && Json(serialized).body == serialized.value
    ensures Json(serialized).headers == map[CONTENT_TYPE := CONTENT_TYPE_JSON] && Json(serialized).upgrade == None
    ensures serialized.Err? ==>
      Json(serialized).status == 500
      && Json(serialized).body == Utf8("{\"error\": \"JSON serialization failed: " + serialized.error + "\"}")
  {
  }

  /** A fresh builder's text response equals `Res::text`; the same holds for HTML. */
  lemma FreshBuilderMatchesConstructors(body: string)
    ensures BuildText(BuilderNew(), body) == Text(body)
    ensures BuildHtml(BuilderNew(), body) == Html(body)
  {
  }

  /**
   * The WebSocket response is 101 with exactly the three handshake headers,
   * the accept value computed from the key and the GUID, and a callback.
   */
  lemma WebsocketHandshake(key: string, handler: Upgrade, acceptOf: string -> string)
    ensures var r := Websocket(key, handler, acceptOf);
      && r.status == 101
      && r.headers.Keys == {"upgrade", "connection", "sec-websocket-accept"}
      && r.headers["upgrade"] == "websocket" && r.headers["connection"] == "Upgrade"
      && r.headers["sec-websocket-accept"] == acceptOf(key + WEBSOCKET_GUID)
      && r.upgrade == Some(handler) && r.body == []
  {
  }

  // ---------------------------------------------------------------------------

  /** `ResBuilder`: a status and a header map, updated by `status` and `header`. */
  class ResBuilder {
    var status: StatusCode
    var headers: Headers

    function Value(): Builder
      reads this
    {
      Builder(status, headers)
    }

    /** `ResBuilder::new`. */
    constructor ()
      ensures Value() == BuilderNew()
    {
      status := 200;
      headers := map[];
    }

    /** `ResBuilder::status`. */
    method Status(code: U16)
      modifies this
      ensures Value() == BuilderStatus(old(Value()), code)
    {
      if 100 <= code < 1000 {
        status := code;
      } else {
        status := 500;
      }
    }

    /** `ResBuilder::header`. */
    method Header(name: string, value: string)
      modifies this
      ensures Value() == BuilderHeader(old(Value()), name, value)
    {
      var n := ParseHeaderName(name);
      if n.Some? && IsValidHeaderValue(value) {
        headers := headers[n.value := value];
      }
    }

    /** `ResBuilder::text`; the builder is consumed, so its own fields are left as they were. */
    method Text(body: string) returns (r: Res)
      ensures r == BuildText(Value(), body)
    {
      var h := headers;
      if CONTENT_TYPE !in h {
        h := h[CONTENT_TYPE := CONTENT_TYPE_TEXT];
      }
      r := Res(status, h, Utf8(body), None);
    }

    /** `ResBuilder::html`. */
    method Html(body: string) returns (r: Res)
      ensures r == BuildHtml(Value(), body)
    {
      var h := headers;
      if CONTENT_TYPE !in h {
        h := h[CONTENT_TYPE := CONTENT_TYPE_HTML];
      }
      r := Res(status, h, Utf8(body), None);
    }

    /** `ResBuilder::json`. */
    method Json(serialized: Result<seq<Byte>, string>) returns (r: Res)
      ensures r == BuildJson(Value(), serialized)
    {
      match serialized {
        case Ok(bytes) =>
          var h := headers;
          if CONTENT_TYPE !in h {
            h := h[CONTENT_TYPE := CONTENT_TYPE_JSON];
          }
          r := Res(status, h, bytes, None);
        case Err(_) =>
          var fallback := new ResBuilder();
          fallback.Status(500);
          r := fallback.Text("Failed to serialize JSON");
      }
    }

    /** `ResBuilder::body`. */
    method Body(bytes: seq<Byte>) returns (r: Res)
      ensures r == BuildBody(Value(), bytes)
    {
      r := Res(status, headers, bytes, None);
    }
  }
}
