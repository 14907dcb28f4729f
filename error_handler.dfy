/**
 * Turning errors into responses (src/error_handler.rs): the plain-text
 * default handler, the JSON handler, handlers built from a function, the
 * reason phrases of `status_text` and the string escaping of `escape_json`.
 */
module ErrorHandlers {
  import opened Wrappers
  import opened Strings
  import opened Http
  import opened Errors
  import R = Responses

  /** The handlers an application can install. */
  datatype ErrorHandler =
    | DefaultErrorHandler
    | JsonErrorHandler
    | FnErrorHandler(f: Error -> R.Res)

  /** `ErrorHandler::handle`. */
  function Handle(h: ErrorHandler, e: Error): R.Res
  {
    match h
    case DefaultErrorHandler => DefaultHandle(e)
    case JsonErrorHandler => JsonHandle(e)
    case FnErrorHandler(f) => f(e)
  }

  /** `DefaultErrorHandler::handle`. */
  function DefaultHandle(e: Error): R.Res
  {
    match e
    case Status(code, Some(msg)) =>
      R.BuildText(R.BuilderStatus(R.BuilderNew(), code), NatToString(code) + " " + msg)
    case Status(code, None) => R.Status(code)
    case Json(d) => R.BuildText(R.BuilderStatus(R.BuilderNew(), 400), "JSON error: " + d)
    case Hyper(d) => R.BuildText(R.BuilderStatus(R.BuilderNew(), 500), "HTTP error: " + d)
    case Io(d) => R.BuildText(R.BuilderStatus(R.BuilderNew(), 500), "IO error: " + d)
    case Custom(msg) => R.BuildText(R.BuilderStatus(R.BuilderNew(), 500), msg)
  }

  /** The status code and message the JSON handler reports for an error. */
  function JsonFields(e: Error): (U16, string)
  {
    match e
    case Status(code, Some(msg)) => (code, msg)
    case Status(code, None) => (code, StatusText(code))
    case Json(d) => (400, "JSON error: " + d)
    case Hyper(d) => (500, "HTTP error: " + d)
    case Io(d) => (500, "IO error: " + d)
    case Custom(msg) => (500, msg)
  }

  /** The document `{"error":"<escaped message>","status":<code>}`. */
  function JsonDocument(message: string, code: nat): string
  {
    "{\"error\":\"" + EscapeJson(message) + "\",\"status\":" + NatToString(code) + "}"
  }

  /** `JsonErrorHandler::handle`. */
  function JsonHandle(e: Error): R.Res
  {
    var (code, message) := JsonFields(e);
    var b := R.BuilderHeader(R.BuilderStatus(R.BuilderNew(), code), "Content-Type", "application/json");
    R.BuildText(b, JsonDocument(message, code))
  }

  /**
   * `status_text`: the source's own reason phrases for ten codes (for 413 and
   * 422 the older names, not those of section 15 of RFC 9110), "HTTP <code>" otherwise.
   */
  function StatusText(code: U16): string
  {
    match code
    case 400 => "Bad Request"
    case 401 => "Unauthorized"
    case 403 => "Forbidden"
    case 404 => "Not Found"
    case 405 => "Method Not Allowed"
    case 413 => "Payload Too Large"
    case 422 => "Unprocessable Entity"
    case 500 => "Internal Server Error"
    case 502 => "Bad Gateway"
    case 503 => "Service Unavailable"
    case _ => "HTTP " + NatToString(code)
  }

  /** `escape_json`: five successive `replace` passes, backslash first. */
  function EscapeJson(s: string): string
  {
    ReplaceChar(ReplaceChar(ReplaceChar(ReplaceChar(ReplaceChar(
      s, '\\', "\\\\"), '"', "\\\""), '\n', "\\n"), '\r', "\\r"), '\t', "\\t")
  }

  // ---------------------------------------------------------------------------
  // A one-pass reference definition of the escaping, and its inverse

  predicate IsEscaped(c: char) {
    c == '\\' || c == '"' || c == '\n' || c == '\r' || c == '\t'
  }

  function EscapeChar(c: char): string
  {
    if c == '\\' then "\\\\"
    else if c == '"' then "\\\""
    else if c == '\n' then "\\n"
    else if c == '\r' then "\\r"
    else if c == '\t' then "\\t"
    else [c]
  }

  /** Each character escaped on its own, left to right. */
  function EscapeEach(s: string): string
  {
    if s == [] then [] else EscapeChar(s[0]) + EscapeEach(s[1..])
  }

  /** Reads the escapes back: a backslash and the following character stand for one character. */
  function Unescape(s: string): string
  {
    if |s| >= 2 && s[0] == '\\' then
      [if s[1] == 'n' then '\n' else if s[1] == 'r' then '\r' else if s[1] == 't' then '\t' else s[1]]
      + Unescape(s[2..])
    else if s == [] then []
    else [s[0]] + Unescape(s[1..])
  }

  function CountEscaped(s: string): nat
  {
    if s == [] then 0 else (if IsEscaped(s[0]) then 1 else 0) + CountEscaped(s[1..])
  }

  lemma EscapeJsonOneChar(c: char)
    ensures EscapeJson([c]) == EscapeChar(c)
  {
    var s0: string := [c];
    if c == '\\' {
      assert ReplaceChar(s0, '\\', "\\\\") == "\\\\";
      ReplaceAbsent("\\\\", '"', "\\\"");
      ReplaceAbsent("\\\\", '\n', "\\n");
      ReplaceAbsent("\\\\", '\r', "\\r");
      ReplaceAbsent("\\\\", '\t', "\\t");
    } else if c == '"' {
      ReplaceAbsent(s0, '\\', "\\\\");
      assert ReplaceChar(s0, '"', "\\\"") == "\\\"";
      ReplaceAbsent("\\\"", '\n', "\\n");
      ReplaceAbsent("\\\"", '\r', "\\r");
      ReplaceAbsent("\\\"", '\t', "\\t");
    } else if c == '\n' {
      ReplaceAbsent(s0, '\\', "\\\\");
      ReplaceAbsent(s0, '"', "\\\"");
      assert ReplaceChar(s0, '\n', "\\n") == "\\n";
      ReplaceAbsent("\\n", '\r', "\\r");
      ReplaceAbsent("\\n", '\t', "\\t");
    } else if c == '\r' {
      ReplaceAbsent(s0, '\\', "\\\\");
      ReplaceAbsent(s0, '"', "\\\"");
      ReplaceAbsent(s0, '\n', "\\n");
      assert ReplaceChar(s0, '\r', "\\r") == "\\r";
      ReplaceAbsent("\\r", '\t', "\\t");
    } else if c == '\t' {
      ReplaceAbsent(s0, '\\', "\\\\");
      ReplaceAbsent(s0, '"', "\\\"");
      ReplaceAbsent(s0, '\n', "\\n");
      ReplaceAbsent(s0, '\r', "\\r");
      assert ReplaceChar(s0, '\t', "\\t") == "\\t";
    } else {
      ReplaceAbsent(s0, '\\', "\\\\");
      ReplaceAbsent(s0, '"', "\\\"");
      ReplaceAbsent(s0, '\n', "\\n");
      ReplaceAbsent(s0, '\r', "\\r");
      ReplaceAbsent(s0, '\t', "\\t");
    }
  }

  lemma EscapeJsonAppend(a: string, b: string)
    ensures EscapeJson(a + b) == EscapeJson(a) + EscapeJson(b)
  {
    ReplaceAppend(a, b, '\\', "\\\\");
    var a1, b1 := ReplaceChar(a, '\\', "\\\\"), ReplaceChar(b, '\\', "\\\\");
    ReplaceAppend(a1, b1, '"', "\\\"");
    var a2, b2 := ReplaceChar(a1, '"', "\\\""), ReplaceChar(b1, '"', "\\\"");
    ReplaceAppend(a2, b2, '\n', "\\n");
    var a3, b3 := ReplaceChar(a2, '\n', "\\n"), ReplaceChar(b2, '\n', "\\n");
    ReplaceAppend(a3, b3, '\r', "\\r");
    var a4, b4 := ReplaceChar(a3, '\r', "\\r"), ReplaceChar(b3, '\r', "\\r");
    ReplaceAppend(a4, b4, '\t', "\\t");
  }

  /**
   * The chain of `replace` calls equals escaping each character once: because
   * backslashes are replaced first, no later pass re-escapes an escape.
   */
  lemma {:induction false} EscapeJsonIsOnePass(s: string)
    ensures EscapeJson(s) == EscapeEach(s)
  {
    if s == [] {
      assert EscapeJson(s) == [];
    } else {
      assert s == [s[0]] + s[1..];
      EscapeJsonAppend([s[0]], s[1..]);
      EscapeJsonOneChar(s[0]);
      EscapeJsonIsOnePass(s[1..]);
    }
  }

  lemma {:induction false} UnescapeEscapeEach(s: string)
    ensures Unescape(EscapeEach(s)) == s
  {
    if s != [] {
      var rest := EscapeEach(s[1..]);
      UnescapeEscapeEach(s[1..]);
      var e := EscapeChar(s[0]);
      if IsEscaped(s[0]) {
        assert |e| == 2 && e[0] == '\\';
        assert (e + rest)[2..] == rest;
      } else {
        assert (e + rest)[1..] == rest;
      }
    }
  }

  /** The escaping is lossless: reading the escapes back gives the original text. */
  lemma UnescapeEscapeJson(s: string)
    ensures Unescape(EscapeJson(s)) == s
  {
    EscapeJsonIsOnePass(s);
    UnescapeEscapeEach(s);
  }

  lemma {:induction false} EscapeEachFacts(s: string)
    ensures |EscapeEach(s)| == |s| + CountEscaped(s)
    ensures '\n' !in EscapeEach(s) && '\r' !in EscapeEach(s) && '\t' !in EscapeEach(s)
    ensures CountEscaped(s) == 0 ==> EscapeEach(s) == s
  {
    if s != [] {
      EscapeEachFacts(s[1..]);
    }
  }

  /**
   * The output holds no raw newline, carriage return or tab; it is longer
   * than the input by one character per escaped character; and a string
   * without any of the five characters comes back unchanged.
   */
  lemma EscapeJsonShape(s: string)
    ensures |EscapeJson(s)| == |s| + CountEscaped(s)
    ensures '\n' !in EscapeJson(s) && '\r' !in EscapeJson(s) && '\t' !in EscapeJson(s)
    ensures CountEscaped(s) == 0 ==> EscapeJson(s) == s
  {
    EscapeJsonIsOnePass(s);
    EscapeEachFacts(s);
  }

  /** A string holding none of the five escaped characters comes back unchanged. */
  lemma EscapeJsonPlain(s: string)
    requires forall i | 0 <= i < |s| :: !IsEscaped(s[i])
    ensures EscapeJson(s) == s
  {
    ReplaceAbsent(s, '\\', "\\\\");
    ReplaceAbsent(s, '"', "\\\"");
    ReplaceAbsent(s, '\n', "\\n");
    ReplaceAbsent(s, '\r', "\\r");
    ReplaceAbsent(s, '\t', "\\t");
  }

  /**
   * The shapes of the source's unit test, for any plain text `a` and `w`:
   * plain text is unchanged, quotes gain a backslash, a newline becomes "\n".
   */
  lemma EscapeJsonTestShapes(a: string, w: string)
    requires forall i | 0 <= i < |a| :: !IsEscaped(a[i])
    requires forall i | 0 <= i < |w| :: !IsEscaped(w[i])
    ensures EscapeJson(a) == a
    ensures EscapeJson(a + "\"" + w + "\"") == a + "\\\"" + w + "\\\""
    ensures EscapeJson(a + "\n" + w) == a + "\\n" + w
  {
    EscapeJsonPlain(a);
    EscapeJsonPlain(w);
    EscapeJsonOneChar('"');
    EscapeJsonOneChar('\n');
    EscapeJsonAppend(a, "\"");
    EscapeJsonAppend(a + "\"", w);
    EscapeJsonAppend(a + "\"" + w, "\"");
    EscapeJsonAppend(a, "\n");
    EscapeJsonAppend(a + "\n", w);
  }

  /**
   * Control characters other than newline, carriage return and tab are left
   * raw, so the output is not always a valid JSON string (section 7 of RFC 8259).
   */
  lemma EscapeJsonLeavesOtherControls(c: char)
    requires c < ' ' && c != '\n' && c != '\r' && c != '\t'
    ensures EscapeJson([c]) == [c]
  {
    EscapeJsonPlain([c]);
  }

  // ---------------------------------------------------------------------------
  // The handlers' properties

  /** The status code an error maps to, before the fallback for codes outside 100..999. */
  function ErrorCode(e: Error): U16
  {
    match e
    case Status(code, _) => code
    case Json(_) => 400
    case Hyper(_) => 500
    case Io(_) => 500
    case Custom(_) => 500
  }

  /**
   * The default handler: a status error with a message becomes "<code> <message>"
   * as text with that status; without a message, an empty body; every other
   * error becomes its `Display` text with 400 (JSON) or 500.
   */
  lemma DefaultHandleShape(e: Error)
    ensures DefaultHandle(e).status == StatusOrInternal(ErrorCode(e))
    ensures DefaultHandle(e).upgrade == None
    ensures e.Status? && e.message.Some? ==>
      DefaultHandle(e).body == Utf8(NatToString(e.code) + " " + e.message.value)
      && DefaultHandle(e).headers == map[CONTENT_TYPE := R.CONTENT_TYPE_TEXT]
    ensures e.Status? && e.message.None? ==> DefaultHandle(e).body == [] && DefaultHandle(e).headers == map[]
    ensures !e.Status? ==>
      DefaultHandle(e).body == Utf8(Display(e))
      && DefaultHandle(e).headers == map[CONTENT_TYPE := R.CONTENT_TYPE_TEXT]
  {
  }

  lemma JsonHandlerHeaders(code: U16)
    ensures R.BuilderHeader(R.BuilderStatus(R.BuilderNew(), code), "Content-Type", "application/json").headers
      == map[CONTENT_TYPE := R.CONTENT_TYPE_JSON]
  {
    ContentTypeName();
    JsonValueValid();
    R.BuilderHeaderSets(R.BuilderStatus(R.BuilderNew(), code), "Content-Type", CONTENT_TYPE, R.CONTENT_TYPE_JSON);
  }


  lemma JsonValueValid()
    ensures IsValidHeaderValue(R.CONTENT_TYPE_JSON)
  {
    var v := R.CONTENT_TYPE_JSON;
    assert forall i | 0 <= i < |v| :: v[i] != '/' ==> 'a' <= v[i] <= 'z';
  }

  /** The JSON handler picks the same status as the default handler. */
  lemma JsonHandleStatus(e: Error)
    ensures JsonHandle(e).status == DefaultHandle(e).status == StatusOrInternal(ErrorCode(e))
  {
    var code := JsonFields(e).0;
    assert code == ErrorCode(e);
    R.BuilderHeaderKeepsStatus(R.BuilderStatus(R.BuilderNew(), code), "Content-Type", "application/json");
    DefaultHandleShape(e);
  }

  /** The JSON handler always answers with Content-Type application/json and no other header. */
  lemma JsonHandleHeaders(e: Error)
    ensures JsonHandle(e).headers == map[CONTENT_TYPE := R.CONTENT_TYPE_JSON]
  {
    JsonHandlerHeaders(JsonFields(e).0);
  }

  /**
   * The JSON handler's body is the JSON document of the error's message and
   * code: the reason phrase when a status error has no message, the `Display`
   * text for the errors that are not status errors.
   */
  lemma JsonHandleBody(e: Error)
    ensures JsonHandle(e).body == Utf8(JsonDocument(JsonFields(e).1, ErrorCode(e)))
    ensures e.Status? && e.message.Some? ==> JsonFields(e).1 == e.message.value
    ensures e.Status? && e.message.None? ==> JsonFields(e).1 == StatusText(e.code)
    ensures !e.Status? ==> JsonFields(e).1 == Display(e)
  {
  }

  /** The message inside the JSON document is recovered exactly by reading its escapes back. */
  lemma JsonDocumentMessage(message: string, code: nat)
    ensures var doc := JsonDocument(message, code);
      var esc := EscapeJson(message);
      doc[..10] == "{\"error\":\"" && doc[10..10 + |esc|] == esc && Unescape(doc[10..10 + |esc|]) == message
  {
    UnescapeEscapeJson(message);
  }

  /** A function handler is its function. */
  lemma FnHandlerCalls(f: Error -> R.Res, e: Error)
    ensures Handle(FnErrorHandler(f), e) == f(e)
  {
  }

  /** `status_text` gives the listed reason phrases, and "HTTP <code>" for any other code. */
  lemma StatusTextPhrases(code: U16)
    ensures StatusText(400) == "Bad Request" && StatusText(401) == "Unauthorized"
    ensures StatusText(403) == "Forbidden" && StatusText(404) == "Not Found"
    ensures StatusText(405) == "Method Not Allowed" && StatusText(413) == "Payload Too Large"
    ensures StatusText(422) == "Unprocessable Entity" && StatusText(500) == "Internal Server Error"
    ensures StatusText(502) == "Bad Gateway" && StatusText(503) == "Service Unavailable"
    ensures code !in {400, 401, 403, 404, 405, 413, 422, 500, 502, 503} ==>
      StatusText(code) == "HTTP " + NatToString(code)
  {
  }
}
