/** The framework's error type, its constructors, `Display` and `From` conversions (src/error.rs). */
module Errors {
  import opened Wrappers
  import opened Strings
  import opened Http

  /**
   * `Error`. The payloads of the foreign errors (`serde_json::Error`,
   * `hyper::Error`, `std::io::Error`) are represented by their display text.
   */
  datatype Error =
    | Status(code: U16, message: Option<string>)
    | Json(detail: string)
    | Hyper(detail: string)
    | Io(detail: string)
    | Custom(msg: string)

  function BadRequest(msg: string): Error { Status(400, Some(msg)) }
  function Unauthorized(msg: string): Error { Status(401, Some(msg)) }
  function Forbidden(msg: string): Error { Status(403, Some(msg)) }
  function NotFound(msg: string): Error { Status(404, Some(msg)) }
  function Unprocessable(msg: string): Error { Status(422, Some(msg)) }
  function Internal(msg: string): Error { Status(500, Some(msg)) }

  /** `Error::status(code)`: a status error without a message. */
  function WithStatus(code: U16): Error { Status(code, None) }

  /**
   * `Error::method_not_allowed` and `Error::payload_too_large` are called by
   * the dispatcher and the body reader but not defined in src/error.rs; they
   * are modelled after the other status constructors.
   */
  function MethodNotAllowed(msg: string): Error { Status(405, Some(msg)) }
  function PayloadTooLarge(msg: string): Error { Status(413, Some(msg)) }

  /** `impl Display for Error`. */
  function Display(e: Error): string
  {
    match e
    case Status(code, Some(msg)) => "HTTP " + NatToString(code) + ": " + msg
    case Status(code, None) => "HTTP " + NatToString(code)
    case Json(d) => "JSON error: " + d
    case Hyper(d) => "HTTP error: " + d
    case Io(d) => "IO error: " + d
    case Custom(msg) => msg
  }

  /** `From<String>` and `From<&str>`: a custom error carrying the text. */
  function FromString(msg: string): Error { Custom(msg) }

  /** `From<serde_json::Error>`, `From<hyper::Error>`, `From<std::io::Error>`. */
  function FromJson(detail: string): Error { Json(detail) }
  function FromHyper(detail: string): Error { Hyper(detail) }
  function FromIo(detail: string): Error { Io(detail) }

  /** The run of decimal digits at the start of `s`, up to the first other character. */
  function LeadingDigits(s: string): (d: string)
    ensures AllDigits(d) && |d| <= |s| && d == s[..|d|]
    ensures |d| < |s| ==> !IsDigit(s[|d|])
  {
    if s == [] || !IsDigit(s[0]) then [] else [s[0]] + LeadingDigits(s[1..])
  }

  /** A run of digits followed by the end of the text or by a non-digit is the leading run. */
  lemma {:induction false} LeadingDigitsOf(d: string, rest: string)
    requires AllDigits(d)
    requires rest == [] || !IsDigit(rest[0])
    ensures LeadingDigits(d + rest) == d
  {
    if d == [] {
      assert d + rest == rest;
    } else {
      assert (d + rest)[1..] == d[1..] + rest;
      LeadingDigitsOf(d[1..], rest);
    }
  }

  /** The status code a status error carries, read back from its display text: the digits after "HTTP ". */
  function DisplayedCode(text: string): Option<nat>
  {
    if |text| >= 5 && text[..5] == "HTTP " && LeadingDigits(text[5..]) != [] then
      Some(ParseDecimal(LeadingDigits(text[5..])))
    else
      None
  }

  /** Each named constructor builds a status error whose code is the one its name promises, with the message kept. */
  lemma ConstructorCodes(msg: string)
    ensures BadRequest(msg) == Status(400, Some(msg)) && Unauthorized(msg) == Status(401, Some(msg))
    ensures Forbidden(msg) == Status(403, Some(msg)) && NotFound(msg) == Status(404, Some(msg))
    ensures Unprocessable(msg) == Status(422, Some(msg)) && Internal(msg) == Status(500, Some(msg))
    ensures MethodNotAllowed(msg) == Status(405, Some(msg)) && PayloadTooLarge(msg) == Status(413, Some(msg))
  {
  }

  /**
   * The display of a status error, for any `u16` code, starts with "HTTP ",
   * then the code's digits, which read back as the code; without a message
   * the text ends there, with one it goes on with ": " and the message.
   */
  lemma {:induction false} DisplayStatus(code: U16, msg: Option<string>)
    ensures DisplayedCode(Display(Status(code, msg))) == Some(code)
    ensures msg.None? ==> |Display(Status(code, msg))| == 5 + |LeadingDigits(Display(Status(code, msg))[5..])|
    ensures msg.Some? ==> Display(Status(code, msg)) == Display(Status(code, None)) + ": " + msg.value
  {
    var digits := NatToString(code);
    var rest: string := if msg.Some? then ": " + msg.value else [];
    var t := Display(Status(code, msg));
    assert t == "HTTP " + digits + rest;
    assert t[..5] == "HTTP " && t[5..] == digits + rest;
    LeadingDigitsOf(digits, rest);
    ParseNatToString(code);
  }

  /** A message converted into an error displays as exactly that message. */
  lemma DisplayFromString(msg: string)
    ensures Display(FromString(msg)) == msg
  {
  }

  /** The foreign errors display with a fixed prefix naming their source, then their own text. */
  lemma DisplayForeign(d: string)
    ensures Display(FromJson(d)) == "JSON error: " + d
    ensures Display(FromHyper(d)) == "HTTP error: " + d
    ensures Display(FromIo(d)) == "IO error: " + d
  {
  }
}
