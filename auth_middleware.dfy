/**
 * The authentication middleware of the web API. A request is forwarded only
 * when the Authorization header is present and readable as text, and the
 * path is one of the two whitelisted routes or the header holds at least two
 * whitespace-separated words. The words are not checked further: the first
 * need not be "Bearer" and the token check accepts everything. Every other
 * request is answered 401 Unauthorized.
 */
module AuthMiddleware {
  import opened Wrappers
  import opened Strings

  type Byte = b: int | 0 <= b < 256

  /** The routes that need no token. */
  const Whitelist: seq<string> := ["/auth/login", "/auth/register"]

  /** `HeaderValue::to_str`: the header as text when every byte is visible ASCII or a tab, else an error. */
  function ToStr(header: seq<Byte>): (r: Option<string>)
    ensures r.Some? <==> forall i :: 0 <= i < |header| ==> header[i] == 9 || 32 <= header[i] <= 126
    ensures r.Some? ==> |r.value| == |header| && forall i :: 0 <= i < |header| ==> r.value[i] as int == header[i]
  {
    if forall i :: 0 <= i < |header| ==> header[i] == 9 || 32 <= header[i] <= 126 then
      Some(seq(|header|, i requires 0 <= i < |header| => header[i] as char))
    else None
  }

  /** `check_token`: accepts every token. */
  function CheckToken(token: string): (ok: bool)
    ensures ok
  {
    true
  }

  /** `validate_token`: at least two whitespace-separated words, neither empty, and the second passes `check_token`. */
  function ValidateToken(header: string): bool {
    var parts := SplitWhitespace(header);
    if |parts| < 2 then false
    else if parts[0] == "" || parts[1] == "" then false
    else CheckToken(parts[1])
  }

  /** Only the number of words decides: the emptiness test never fires, because no word is empty. */
  lemma ValidateTokenIff(header: string)
    ensures ValidateToken(header) <==> |SplitWhitespace(header)| >= 2
    ensures ValidateToken(header) <==> HasTwoWords(header)
  {
    TwoTokensIff(header);
  }

  /** Any two words pass, whatever the first one says. */
  lemma AnySchemeAccepted(scheme: string, token: string)
    requires |scheme| > 0 && |token| > 0 && NoWhitespace(scheme) && NoWhitespace(token)
    ensures ValidateToken(scheme + " " + token)
  {
    var s := scheme + " " + token;
    assert s[0] == scheme[0] && s[|scheme|] == ' ' && s[|scheme| + 1] == token[0];
    assert HasTwoWords(s);
    ValidateTokenIff(s);
  }

  /** `check_authentication`: `None` without a readable header; `Some(true)` on a whitelisted path; else the token verdict. */
  function CheckAuthentication(header: Option<seq<Byte>>, path: string): Option<bool> {
    match header
    case None => None
    case Some(bytes) =>
      match ToStr(bytes)
      case None => None
      case Some(text) => if path in Whitelist then Some(true) else Some(ValidateToken(text))
  }

  datatype Decision = Forward | Unauthorized

  /** `call`: forward the request exactly when the check gives `Some(true)`. */
  function Call(header: Option<seq<Byte>>, path: string): Decision {
    if CheckAuthentication(header, path) == Some(true) then Forward else Unauthorized
  }

  /**
   * A request is forwarded exactly when its header is present and readable,
   * and the path is "/auth/login" or "/auth/register" or the header holds two
   * words.
   */
  lemma CallIff(header: Option<seq<Byte>>, path: string)
    ensures Call(header, path) == Forward <==>
              && header.Some? && ToStr(header.value).Some?
              && (path == "/auth/login" || path == "/auth/register" || HasTwoWords(ToStr(header.value).value))
  {
    if header.Some? && ToStr(header.value).Some? {
      ValidateTokenIff(ToStr(header.value).value);
    }
  }

  /** Without a readable header even the whitelisted routes are refused. */
  lemma NoHeaderRefused(bytes: seq<Byte>, path: string)
    requires ToStr(bytes).None?
    ensures Call(None, path) == Unauthorized
    ensures Call(Some(bytes), path) == Unauthorized
  {
  }
}
