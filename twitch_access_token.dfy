/**
 * The URL of the OAuth token request sent to Twitch, built from the
 * environment and the authorization code. Values go into the query string
 * verbatim, without percent-encoding. A missing required variable panics;
 * the model returns the panic message instead.
 */
module TwitchAccessToken {
  import opened Wrappers

  /** `env::var(name).expect(message)`: the value, or the panic message. */
  function Require(env: map<string, string>, name: string, message: string): (r: Result<string, string>)
    ensures r.Ok? <==> name in env
    ensures r.Ok? ==> r.value == env[name]
    ensures r.Err? ==> r.error == message
  {
    if name in env then Ok(env[name]) else Err(message)
  }

  /** The URL for the given values. */
  function TokenUrl(clientId: string, clientSecret: string, code: string, redirectUri: string): string {
    "https://id.twitch.tv/oauth2/token?client_id=" + clientId + "&client_secret=" + clientSecret + "&code=" + code
    + "&grant_type=authorization_code&redirect_uri=" + redirectUri
  }

  /**
   * `construct_twitch_access_url`: `LOCAL_MODE` defaults to "false"; the
   * redirect URI is read twice, both times from `TWITCH_REDIRECT_URI`, and
   * the local one is chosen when `LOCAL_MODE` is exactly "true"; then the
   * client id and secret are read. The first missing variable panics.
   */
  function ConstructTwitchAccessUrl(env: map<string, string>, code: string): Result<string, string> {
    var localMode := if "LOCAL_MODE" in env then env["LOCAL_MODE"] else "false";
    match Require(env, "TWITCH_REDIRECT_URI", "TWITCH_REDIRECT_URI must be set")
    case Err(m) => Err(m)
    case Ok(redirectUri) =>
      match Require(env, "TWITCH_REDIRECT_URI", "TWITCH_REDIRECT_URI_LOCAL must be set")
      case Err(m) => Err(m)
      case Ok(redirectUriLocal) =>
        match Require(env, "TWITCH_CLIENT_ID", "TWITCH_CLIENT_ID must be set")
        case Err(m) => Err(m)
        case Ok(clientId) =>
          match Require(env, "TWITCH_CLIENT_SECRET", "TWITCH_CLIENT_SECRET must be set")
          case Err(m) => Err(m)
          case Ok(clientSecret) =>
            var uri := if localMode == "true" then redirectUriLocal else redirectUri;
            Ok(TokenUrl(clientId, clientSecret, code, uri))
  }

  /**
   * With the three required variables set, the URL carries them and the code
   * verbatim, and the redirect URI is always `TWITCH_REDIRECT_URI`, whatever
   * `LOCAL_MODE` says.
   */
  lemma UrlFromEnvironment(env: map<string, string>, code: string)
    requires "TWITCH_REDIRECT_URI" in env && "TWITCH_CLIENT_ID" in env && "TWITCH_CLIENT_SECRET" in env
    ensures ConstructTwitchAccessUrl(env, code)
            == Ok(TokenUrl(env["TWITCH_CLIENT_ID"], env["TWITCH_CLIENT_SECRET"], code, env["TWITCH_REDIRECT_URI"]))
  {
  }

  /** `LOCAL_MODE` never changes the outcome. */
  lemma LocalModeIrrelevant(env: map<string, string>, code: string, mode: string)
    ensures ConstructTwitchAccessUrl(env["LOCAL_MODE" := mode], code) == ConstructTwitchAccessUrl(env, code)
    ensures ConstructTwitchAccessUrl(env - {"LOCAL_MODE"}, code) == ConstructTwitchAccessUrl(env, code)
  {
    assert "LOCAL_MODE" != "TWITCH_REDIRECT_URI";
    assert "LOCAL_MODE" != "TWITCH_CLIENT_ID";
    assert "LOCAL_MODE" != "TWITCH_CLIENT_SECRET";
  }

  /**
   * A missing variable panics with the message of the first one read; the
   * message naming TWITCH_REDIRECT_URI_LOCAL never appears, because the same
   * variable was read just before.
   */
  lemma MissingVariablePanics(env: map<string, string>, code: string)
    ensures var r := ConstructTwitchAccessUrl(env, code);
            && (r.Err? <==> "TWITCH_REDIRECT_URI" !in env || "TWITCH_CLIENT_ID" !in env || "TWITCH_CLIENT_SECRET" !in env)
            && ("TWITCH_REDIRECT_URI" !in env ==> r == Err("TWITCH_REDIRECT_URI must be set"))
            && ("TWITCH_REDIRECT_URI" in env && "TWITCH_CLIENT_ID" !in env ==> r == Err("TWITCH_CLIENT_ID must be set"))
            && ("TWITCH_REDIRECT_URI" in env && "TWITCH_CLIENT_ID" in env && "TWITCH_CLIENT_SECRET" !in env
                ==> r == Err("TWITCH_CLIENT_SECRET must be set"))
            && r != Err("TWITCH_REDIRECT_URI_LOCAL must be set")
  {
  }

  /**
   * `construct_twitch_access_url` as its panic message shows it was meant:
   * the local redirect URI is read from `TWITCH_REDIRECT_URI_LOCAL`.
   */
  function ConstructTwitchAccessUrlIntended(env: map<string, string>, code: string): Result<string, string> {
    var localMode := if "LOCAL_MODE" in env then env["LOCAL_MODE"] else "false";
    match Require(env, "TWITCH_REDIRECT_URI", "TWITCH_REDIRECT_URI must be set")
    case Err(m) => Err(m)
    case Ok(redirectUri) =>
      match Require(env, "TWITCH_REDIRECT_URI_LOCAL", "TWITCH_REDIRECT_URI_LOCAL must be set")
      case Err(m) => Err(m)
      case Ok(redirectUriLocal) =>
        match Require(env, "TWITCH_CLIENT_ID", "TWITCH_CLIENT_ID must be set")
        case Err(m) => Err(m)
        case Ok(clientId) =>
          match Require(env, "TWITCH_CLIENT_SECRET", "TWITCH_CLIENT_SECRET must be set")
          case Err(m) => Err(m)
          case Ok(clientSecret) =>
            var uri := if localMode == "true" then redirectUriLocal else redirectUri;
            Ok(TokenUrl(clientId, clientSecret, code, uri))
  }

  /**
   * With every variable set, the intended URL carries the local redirect URI
   * exactly when `LOCAL_MODE` is "true", and the other one otherwise.
   */
  lemma IntendedUrlHonoursLocalMode(env: map<string, string>, code: string)
    requires "TWITCH_REDIRECT_URI" in env && "TWITCH_REDIRECT_URI_LOCAL" in env
    requires "TWITCH_CLIENT_ID" in env && "TWITCH_CLIENT_SECRET" in env
    ensures var local := "LOCAL_MODE" in env && env["LOCAL_MODE"] == "true";
            ConstructTwitchAccessUrlIntended(env, code)
            == Ok(TokenUrl(env["TWITCH_CLIENT_ID"], env["TWITCH_CLIENT_SECRET"], code,
                           if local then env["TWITCH_REDIRECT_URI_LOCAL"] else env["TWITCH_REDIRECT_URI"]))
  {
  }

  /**
   * The discrepancy on one environment: in local mode with distinct redirect
   * URIs, the code as written sends the non-local one, where the intended
   * definition sends the local one.
   */
  lemma LocalRedirectIgnored(code: string)
    ensures var env := map["LOCAL_MODE" := "true", "TWITCH_REDIRECT_URI" := "https://a",
                           "TWITCH_REDIRECT_URI_LOCAL" := "http://b", "TWITCH_CLIENT_ID" := "i",
                           "TWITCH_CLIENT_SECRET" := "s"];
            && ConstructTwitchAccessUrl(env, code) == Ok(TokenUrl("i", "s", code, "https://a"))
            && ConstructTwitchAccessUrlIntended(env, code) == Ok(TokenUrl("i", "s", code, "http://b"))
            && ConstructTwitchAccessUrl(env, code) != ConstructTwitchAccessUrlIntended(env, code)
  {
    var env := map["LOCAL_MODE" := "true", "TWITCH_REDIRECT_URI" := "https://a",
                   "TWITCH_REDIRECT_URI_LOCAL" := "http://b", "TWITCH_CLIENT_ID" := "i",
                   "TWITCH_CLIENT_SECRET" := "s"];
    UrlFromEnvironment(env, code);
    IntendedUrlHonoursLocalMode(env, code);
    var prefix := |"https://id.twitch.tv/oauth2/token?client_id="| + |"i"| + |"&client_secret="| + |"s"| + |"&code="|
                  + |code| + |"&grant_type=authorization_code&redirect_uri="|;
    assert TokenUrl("i", "s", code, "https://a")[prefix] == 'h';
    assert TokenUrl("i", "s", code, "https://a")[prefix + 4] == 's';
    assert TokenUrl("i", "s", code, "http://b")[prefix + 4] == ':';
  }

  /** The code sits verbatim between "&code=" and "&grant_type=", whatever characters it holds. */
  lemma CodeVerbatim(clientId: string, clientSecret: string, code: string, redirectUri: string)
    ensures var url := TokenUrl(clientId, clientSecret, code, redirectUri);
            var start := |"https://id.twitch.tv/oauth2/token?client_id="| + |clientId| + |"&client_secret="|
                         + |clientSecret| + |"&code="|;
            url[start..start + |code|] == code
  {
  }
}
