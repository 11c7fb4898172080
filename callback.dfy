/**
 * `GET /api/auth/spotify/callback`: the redirect target of the
 * authorization request. It checks the client configuration and the
 * `code` parameter, exchanges the code for tokens with the access token
 * request of section 4.1.3 of RFC 6749 (client authentication by HTTP
 * Basic, section 2 of RFC 7617), and on success redirects to the dashboard
 * with the two tokens stored in HttpOnly cookies.
 *
 * The token endpoint's answer is an input: either the exchange threw, or it
 * gave a status and a parsed JSON body.
 */
module Callback {

  import opened Wrappers
  import Js
  import Utf8
  import Base64
  import FormUrlEncoded
  import Json
  import opened Http
  import opened ServerEnv

  const TokenUrl := "https://accounts.spotify.com/api/token"
  const FormContentType := "application/x-www-form-urlencoded"
  const DefaultBaseUrl := "http://127.0.0.1:3000"
  const AccessCookieName := "spotify_access_token"
  const RefreshCookieName := "spotify_refresh_token"

  const ConfigError :=
    "Server Configuration Error: One or more Spotify API credentials (client ID, client secret, or redirect URI) are missing. Please ensure all required Spotify environment variables are set."
  const MissingCode := "Authorization Error: Authorization code not found in callback from Spotify."
  const TokenFailed := "Failed to fetch access token from Spotify."
  const UnexpectedFailure := "An unexpected error occurred during the Spotify callback process."
  const UnknownError := "An unknown error occurred during callback processing."

  /** The TypeErrors a null token body raises (V8's wording): reading
      `data.error_description`, and destructuring `data`. */
  const NullDescriptionRead := "Cannot read properties of null (reading 'error_description')"
  const NullDestructure := "Cannot destructure property 'access_token' of 'data' as it is null."

  /** The POST to the token endpoint. */
  datatype TokenRequest = TokenRequest(url: string, contentType: string, authorization: string, body: string)

  /** What the token exchange came to: `fetch` or `response.json()` threw,
      or the endpoint answered with a status and a parsed body. */
  datatype TokenOutcome = Threw(err: Js.Thrown) | Replied(status: int, data: Json.Json)

  /** The request the handler sent, if it got that far, and its response. */
  datatype Outcome = Outcome(request: Option<TokenRequest>, response: Response)

  /** `"Basic " + Buffer.from(id + ":" + secret).toString("base64")`. */
  function BasicAuthorization(clientId: string, clientSecret: string): string {
    "Basic " + Base64.Encode(Utf8.Encode(clientId + ":" + clientSecret))
  }

  /** The form parameters of the token request, in order. */
  function TokenForm(code: string, redirectUri: string): seq<FormUrlEncoded.Pair> {
    [("grant_type", "authorization_code"), ("code", code), ("redirect_uri", redirectUri)]
  }

  function TokenRequestFor(clientId: string, clientSecret: string, code: string, redirectUri: string): TokenRequest {
    TokenRequest(TokenUrl, FormContentType, BasicAuthorization(clientId, clientSecret),
                 FormUrlEncoded.Serialize(TokenForm(code, redirectUri)))
  }

  /** The 500 the `catch` block answers with. */
  function InternalError(err: Js.Thrown): Response {
    JsonReply(500, Json.JObj([("error", Json.JStr("Internal server error")),
                              ("message", Json.JStr(UnexpectedFailure)),
                              ("details", Json.JStr(Js.ErrorText(err, UnknownError)))]))
  }

  /** The text a cookie value is written with (`String(value ?? "")`); an
      absent or null member gives the empty string. */
  function CookieText(v: Option<Json.Json>): string {
    if v.None? || v.value.JNull? then "" else Json.ToText(v.value)
  }

  /** `maxAge: expires_in`: written only when it is a number. */
  function MaxAge(v: Option<Json.Json>): Option<int> {
    if v.Some? && v.value.JNum? then Some(v.value.n) else None
  }

  function AccessCookie(data: Json.Json, secure: bool): Cookie
    requires !data.JNull?
  {
    Cookie(AccessCookieName, CookieText(Json.Member(data, "access_token").v), true, secure, "/",
           MaxAge(Json.Member(data, "expires_in").v))
  }

  function RefreshCookie(data: Json.Json, secure: bool): Cookie
    requires !data.JNull?
  {
    Cookie(RefreshCookieName, CookieText(Json.Member(data, "refresh_token").v), true, secure, "/", None)
  }

  /** The cookie collection after the two `set` calls on a fresh response. */
  function TokenCookies(data: Json.Json, secure: bool): seq<Cookie>
    requires !data.JNull?
  {
    Put(Put([], AccessCookie(data, secure)), RefreshCookie(data, secure))
  }

  /** `process.env.NEXT_PUBLIC_BASE_URL || "http://127.0.0.1:3000"`. */
  function BaseUrl(env: Env): string {
    if Js.TruthyText(env.publicBaseUrl) then env.publicBaseUrl.value else DefaultBaseUrl
  }

  /** The message of the TypeError `new URL` throws for a string it cannot parse. */
  const InvalidUrl := "Invalid URL"

  /** The basic URL parser's input (section 4.4 of the WHATWG URL Standard):
      leading C0 controls and spaces are dropped, then every tab and
      newline is removed. A colon in it comes from the text. */
  function ParserInput(s: string): (t: string)
    ensures ':' !in s ==> ':' !in t
  {
    RemoveTabNewline(StripLeadingControls(s))
  }

  predicate TabOrNewline(c: char) {
    c == '\t' || c == '\n' || c == '\r'
  }

  function StripLeadingControls(s: string): (r: string)
    ensures ':' !in s ==> ':' !in r
    ensures |s| > 0 && s[0] > ' ' ==> r == s
    decreases |s|
  {
    if s != [] && s[0] <= ' ' then StripLeadingControls(s[1..]) else s
  }

  function RemoveTabNewline(s: string): (r: string)
    ensures ':' !in s ==> ':' !in r
    decreases |s|
  {
    if s == [] then []
    else (if TabOrNewline(s[0]) then [] else [s[0]]) + RemoveTabNewline(s[1..])
  }

  /** Text without tabs or newlines keeps its prefix through their removal. */
  lemma {:induction false} RemoveTabNewlinePrefix(p: string, rest: string)
    requires forall i :: 0 <= i < |p| ==> !TabOrNewline(p[i])
    ensures RemoveTabNewline(p + rest) == p + RemoveTabNewline(rest)
    decreases |p|
  {
    if p != [] {
      assert (p + rest)[0] == p[0];
      assert (p + rest)[1..] == p[1..] + rest;
      RemoveTabNewlinePrefix(p[1..], rest);
    } else {
      assert p + rest == rest;
    }
  }

  predicate SchemeChar(c: char) {
    'a' <= c <= 'z' || 'A' <= c <= 'Z' || '0' <= c <= '9' || c in "+-."
  }

  /** The parser finds a scheme: an ASCII letter, then letters, digits, `+`,
      `-` or `.`, up to the first `:`. Without one, and with no base URL,
      `new URL` fails. */
  predicate HasScheme(s: string) {
    var t := ParserInput(s);
    |t| > 0 && ('a' <= t[0] <= 'z' || 'A' <= t[0] <= 'Z') && ':' in t
    && forall j :: 0 < j < Js.IndexOf(t, ':') ==> SchemeChar(t[j])
  }

  /** The 2xx branch: `new URL(`${base}/dashboard`)` throws when it finds no
      scheme, which the `catch` answers with the internal 500; otherwise a 307
      redirect (`NextResponse.redirect`'s default) there, carrying the token
      cookies. */
  function SuccessRedirect(env: Env, cookies: seq<Cookie>): Response {
    var target := BaseUrl(env) + "/dashboard";
    if !HasScheme(target) then InternalError(Js.ErrorObject(InvalidUrl))
    else Redirect(307, target, cookies)
  }

  /** The response to the token endpoint's reply, given the cookies the
      success branch ends with. */
  function Answer(env: Env, outcome: TokenOutcome, cookies: seq<Cookie>): Response {
    match outcome
    case Threw(err) => InternalError(err)
    case Replied(status, data) =>
      if !(200 <= status <= 299) then
        match Json.Member(data, "error_description")
        case Throws => InternalError(Js.ErrorObject(NullDescriptionRead))
        case Value(d) =>
          var message := if Json.Truthy(d) then d.value else Json.JStr(TokenFailed);
          JsonReply(status, Json.JObj([("error", Json.JStr("Spotify API error")),
                                       ("message", message), ("details", data)]))
      else if data.JNull? then InternalError(Js.ErrorObject(NullDestructure))
      else SuccessRedirect(env, cookies)
  }

  predicate Configured(env: Env) {
    Js.TruthyText(env.clientId) && Js.TruthyText(env.clientSecret) && Js.TruthyText(env.redirectUri)
  }

  /** Past both checks: the token request for `code`, and the response to
      the exchange's outcome, with the token cookies when the reply has a
      body. */
  function Exchange(env: Env, code: string, outcome: TokenOutcome): (r: Outcome)
    requires Configured(env)
    ensures r.request == Some(TokenRequestFor(env.clientId.value, env.clientSecret.value, code, env.redirectUri.value))
    ensures outcome.Threw? ==> r.response.status == 500
  {
    var request := TokenRequestFor(env.clientId.value, env.clientSecret.value, code, env.redirectUri.value);
    var secure := env.nodeEnv == Some("production");
    var cookies := if outcome.Replied? && !outcome.data.JNull? then TokenCookies(outcome.data, secure) else [];
    Outcome(Some(request), Answer(env, outcome, cookies))
  }

  /** The handler, for the request's query parameters `query` and the token
      exchange's outcome. */
  function Get(env: Env, query: seq<FormUrlEncoded.Pair>, outcome: TokenOutcome): (r: Outcome)
    ensures !Configured(env) ==> r == Outcome(None, Text(500, ConfigError))
    ensures Configured(env) && !Js.TruthyText(FormUrlEncoded.Get(query, "code")) ==>
              r == Outcome(None, Text(400, MissingCode))
    ensures Configured(env) && Js.TruthyText(FormUrlEncoded.Get(query, "code")) ==>
              r == Exchange(env, FormUrlEncoded.Get(query, "code").value, outcome)
  {
    if !Configured(env) then Outcome(None, Text(500, ConfigError))
    else
      var code := FormUrlEncoded.Get(query, "code");
      if !Js.TruthyText(code) then Outcome(None, Text(400, MissingCode))
      else Exchange(env, code.value, outcome)
  }

  /** The exchange as it runs: the success branch allocates the redirect
      response and sets the two cookies on it one after the other. */
  method Exchanged(env: Env, code: string, outcome: TokenOutcome) returns (r: Outcome)
    requires Configured(env)
    ensures r == Exchange(env, code, outcome)
  {
    var request := TokenRequestFor(env.clientId.value, env.clientSecret.value, code, env.redirectUri.value);
    var secure := env.nodeEnv == Some("production");
    var cookies: seq<Cookie> := [];
    if outcome.Replied? && !outcome.data.JNull? {
      var jar := new CookieJar();
      jar.Set(AccessCookie(outcome.data, secure));
      jar.Set(RefreshCookie(outcome.data, secure));
      cookies := jar.cookies;
    }
    r := Outcome(Some(request), Answer(env, outcome, cookies));
  }

  // ---- Properties ---------------------------------------------------------

  /** The token request goes to the token endpoint as a form whose body
      decodes to exactly `grant_type`, `code` and `redirect_uri`, in that order. */
  lemma TokenRequestBody(clientId: string, clientSecret: string, code: string, redirectUri: string)
    ensures var req := TokenRequestFor(clientId, clientSecret, code, redirectUri);
            req.url == TokenUrl && req.contentType == FormContentType
            && FormUrlEncoded.Parse(req.body) == Some(TokenForm(code, redirectUri))
  {
    FormUrlEncoded.ParseSerialize(TokenForm(code, redirectUri));
  }

  /** The credentials header decodes (base64, then UTF-8) to `id:secret`,
      and when the id has no colon the first colon separates the two again
      (section 2 of RFC 7617). */
  lemma BasicCredentials(clientId: string, clientSecret: string)
    ensures var auth, credentials := BasicAuthorization(clientId, clientSecret), clientId + ":" + clientSecret;
            |auth| >= 6 && auth[..6] == "Basic "
            && Base64.Decode(auth[6..]) == Some(Utf8.Encode(credentials))
            && Utf8.Decode(Utf8.Encode(credentials)) == Some(credentials)
            && (':' !in clientId ==>
                  var k := Js.IndexOf(credentials, ':');
                  credentials[..k] == clientId && credentials[k + 1..] == clientSecret)
  {
    var credentials := clientId + ":" + clientSecret;
    var auth := BasicAuthorization(clientId, clientSecret);
    assert auth[6..] == Base64.Encode(Utf8.Encode(credentials));
    Base64.DecodeEncode(Utf8.Encode(credentials));
    Utf8.DecodeEncode(credentials);
    if ':' !in clientId {
      assert credentials[|clientId|] == ':';
      assert credentials[..|clientId|] == clientId;
      Js.IndexOfAt(credentials, ':', |clientId|);
      assert credentials[|clientId| + 1..] == clientSecret;
    }
  }

  /** The two `set` calls leave exactly two cookies: first the access token
      with `Max-Age` from `expires_in`, then the refresh token without one;
      both HttpOnly, on path `/`, and Secure exactly in production. */
  lemma TwoTokenCookies(data: Json.Json, secure: bool)
    requires !data.JNull?
    ensures var cs := TokenCookies(data, secure);
            |cs| == 2 && cs[0] == AccessCookie(data, secure) && cs[1] == RefreshCookie(data, secure)
            && cs[0].name == AccessCookieName && cs[1].name == RefreshCookieName
            && cs[0].maxAge == MaxAge(Json.Member(data, "expires_in").v) && cs[1].maxAge.None?
            && (forall i :: 0 <= i < 2 ==> cs[i].httpOnly && cs[i].path == "/" && cs[i].secure == secure)
  {
    var a, f := AccessCookie(data, secure), RefreshCookie(data, secure);
    assert a.name != f.name by { assert AccessCookieName[15] != RefreshCookieName[15]; }
    assert Put([], a) == [a];
    assert Put([a], f) == [a] + Put([], f);
  }

  /** The token endpoint is called exactly when the three credentials are
      configured and the callback carries a non-empty `code`, and it is
      called with that code. */
  lemma RequestMade(env: Env, query: seq<FormUrlEncoded.Pair>, outcome: TokenOutcome)
    ensures var r, code := Get(env, query, outcome), FormUrlEncoded.Get(query, "code");
            (r.request.Some? <==> Configured(env) && Js.TruthyText(code))
            && (r.request.Some? ==>
                  r.request.value == TokenRequestFor(env.clientId.value, env.clientSecret.value,
                                                     code.value, env.redirectUri.value))
  {
  }

  /** Past both checks the handler's response is the answer to the token
      exchange. */
  lemma {:induction false} GetAnswers(env: Env, query: seq<FormUrlEncoded.Pair>, outcome: TokenOutcome)
    requires Configured(env) && Js.TruthyText(FormUrlEncoded.Get(query, "code"))
    ensures var secure := env.nodeEnv == Some("production");
            Get(env, query, outcome).response
              == Answer(env, outcome, if outcome.Replied? && !outcome.data.JNull? then TokenCookies(outcome.data, secure) else [])
  {
    var code := FormUrlEncoded.Get(query, "code");
    ExchangeAnswers(env, code.value, outcome);
  }

  /** The exchange answers with the token cookies exactly when the reply
      has a body. */
  lemma ExchangeAnswers(env: Env, code: string, outcome: TokenOutcome)
    requires Configured(env)
    ensures var secure := env.nodeEnv == Some("production");
            Exchange(env, code, outcome).response
              == Answer(env, outcome, if outcome.Replied? && !outcome.data.JNull? then TokenCookies(outcome.data, secure) else [])
  {
  }

  /** A non-2xx token reply is answered with that status and a JSON body
      whose `message` is `error_description` when truthy (else the default
      text) and whose `details` is the reply verbatim. */
  lemma ProviderError(env: Env, status: int, data: Json.Json, cookies: seq<Cookie>)
    requires !(200 <= status <= 299) && !data.JNull?
    ensures var d := Json.Member(data, "error_description").v;
            Answer(env, Replied(status, data), cookies)
              == JsonReply(status, Json.JObj([("error", Json.JStr("Spotify API error")),
                                              ("message", if Json.Truthy(d) then d.value else Json.JStr(TokenFailed)),
                                              ("details", data)]))
  {
  }

  /** A null body, whatever the status, ends in the internal 500: reading its
      `error_description`, or destructuring it, throws a TypeError. */
  lemma NullTokenBody(env: Env, status: int, cookies: seq<Cookie>)
    ensures var r := Answer(env, Replied(status, Json.JNull), cookies);
            r.JsonReply? && r.status == 500
            && r == InternalError(Js.ErrorObject(if 200 <= status <= 299 then NullDestructure else NullDescriptionRead))
  {
  }

  /** A 2xx reply with a body redirects (307) to `${base}/dashboard`, the
      base defaulting to `http://127.0.0.1:3000`, with the two token cookies;
      when that URL has no scheme, `new URL` throws and the answer is the
      internal 500 with details "Invalid URL" and no cookie. */
  lemma SuccessResponse(env: Env, status: int, data: Json.Json)
    requires 200 <= status <= 299 && !data.JNull?
    ensures var secure := env.nodeEnv == Some("production");
            var r := Answer(env, Replied(status, data), TokenCookies(data, secure));
            var base := if Js.TruthyText(env.publicBaseUrl) then env.publicBaseUrl.value else DefaultBaseUrl;
            && (HasScheme(base + "/dashboard") ==>
                  r.Redirect? && r.status == 307 && r.location == base + "/dashboard"
                  && r.cookies == [AccessCookie(data, secure), RefreshCookie(data, secure)])
            && (!HasScheme(base + "/dashboard") ==>
                  r == InternalError(Js.ErrorObject(InvalidUrl)) && r.JsonReply? && r.status == 500)
  {
    TwoTokenCookies(data, env.nodeEnv == Some("production"));
  }

  /** The default base parses, so without NEXT_PUBLIC_BASE_URL a 2xx reply
      always redirects. */
  lemma DefaultBaseHasScheme()
    ensures HasScheme(DefaultBaseUrl + "/dashboard")
  {
    assert DefaultBaseUrl + "/dashboard" == "http:" + "//127.0.0.1:3000/dashboard";
    HttpHasScheme("//127.0.0.1:3000/dashboard");
  }

  /** Every string that starts with `http:` has a scheme. */
  lemma HttpHasScheme(rest: string)
    ensures HasScheme("http:" + rest)
  {
    var s := "http:" + rest;
    assert StripLeadingControls(s) == s;
    RemoveTabNewlinePrefix("http:", rest);
    var t := ParserInput(s);
    assert t == "http:" + RemoveTabNewline(rest);
    assert t[..4] == "http";
    Js.IndexOfAt(t, ':', 4);
  }

  /** A base with no colon, such as `example.com`, has no scheme, so a 2xx
      reply ends in the internal 500 "Invalid URL" instead of the redirect. */
  lemma SchemelessBaseFails(env: Env, status: int, data: Json.Json, cookies: seq<Cookie>)
    requires 200 <= status <= 299 && !data.JNull?
    requires ':' !in BaseUrl(env)
    ensures Answer(env, Replied(status, data), cookies) == InternalError(Js.ErrorObject(InvalidUrl))
  {
    var t := ParserInput(BaseUrl(env) + "/dashboard");
    assert ':' !in t;
  }

  /** Whatever is thrown during the exchange, the answer is the 500 JSON
      "Internal server error", carrying the error's message when it is an
      `Error`; no cookie is set. */
  lemma ExchangeThrew(env: Env, err: Js.Thrown)
    ensures var r := Answer(env, Threw(err), []);
            r == InternalError(err) && r.JsonReply? && r.status == 500
            && (err.ErrorObject? ==> r.body.fields[2] == ("details", Json.JStr(err.message)))
  {
  }
}
