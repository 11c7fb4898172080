/**
 * `GET /api/auth/spotify/login`: checks the client configuration and
 * redirects the browser to the provider's authorization endpoint with the
 * authorization request of section 4.1.1 of RFC 6749, its query written in
 * the application/x-www-form-urlencoded format.
 */
module Login {

  import opened Wrappers
  import Js
  import opened Http
  import FormUrlEncoded
  import opened ServerEnv

  const Scope := "user-read-currently-playing user-read-recently-played"
  const AuthorizeEndpoint := "https://accounts.spotify.com/authorize?"
  const MissingClientId :=
    "Server Configuration Error: SPOTIFY_CLIENT_ID is not set. Please ensure this environment variable is configured."
  const MissingRedirectUri :=
    "Server Configuration Error: SPOTIFY_REDIRECT_URI is not set. Please ensure this environment variable is configured."

  /** The four query parameters, in the order they are written. */
  function AuthorizeParams(clientId: string, redirectUri: string): seq<FormUrlEncoded.Pair> {
    [("response_type", "code"), ("client_id", clientId), ("scope", Scope), ("redirect_uri", redirectUri)]
  }

  /** The handler: a plain-text 500 naming the first missing variable, or a
      302 to the authorization URL. */
  function Get(env: Env): (r: Response)
    ensures !Js.TruthyText(env.clientId) ==> r == Text(500, MissingClientId)
    ensures Js.TruthyText(env.clientId) && !Js.TruthyText(env.redirectUri) ==> r == Text(500, MissingRedirectUri)
    ensures r.Redirect? <==> Js.TruthyText(env.clientId) && Js.TruthyText(env.redirectUri)
    ensures r.Redirect? ==> r.status == 302 && r.cookies == []
  {
    if !Js.TruthyText(env.clientId) then Text(500, MissingClientId)
    else if !Js.TruthyText(env.redirectUri) then Text(500, MissingRedirectUri)
    else
      var query := FormUrlEncoded.Serialize(AuthorizeParams(env.clientId.value, env.redirectUri.value));
      Redirect(302, AuthorizeEndpoint + query, [])
  }

  /** The Location header is the authorization endpoint followed by a query
      that form-decodes to exactly the four parameters, in order: response
      type `code`, the client id, the scope and the redirect URI, with no
      `state` parameter. */
  lemma AuthorizeQuery(env: Env)
    requires Js.TruthyText(env.clientId) && Js.TruthyText(env.redirectUri)
    ensures var loc := Get(env).location;
            var n := |AuthorizeEndpoint|;
            |loc| >= n && loc[..n] == AuthorizeEndpoint
            && FormUrlEncoded.Parse(loc[n..]) == Some(AuthorizeParams(env.clientId.value, env.redirectUri.value))
            && FormUrlEncoded.Get(AuthorizeParams(env.clientId.value, env.redirectUri.value), "state").None?
  {
    var ps := AuthorizeParams(env.clientId.value, env.redirectUri.value);
    var query := FormUrlEncoded.Serialize(ps);
    var loc := Get(env).location;
    assert loc == AuthorizeEndpoint + query;
    assert loc[|AuthorizeEndpoint|..] == query;
    FormUrlEncoded.ParseSerialize(ps);
    NoState(env.clientId.value, env.redirectUri.value);
  }

  /** None of the four parameter names is `state`. */
  lemma NoState(clientId: string, redirectUri: string)
    ensures forall i :: 0 <= i < 4 ==> AuthorizeParams(clientId, redirectUri)[i].0 != "state"
  {
    var ps := AuthorizeParams(clientId, redirectUri);
    assert ps[0].0[0] != 's' && ps[1].0[0] != 's' && ps[3].0[0] != 's';
    assert ps[2].0[1] != 't';
  }
}
