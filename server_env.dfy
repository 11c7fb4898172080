/**
 * The environment variables the route handlers read from `process.env`;
 * an unset variable is None.
 */
module ServerEnv {

  import opened Wrappers

  datatype Env = Env(
    clientId: Option<string>,        // SPOTIFY_CLIENT_ID
    clientSecret: Option<string>,    // SPOTIFY_CLIENT_SECRET
    redirectUri: Option<string>,     // SPOTIFY_REDIRECT_URI
    publicBaseUrl: Option<string>,   // NEXT_PUBLIC_BASE_URL
    nodeEnv: Option<string>)         // NODE_ENV
}
