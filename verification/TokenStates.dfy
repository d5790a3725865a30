/** What storage holds for one provider, as packages/oauth/src/token-state.ts reads it. */
module TokenStates {
  import opened Options

  // Times are in seconds; the threshold halves them, so they are reals.
  datatype TokenInfo = TokenInfo(
    accessToken: string,
    refreshToken: string,
    expiresAt: real,
    scope: string,
    tokenType: string,
    expiresIn: real)

  datatype TokenState =
    | Valid(token: TokenInfo)
    | Revoked(scope: string, tokenType: string)
    | Missing

  function ClassifyToken(stored: Option<TokenInfo>): TokenState {
    match stored
    case None => Missing
    case Some(token) =>
      if token.accessToken == "" then Revoked(token.scope, token.tokenType) else Valid(token)
  }

  predicate IsValid(stored: Option<TokenInfo>) {
    ClassifyToken(stored).Valid?
  }

  // A tombstone reads back as "rejected, log in again", keeps scope and type, and can never be sent.
  function RevokedTombstone(prior: TokenInfo): (tomb: TokenInfo)
    ensures ClassifyToken(Some(tomb)) == Revoked(prior.scope, prior.tokenType)
    ensures tomb.refreshToken == ""
  {
    TokenInfo("", "", 0.0, prior.scope, prior.tokenType, 0.0)
  }

  const MIN_REFRESH_THRESHOLD_SECONDS := 300.0
  const REFRESH_THRESHOLD_RATIO := 0.5

  // A token is due for refresh once either five minutes or half its lifetime is left, whichever is more.
  function DefaultRefreshThreshold(expiresIn: real): (threshold: real)
    ensures threshold >= MIN_REFRESH_THRESHOLD_SECONDS
    ensures expiresIn <= 2.0 * threshold
    ensures threshold > MIN_REFRESH_THRESHOLD_SECONDS ==> expiresIn == 2.0 * threshold
  {
    if expiresIn > 0.0 then
      var half := expiresIn * REFRESH_THRESHOLD_RATIO;
      if half > MIN_REFRESH_THRESHOLD_SECONDS then half else MIN_REFRESH_THRESHOLD_SECONDS
    else
      MIN_REFRESH_THRESHOLD_SECONDS
  }
}
