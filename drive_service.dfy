/** Credentials, retries and the configuration effects of the Google Drive
    client (`GoogleDriveService.ts`). HTTP requests and the Google Identity
    Services popup are represented by their outcomes. */
module DriveService {
  import opened Wrappers
  import opened Text
  import opened SyncTypes

  /** Five minutes, in milliseconds. */
  const TokenBuffer := 5 * 60 * 1000

  const NoTokenMessage := "No access token available. Please authenticate first."
  const ExpiredTokenMessage := "Access token expired. Please re-authenticate."

  /** `hasValidToken`: a token and an expiry are stored (neither empty nor
      zero) and the expiry is more than five minutes away. */
  predicate HasValidToken(config: SyncConfig, now: int)
    ensures HasValidToken(config, now) ==>
      config.googleAccessToken.Some? && config.googleTokenExpiry.Some?
      && config.googleTokenExpiry.value > now + 300000
    ensures config.googleAccessToken.None? || config.googleTokenExpiry.None? ==> !HasValidToken(config, now)
  {
    && Truthy(config.googleAccessToken)
    && config.googleTokenExpiry.Some? && config.googleTokenExpiry.value != 0
    && config.googleTokenExpiry.value > now + TokenBuffer
  }

  /** A token valid now was valid at every earlier moment, and one valid at
      a non-negative time is exactly one whose expiry lies more than
      300000 ms ahead. */
  lemma ValidTokenFacts(config: SyncConfig, earlier: int, now: int)
    requires earlier <= now
    ensures HasValidToken(config, now) ==> HasValidToken(config, earlier)
    ensures now >= 0 ==>
      (HasValidToken(config, now) <==>
         Truthy(config.googleAccessToken) && config.googleTokenExpiry.Some?
         && config.googleTokenExpiry.value > now + 300000)
  {
  }

  /** `getAccessToken`: the stored token, or the error that asks the user
      to sign in again. */
  function GetAccessToken(config: SyncConfig, now: int): (r: Result<string, string>)
    ensures r.Success? <==> HasValidToken(config, now)
    ensures r.Success? ==> config.googleAccessToken == Some(r.value)
    ensures r.Failure? ==> (r.error == NoTokenMessage <==> !Truthy(config.googleAccessToken))
  {
    if !Truthy(config.googleAccessToken) then Failure(NoTokenMessage)
    else if !HasValidToken(config, now) then Failure(ExpiredTokenMessage)
    else Success(config.googleAccessToken.value)
  }

  /** Both credential errors mention "authenticate", so the retry loop
      never retries them. */
  lemma AccessTokenErrorsAreAuthErrors(config: SyncConfig, now: int)
    ensures GetAccessToken(config, now).Failure? ==> Contains(GetAccessToken(config, now).error, "authenticate")
  {
    assert NoTokenMessage[34..46] == "authenticate";
    ContainsAt(NoTokenMessage, "authenticate", 34);
    assert ExpiredTokenMessage[32..44] == "authenticate";
    ContainsAt(ExpiredTokenMessage, "authenticate", 32);
  }

  /** A Drive request: the token check that starts every request, then the
      request's own outcome. */
  function DriveCall<T>(config: SyncConfig, now: int, outcome: Call<T>): (r: Call<T>)
    ensures !HasValidToken(config, now) ==> r.Fail? && r.message == GetAccessToken(config, now).error
    ensures HasValidToken(config, now) ==> r == outcome
  {
    match GetAccessToken(config, now)
    case Failure(e) => Fail(e)
    case Success(_) => outcome
  }

  // ---------------------------------------------------------------------
  // Configuration effects
  // ---------------------------------------------------------------------

  /** `createAppDataFile`: create the file, upload the content, then
      remember the new file id. `created` is the outcome of the two
      requests. */
  function CreateAppDataFile(config: SyncConfig, now: int, created: Call<string>): (r: (Call<string>, SyncConfig))
    ensures r.0 == DriveCall(config, now, created)
    ensures r.0.Ok? ==> r.1 == config.(driveFileId := Some(r.0.value))
    ensures r.0.Fail? ==> r.1 == config
  {
    match DriveCall(config, now, created)
    case Ok(id) => (Ok(id), config.(driveFileId := Some(id)))
    case Fail(e) => (Fail(e), config)
  }

  /** `deleteAppDataFile`: delete the file, then forget its id. */
  function DeleteAppDataFile(config: SyncConfig, now: int, deleted: Call<()>): (r: (Call<()>, SyncConfig))
    ensures r.0 == DriveCall(config, now, deleted)
    ensures r.0.Ok? ==> r.1 == config.(driveFileId := None)
    ensures r.0.Fail? ==> r.1 == config
  {
    match DriveCall(config, now, deleted)
    case Ok(v) => (Ok(v), config.(driveFileId := None))
    case Fail(e) => (Fail(e), config)
  }

  /** Deleting the file just created leaves the configuration without a
      file id and otherwise as before. */
  lemma DeleteAfterCreate(config: SyncConfig, now: int, id: string)
    requires HasValidToken(config, now)
    ensures var c := CreateAppDataFile(config, now, Ok(id)).1;
      DeleteAppDataFile(c, now, Ok(())).1 == config.(driveFileId := None)
  {
  }

  /** The answer Google Identity Services gives to a token request. */
  datatype TokenResponse = TokenResponse(
    accessToken: string, expiresIn: int, tokenType: string, scope: string,
    error: Option<string>, errorDescription: Option<string>)

  datatype OAuthResult = OAuthResult(accessToken: string, expiresIn: int, tokenType: string, scope: string)

  const MissingClientIdMessage := "Google Client ID is not configured"
  const ServicesNotLoadedMessage := "Google Identity Services not loaded. Please check that the script tag is in index.html"

  /** `initiateOAuth`: refuse without a client id or without the Google
      script; report an error response by its description (or its code);
      otherwise store the token with its absolute expiry and enable sync. */
  function InitiateOAuth(config: SyncConfig, clientId: string, servicesLoaded: bool,
                         response: TokenResponse, now: int): (r: (Result<OAuthResult, string>, SyncConfig))
    ensures r.0.Failure? <==> clientId == "" || !servicesLoaded || Truthy(response.error)
    ensures r.0.Failure? ==> r.1 == config
    ensures r.0.Success? ==>
      && r.1.enabled
      && r.1.googleAccessToken == Some(response.accessToken)
      && r.1.googleTokenExpiry == Some(now + response.expiresIn * 1000)
      && r.1.(enabled := config.enabled, googleAccessToken := config.googleAccessToken,
              googleTokenExpiry := config.googleTokenExpiry) == config
  {
    if clientId == "" then (Failure(MissingClientIdMessage), config)
    else if !servicesLoaded then (Failure(ServicesNotLoadedMessage), config)
    else if Truthy(response.error) then
      (Failure(if Truthy(response.errorDescription) then response.errorDescription.value else response.error.value), config)
    else
      (Success(OAuthResult(response.accessToken, response.expiresIn, response.tokenType, response.scope)),
       config.(googleAccessToken := Some(response.accessToken),
               googleTokenExpiry := Some(now + response.expiresIn * 1000),
               enabled := true))
  }

  /** Right after signing in, the token counts as valid exactly when it is
      non-empty and lives longer than the five-minute margin. */
  lemma SignedInTokenIsValid(config: SyncConfig, clientId: string, response: TokenResponse, now: int)
    requires clientId != "" && !Truthy(response.error) && now >= 0
    ensures var c := InitiateOAuth(config, clientId, true, response, now).1;
      HasValidToken(c, now) <==> response.accessToken != "" && response.expiresIn > 300
  {
  }

  const RevokeNotLoadedMessage := "Google Identity Services not loaded"

  /** `revokeToken`: nothing to do without a token; an error without the
      Google script; otherwise the token and expiry are dropped and sync is
      disabled. */
  function RevokeToken(config: SyncConfig, servicesLoaded: bool): (r: (Result<(), string>, SyncConfig))
    ensures !Truthy(config.googleAccessToken) ==> r == (Success(()), config)
    ensures Truthy(config.googleAccessToken) && !servicesLoaded ==> r.0.Failure? && r.1 == config
    ensures Truthy(config.googleAccessToken) && servicesLoaded ==>
      && r.0.Success? && !r.1.enabled
      && r.1.googleAccessToken.None? && r.1.googleTokenExpiry.None?
      && r.1.(enabled := config.enabled, googleAccessToken := config.googleAccessToken,
              googleTokenExpiry := config.googleTokenExpiry) == config
  {
    if !Truthy(config.googleAccessToken) then (Success(()), config)
    else if !servicesLoaded then (Failure(RevokeNotLoadedMessage), config)
    else (Success(()), config.(googleAccessToken := None, googleTokenExpiry := None, enabled := false))
  }

  /** After a successful revoke no moment has a valid token. */
  lemma RevokedTokenNeverValid(config: SyncConfig, servicesLoaded: bool, now: int)
    requires RevokeToken(config, servicesLoaded).0.Success?
    ensures !HasValidToken(RevokeToken(config, servicesLoaded).1, now)
  {
  }

  // ---------------------------------------------------------------------
  // withRetry
  // ---------------------------------------------------------------------

  function Pow2(n: nat): (p: nat)
    ensures p >= 1
  {
    if n == 0 then 1 else 2 * Pow2(n - 1)
  }

  /** An error that ends the retries at once. */
  predicate IsAuthError<T>(c: Call<T>) {
    c.Fail? && Contains(c.message, "authenticate")
  }

  /** An error that leads to another attempt (when attempts remain). */
  predicate IsRetryable<T>(c: Call<T>) {
    c.Fail? && !Contains(c.message, "authenticate")
  }

  /** The wait after a retryable failure of attempt `attempt`: exponential
      for a rate-limit ("429") error, even after the last attempt; linear
      for any other error, and none after the last attempt. */
  function WaitAfter(message: string, attempt: nat, maxRetries: int, baseDelay: int): seq<int> {
    if Contains(message, "429") then [baseDelay * Pow2(attempt)]
    else if attempt < maxRetries - 1 then [baseDelay * (attempt + 1)]
    else []
  }

  /** The waits after the first `n` attempts, all of them failures. */
  function RetryWaits<T>(operation: nat -> Call<T>, n: nat, maxRetries: int, baseDelay: int): seq<int> {
    if n == 0 then []
    else RetryWaits(operation, n - 1, maxRetries, baseDelay)
         + (if operation(n - 1).Fail? then WaitAfter(operation(n - 1).message, n - 1, maxRetries, baseDelay) else [])
  }

  const RetriesExhaustedMessage := "Operation failed after retries"

  /** `withRetry`: attempt `i` gets `operation(i)`. Returns the outcome that
      ended the loop, how many attempts were made and the waits in between:
      the first success wins, an authentication error is passed on after
      its single attempt, and otherwise the last error is reported once
      `maxRetries` attempts have failed. */
  method WithRetry<T>(operation: nat -> Call<T>, maxRetries: int, baseDelay: int)
    returns (r: Call<T>, attempts: nat, waits: seq<int>)
    ensures attempts <= (if maxRetries > 0 then maxRetries else 0)
    ensures forall i: nat | i + 1 < attempts :: IsRetryable(operation(i))
    ensures attempts > 0 ==> r == operation(attempts - 1)
    ensures r.Fail? && !IsAuthError(r) && attempts > 0 ==> attempts == maxRetries
    ensures attempts == 0 ==> maxRetries <= 0 && r == Fail(RetriesExhaustedMessage)
    ensures waits == RetryWaits(operation, if attempts > 0 && (r.Ok? || IsAuthError(r)) then attempts - 1 else attempts,
                                maxRetries, baseDelay)
  {
    var lastError: Option<string> := None;
    var attempt: nat := 0;
    waits := [];
    while attempt < maxRetries
      invariant attempt == 0 || attempt <= maxRetries
      invariant forall i: nat | i < attempt :: IsRetryable(operation(i))
      invariant waits == RetryWaits(operation, attempt, maxRetries, baseDelay)
      invariant lastError == if attempt == 0 then None else Some(operation(attempt - 1).message)
    {
      var outcome := operation(attempt);
      if outcome.Ok? {
        return outcome, attempt + 1, waits;
      }
      lastError := Some(outcome.message);
      if Contains(outcome.message, "authenticate") {
        return outcome, attempt + 1, waits;
      }
      if Contains(outcome.message, "429") {
        waits := waits + [baseDelay * Pow2(attempt)];
        attempt := attempt + 1;
        continue;
      }
      if attempt < maxRetries - 1 {
        waits := waits + [baseDelay * (attempt + 1)];
      }
      attempt := attempt + 1;
    }
    attempts := attempt;
    match lastError
    case Some(m) => r := Fail(m);
    case None => r := Fail(RetriesExhaustedMessage);
  }
}
