/** The app's OAuth session (app.js authorizeSpotify, deauthorize,
    isAuthenticated and the 'authenticated' listener that resets the retry
    counter), as pure transitions over a snapshot of the state they touch. */
module Session {
  import opened Values
  import opened Backoff

  /** What authorizeSpotify is given: an authorization code, or a token pair. */
  datatype Credentials = Credentials(code: Option<string>, accessToken: Option<string>, refreshToken: Option<string>)

  /** The service's answer to a code grant or a refresh. */
  datatype Grant = Grant(accessToken: Option<string>, refreshToken: Option<string>, expiresIn: int)

  /** A pending authRetryTimeout: the credentials it retries with and its delay. */
  datatype AuthRetry = AuthRetry(credentials: Credentials, delay: int)

  /** The calls authorizeSpotify makes to the service. */
  datatype TokenCall = CodeGrant(code: string) | RefreshAccessToken(refreshToken: string)

  /** What the app tells the hub: the 'authorized' setting broadcast with the
      'authenticated' event, and a request to refresh the playlists. */
  datatype Notice = Authenticated(on: bool) | PlaylistsUpdateRequested

  /** The state the session logic reads and writes. */
  datatype State = State(
    storedAccess: Option<string>,   // setting 'accessToken'
    storedRefresh: Option<string>,  // setting 'refreshToken'
    authorized: bool,               // setting 'authorized'
    apiAccess: Option<string>,      // the API client's access token
    apiRefresh: Option<string>,     // the API client's refresh token
    authenticated: bool,            // this.authenticated
    authRetries: nat,               // this.authRetries
    authRetry: Option<AuthRetry>,   // armed authRetryTimeout
    refreshTimer: Option<int>)      // armed authorizationRefreshTimeout, with its delay

  /** How a call of authorizeSpotify ends: resolved, rejected, or waiting on
      a scheduled retry (its promise settles with the retry's). */
  datatype Outcome = Done | Failed(error: Error) | Retrying

  datatype Step = Step(state: State, outcome: Outcome, calls: seq<TokenCall>, notices: seq<Notice>)

  /** The counter stays within its bound, and a pending retry's delay is the
      one the counter calls for. */
  predicate Valid(s: State) {
    && s.authRetries <= MAX_AUTH_RETRIES
    && (s.authRetry.Some? ==> s.authRetries >= 1 && s.authRetry.value.delay == AuthRetryDelay(s.authRetries))
  }

  /** onInit: 'authorized' is switched off and the counter starts at 0; the
      stored tokens survive from earlier runs, the API client starts empty. */
  function Initial(storedAccess: Option<string>, storedRefresh: Option<string>): (s: State)
    ensures Valid(s) && !s.authorized && s.authRetries == 0
    ensures s.authRetry.None? && s.refreshTimer.None?
  {
    State(storedAccess, storedRefresh, false, None, None, false, 0, None, None)
  }

  /** isAuthenticated: the 'authorized' setting is on and the API client
      holds a refresh token that is not empty; a token pair alone is not
      enough while 'authorized' is off. */
  predicate IsAuthenticated(s: State): (b: bool)
    ensures !s.authorized ==> !b
    ensures s.authorized ==> (b <==> s.apiRefresh.Some? && s.apiRefresh.value != "")
  {
    s.authorized && Truthy(s.apiRefresh)
  }

  /** `authorizeSpotify()` without arguments reads the stored token pair. */
  function Resolve(s: State, given: Option<Credentials>): (c: Credentials)
    ensures given.Some? ==> c == given.value
    ensures given.None? ==> c.code.None? && c.accessToken == s.storedAccess && c.refreshToken == s.storedRefresh
  {
    if given.Some? then given.value else Credentials(None, s.storedAccess, s.storedRefresh)
  }

  /** The branch authorizeSpotify takes for credentials `c`. */
  predicate CodeBranch(c: Credentials) {
    Truthy(c.code)
  }

  predicate RefreshBranch(c: Credentials) {
    !Truthy(c.code) && Truthy(c.accessToken) && Truthy(c.refreshToken)
  }

  /** setAuthorized: the new tokens are set and stored (the refresh token only
      when one came back), the app is authorized and authenticated (which
      resets the retry counter), the hub is told, and a refresh is scheduled
      ten minutes before the token expires. */
  function SetAuthorized(s: State, g: Grant): (t: State)
    ensures t.authorized && t.authenticated && t.authRetries == 0
    ensures t.apiAccess == g.accessToken && t.storedAccess == g.accessToken
    ensures Truthy(g.refreshToken) ==> t.apiRefresh == g.refreshToken && t.storedRefresh == g.refreshToken
    ensures !Truthy(g.refreshToken) ==> t.apiRefresh == s.apiRefresh && t.storedRefresh == s.storedRefresh
    ensures t.refreshTimer == Some((g.expiresIn - 600) * 1000) && t.authRetry == s.authRetry
    ensures IsAuthenticated(t) <==> Truthy(g.refreshToken) || Truthy(s.apiRefresh)
  {
    var keep := !Truthy(g.refreshToken);
    s.(apiAccess := g.accessToken, storedAccess := g.accessToken,
       apiRefresh := if keep then s.apiRefresh else g.refreshToken,
       storedRefresh := if keep then s.storedRefresh else g.refreshToken,
       authorized := true, authenticated := true, authRetries := 0,
       refreshTimer := Some((g.expiresIn - 600) * 1000))
  }

  /** authorizeSpotify(given), with `answer` the service's answer to the call
      it makes (unused when it makes none). */
  function Authorize(s: State, given: Option<Credentials>, answer: Result<Grant, Error>): (st: Step)
    // both pending timers are cleared first; only this call's own outcome can re-arm them
    ensures st.state.refreshTimer.Some? <==> st.outcome == Done
    ensures st.state.authRetry.Some? <==> st.outcome == Retrying
    // the three branches and the call each makes
    ensures CodeBranch(Resolve(s, given)) ==> st.calls == [CodeGrant(Resolve(s, given).code.value)]
    ensures RefreshBranch(Resolve(s, given)) ==> st.calls == [RefreshAccessToken(Resolve(s, given).refreshToken.value)]
    ensures !CodeBranch(Resolve(s, given)) && !RefreshBranch(Resolve(s, given)) ==>
      st.calls == [] && st.outcome == Failed(InvalidCredentials) && st.state == s.(authRetry := None, refreshTimer := None)
    // success
    ensures st.outcome == Done <==> st.calls != [] && answer.Ok?
    ensures st.outcome == Done ==>
      && st.state.authorized && st.state.authenticated && st.state.authRetries == 0
      && st.state.storedAccess == answer.value.accessToken
      && st.state.refreshTimer == Some((answer.value.expiresIn - 600) * 1000)
      && (Truthy(answer.value.refreshToken) ==> st.state.storedRefresh == answer.value.refreshToken)
      && (!Truthy(answer.value.refreshToken) ==> st.state.storedRefresh == s.storedRefresh)
      && st.notices == [Authenticated(true), PlaylistsUpdateRequested]
    // a failed refresh is retried exactly while fewer than five retries were made
    ensures st.outcome == Retrying <==> RefreshBranch(Resolve(s, given)) && answer.Err? && s.authRetries < MAX_AUTH_RETRIES
    ensures st.outcome == Retrying ==>
      && st.state.authRetries == s.authRetries + 1
      && st.state.authRetry == Some(AuthRetry(Resolve(s, given), AuthRetryDelay(s.authRetries + 1)))
    ensures st.outcome != Done ==> st.state.authorized == s.authorized && st.state.storedRefresh == s.storedRefresh && st.notices == []
    ensures CodeBranch(Resolve(s, given)) && answer.Err? ==> st.outcome == Failed(answer.error) && st.state.authRetries == s.authRetries
    ensures Valid(s) ==> Valid(st.state)
  {
    var c := Resolve(s, given);
    var cleared := s.(authRetry := None, refreshTimer := None);
    if CodeBranch(c) then
      match answer
      case Ok(g) => Step(SetAuthorized(cleared, g), Done, [CodeGrant(c.code.value)], [Authenticated(true), PlaylistsUpdateRequested])
      case Err(e) => Step(cleared, Failed(e), [CodeGrant(c.code.value)], [])
    else if RefreshBranch(c) then
      var withTokens := cleared.(apiAccess := c.accessToken, apiRefresh := c.refreshToken);
      var call := [RefreshAccessToken(c.refreshToken.value)];
      match answer
      case Ok(g) => Step(SetAuthorized(withTokens, g), Done, call, [Authenticated(true), PlaylistsUpdateRequested])
      case Err(e) =>
        if s.authRetries < MAX_AUTH_RETRIES then
          var n := s.authRetries + 1;
          Step(withTokens.(authRetries := n, authRetry := Some(AuthRetry(c, AuthRetryDelay(n)))), Retrying, call, [])
        else
          Step(withTokens, Failed(e), call, [])
    else
      Step(cleared, Failed(InvalidCredentials), [], [])
  }

  /** A successful refresh leaves the app authenticated: the API client holds
      the refresh token it refreshed with, or the new one. */
  lemma RefreshSuccessAuthenticates(s: State, given: Option<Credentials>, g: Grant)
    requires RefreshBranch(Resolve(s, given))
    ensures IsAuthenticated(Authorize(s, given, Ok(g)).state)
  {
  }

  /** A code grant answered without a refresh token leaves the API client's
      refresh token as it was, so the app may be authorized without being
      authenticated. */
  lemma CodeGrantWithoutRefreshToken(s: State, code: string, g: Grant)
    requires code != "" && !Truthy(g.refreshToken) && !Truthy(s.apiRefresh)
    ensures var t := Authorize(s, Some(Credentials(Some(code), None, None)), Ok(g)).state;
      t.authorized && !IsAuthenticated(t)
  {
  }

  /** deauthorize as written (app.js:345-360): both stored tokens and the API
      client's tokens are dropped, 'authorized' is switched off, the hub is
      told, and the proactive refresh is cancelled; a pending refresh retry
      is left armed, and neither the counter nor `authenticated` changes. */
  function DeauthorizedAsWritten(s: State): (t: State)
    ensures !IsAuthenticated(t) && !t.authorized
    ensures t.storedAccess.None? && t.storedRefresh.None? && t.apiAccess.None? && t.apiRefresh.None?
    ensures t.refreshTimer.None?
    ensures t.authRetry == s.authRetry && t.authRetries == s.authRetries && t.authenticated == s.authenticated
    ensures Valid(s) ==> Valid(t)
  {
    s.(storedAccess := None, storedRefresh := None, authorized := false,
       apiAccess := None, apiRefresh := None, refreshTimer := None)
  }

  /** The notices deauthorize sends. */
  const DEAUTHORIZE_NOTICES: seq<Notice> := [Authenticated(false), PlaylistsUpdateRequested]

  /** As written, deauthorizing while a refresh retry is pending does not
      stick: when the retry fires and the service accepts the remembered
      refresh token, the app is authorized again and the tokens are stored
      again. */
  lemma RetryUndoesDeauthorize(s: State, g: Grant)
    requires s.authRetry.Some? && RefreshBranch(s.authRetry.value.credentials)
    ensures var t := DeauthorizedAsWritten(s);
      && !t.authorized
      && t.authRetry.Some?
      && Authorize(t, Some(t.authRetry.value.credentials), Ok(g)).state.authorized
      && IsAuthenticated(Authorize(t, Some(t.authRetry.value.credentials), Ok(g)).state)
  {
  }

  /** deauthorize as intended: as written, and the pending refresh retry is
      cancelled too. */
  function Deauthorized(s: State): (t: State)
    ensures t == DeauthorizedAsWritten(s).(authRetry := None)
    ensures Valid(s) ==> Valid(t)
  {
    s.(storedAccess := None, storedRefresh := None, authorized := false,
       apiAccess := None, apiRefresh := None, refreshTimer := None, authRetry := None)
  }

  /** After the intended deauthorize no timer is left that could call
      authorizeSpotify, and only a call the hub makes (a new code, or the
      restart of the app) can authorize again: called without credentials it
      rejects without contacting the service. */
  lemma DeauthorizedStaysOff(s: State, answer: Result<Grant, Error>)
    ensures var t := Deauthorized(s);
      && t.authRetry.None? && t.refreshTimer.None?
      && Authorize(t, None, answer).outcome == Failed(InvalidCredentials)
      && Authorize(t, None, answer).calls == []
      && !Authorize(t, None, answer).state.authorized
  {
  }

  /** The outcome and the retry delays of refresh attempts that all fail with
      `e`, each retry firing with the credentials it was scheduled with,
      starting from state `s`. */
  function FailingRefreshes(s: State, c: Credentials, e: Error): (r: (seq<int>, Outcome))
    requires Valid(s) && RefreshBranch(c)
    decreases MAX_AUTH_RETRIES - s.authRetries
  {
    var st := Authorize(s, Some(c), Err(e));
    if st.outcome == Retrying then
      var rest := FailingRefreshes(st.state, st.state.authRetry.value.credentials, e);
      ([st.state.authRetry.value.delay] + rest.0, rest.1)
    else
      ([], st.outcome)
  }

  /** A run of failing refreshes from counter k is retried 5 - k times, after
      the delays of the backoff schedule, and then reports the failure. */
  lemma {:induction false} FailingRefreshesFollowSchedule(s: State, c: Credentials, e: Error)
    requires Valid(s) && RefreshBranch(c)
    ensures FailingRefreshes(s, c, e) == (FailureSchedule(s.authRetries), Failed(e))
    decreases MAX_AUTH_RETRIES - s.authRetries
  {
    var st := Authorize(s, Some(c), Err(e));
    if st.outcome == Retrying {
      FailingRefreshesFollowSchedule(st.state, c, e);
    }
  }

  /** After a successful authorization, five failing refreshes in a row are
      retried after 10, 20, 40, 80 and 160 seconds, and the sixth failure is
      reported. */
  lemma FiveRetriesAfterSuccess(s: State, given: Option<Credentials>, g: Grant, c: Credentials, e: Error)
    requires Valid(s) && RefreshBranch(c) && Authorize(s, given, Ok(g)).outcome == Done
    ensures FailingRefreshes(Authorize(s, given, Ok(g)).state, c, e) == ([10000, 20000, 40000, 80000, 160000], Failed(e))
  {
    FailingRefreshesFollowSchedule(Authorize(s, given, Ok(g)).state, c, e);
    FailureScheduleFromZero();
  }
}
