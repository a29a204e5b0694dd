/** `authService.ts`: the client's e-mail domain check and the way the
    sign-up and log-in calls turn an HTTP outcome into a response. */
module AuthClient {
  import opened Wrappers
  import opened Text
  import Server = AuthService

  const VANDERBILT_EMAIL_DOMAIN := "@vanderbilt.edu"
  const NETWORK_ERROR := "Network error. Please try again."
  const NBSP := '\U{00A0}'

  datatype SignupRequest = SignupRequest(email: string, password: string, firstName: string, lastName: string)

  datatype LoginRequest = LoginRequest(email: string, password: string)

  /** `AuthResponse` as the client reads it: the optional fields may be absent. */
  datatype AuthResponse = AuthResponse(message: string, userId: Option<string>, email: Option<string>,
                                       firstName: Option<string>, lastName: Option<string>)

  /** The JSON a backend response turns into (ids travel as decimal strings). */
  function FromServer(r: Server.AuthResponse): AuthResponse {
    AuthResponse(r.message, if r.userId.Some? then Some(NatToString(r.userId.value)) else None,
                 r.email, r.firstName, r.lastName)
  }

  /** How an axios call ends: a 2xx answer with its data, or a rejection that
      may carry the server's answer (`error.response.data`). */
  datatype HttpOutcome<T> = Answered(data: T) | Rejected(errorData: Option<T>)

  /** The `try`/`catch` of `signup` and `login`: an error answer is returned
      as the response; only a rejection without an answer throws. */
  function Settle<T>(outcome: HttpOutcome<T>): (r: Result<T, string>)
    ensures r.Err? <==> outcome.Rejected? && outcome.errorData.None?
    ensures r.Err? ==> r.error == NETWORK_ERROR
    ensures outcome.Answered? ==> r == Ok(outcome.data)
    ensures outcome.Rejected? && outcome.errorData.Some? ==> r == Ok(outcome.errorData.value)
  {
    match outcome
    case Answered(data) => Ok(data)
    case Rejected(errorData) => if errorData.Some? then Ok(errorData.value) else Err(NETWORK_ERROR)
  }

  /** The auth endpoints answer 2xx on success and 400 or 401 with the body
      otherwise; either way the client sees exactly the server's response. */
  function HttpOutcomeOf(r: Server.AuthResponse, successMessage: string): (o: HttpOutcome<AuthResponse>)
    ensures o.Answered? <==> r.message == successMessage
    ensures o.Rejected? ==> o.errorData == Some(FromServer(r))
    ensures o.Answered? ==> o.data == FromServer(r)
  {
    if r.message == successMessage then Answered(FromServer(r)) else Rejected(Some(FromServer(r)))
  }

  lemma ServerAnswerReachesClient(r: Server.AuthResponse, successMessage: string)
    ensures Settle(HttpOutcomeOf(r, successMessage)) == Ok(FromServer(r))
    ensures Settle(HttpOutcomeOf(r, successMessage)).value.message == r.message
  {
  }

  /** The `user` record kept in local storage after sign-up or log-in. */
  datatype StoredUser = StoredUser(userId: Option<string>, email: Option<string>,
                                   firstName: Option<string>, lastName: Option<string>)

  function SessionRecord(r: AuthResponse): (u: StoredUser)
    ensures u.userId == r.userId && u.email == r.email && u.firstName == r.firstName && u.lastName == r.lastName
  {
    StoredUser(r.userId, r.email, r.firstName, r.lastName)
  }

  /** The message a page shows when a failure carries no text. */
  const GENERIC_ERROR := "An error occurred. Please try again."

  /** The parts of a page's state that an auth answer can change. */
  datatype PageOutcome = PageOutcome(error: string, storedUser: Option<StoredUser>, route: Option<string>)

  /** The `try`/`catch` of the sign-up and log-in pages: the expected success
      message stores the session and navigates to `successRoute`; any other
      answer is shown as the error; a thrown error shows its message, or the
      generic text when it has none. */
  function AfterAnswer(response: Result<AuthResponse, string>, successMessage: string,
                       successRoute: string, before: PageOutcome): (after: PageOutcome)
    ensures after.storedUser != before.storedUser || after.route != before.route
        ==> response.Ok? && response.value.message == successMessage
    ensures response.Ok? && response.value.message == successMessage
        ==> after == before.(storedUser := Some(SessionRecord(response.value)), route := Some(successRoute))
    ensures response.Ok? && response.value.message != successMessage
        ==> after == before.(error := response.value.message)
    ensures response.Err? ==> after.error != ""
    ensures response.Err? ==> after == before.(error := if response.error != "" then response.error else GENERIC_ERROR)
  {
    match response
    case Ok(r) =>
      if r.message == successMessage then
        before.(storedUser := Some(SessionRecord(r)), route := Some(successRoute))
      else before.(error := r.message)
    case Err(message) => before.(error := if message != "" then message else GENERIC_ERROR)
  }

  /** For an answer from the backend the page stores a session exactly when
      the backend reported success, and otherwise shows the backend's message. */
  lemma PageFollowsServer(r: Server.AuthResponse, successMessage: string, successRoute: string,
                          before: PageOutcome)
    ensures var after := AfterAnswer(Settle(HttpOutcomeOf(r, successMessage)), successMessage, successRoute, before);
            && (after.storedUser == Some(SessionRecord(FromServer(r))) <== r.message == successMessage)
            && (r.message != successMessage ==> after == before.(error := r.message))
  {
    ServerAnswerReachesClient(r, successMessage);
  }

  /** `isVanderbiltEmail(email)`: lower-cased, then trimmed, it ends with the domain. */
  function IsVanderbiltEmail(email: string): (r: bool)
    ensures r ==> |email| >= |VANDERBILT_EMAIL_DOMAIN|
  {
    EndsWith(JsTrim(ToLower(email)), VANDERBILT_EMAIL_DOMAIN)
  }

  /** The order of lower-casing and trimming does not matter. */
  lemma EmailCheckTrimThenLower(email: string)
    ensures IsVanderbiltEmail(email) <==> EndsWith(ToLower(JsTrim(email)), VANDERBILT_EMAIL_DOMAIN)
  {
    JsSpaceCaseless();
    LowerTrimCommute(email, IsJsSpace);
  }

  /** Letter case does not change the answer. */
  lemma EmailCheckForgetsCase(email: string)
    ensures IsVanderbiltEmail(ToUpper(email)) == IsVanderbiltEmail(email)
  {
    LowerForgetsCase(email);
  }

  /** Surrounding white space does not change the answer. */
  lemma EmailCheckForgetsPadding(w1: string, email: string, w2: string)
    requires forall i :: 0 <= i < |w1| ==> IsJsSpace(w1[i])
    requires forall i :: 0 <= i < |w2| ==> IsJsSpace(w2[i])
    ensures IsVanderbiltEmail(w1 + email + w2) == IsVanderbiltEmail(email)
  {
    EmailCheckTrimThenLower(w1 + email + w2);
    EmailCheckTrimThenLower(email);
    TrimPadding(w1, email, w2, IsJsSpace);
  }

  /** On an address whose characters the two trims treat alike, the client
      and the backend accept the same addresses. */
  lemma EmailCheckAgreesWithServer(email: string)
    requires forall i :: 0 <= i < |email| ==> IsJsSpace(email[i]) == IsJavaSpace(email[i])
    ensures IsVanderbiltEmail(email) == Server.IsVanderbiltEmail(Some(email))
  {
    EmailCheckTrimThenLower(email);
    Server.EmailCheckTrimThenLower(email);
    TrimAgree(email, IsJsSpace, IsJavaSpace);
  }

  /** The backend rejects an address ending in a character it does not trim
      and that does not lower-case to the domain's last letter. */
  lemma ServerRejectsOddLastCharacter(email: string)
    requires email != [] && !IsJavaSpace(email[|email| - 1]) && LowerChar(email[|email| - 1]) != 'u'
    ensures !Server.IsVanderbiltEmail(Some(email))
  {
    Server.EmailCheckTrimThenLower(email);
    TrimKeepsLastNonSpace(email, IsJavaSpace);
    var t := ToLower(JavaTrim(email));
    assert t[|t| - 1] == LowerChar(email[|email| - 1]);
    assert VANDERBILT_EMAIL_DOMAIN[|VANDERBILT_EMAIL_DOMAIN| - 1] == 'u';
  }

  lemma ClientIgnoresTrailingNoBreakSpace(email: string)
    ensures IsVanderbiltEmail(email + [NBSP]) == IsVanderbiltEmail(email)
  {
    assert IsJsSpace([NBSP][0]);
    EmailCheckForgetsPadding([], email, [NBSP]);
    assert [] + email + [NBSP] == email + [NBSP];
  }

  /** A trailing no-break space is trimmed by the client but not by the
      backend: the client accepts such an address and the backend rejects it. */
  lemma TrailingNoBreakSpaceSplitsChecks(email: string)
    requires IsVanderbiltEmail(email)
    ensures IsVanderbiltEmail(email + [NBSP])
    ensures !Server.IsVanderbiltEmail(Some(email + [NBSP]))
  {
    ClientIgnoresTrailingNoBreakSpace(email);
    ServerRejectsOddLastCharacter(email + [NBSP]);
  }
}
