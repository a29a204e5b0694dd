/** `Login.tsx`: the log-in form's pre-check, what a successful log-in stores
    and where it sends the user next. */
module LoginPage {
  import opened Wrappers
  import opened AuthClient
  import opened ClientProfiles
  import ProfileService

  const FILL_ALL_FIELDS := "Please fill in all fields"
  const LOGIN_OK := "Login successful"
  const HOME_ROUTE := "/home"
  const ONBOARDING_ROUTE := "/onboarding"

  datatype LoginForm = LoginForm(email: string, password: string)

  datatype LoginField = EmailField | PasswordField

  /** The pre-check: both fields non-empty, white space counting as content. */
  predicate FormFilled(form: LoginForm) {
    form.email != "" && form.password != ""
  }

  /** The redirect after a successful log-in. `fetched` is the profile the
      page asked for, `None` when that request failed. */
  function RouteAfterLogin(userId: Option<string>, fetched: Option<ProfileReply>): (route: string)
    ensures route == HOME_ROUTE || route == ONBOARDING_ROUTE
    ensures route == ONBOARDING_ROUTE
        <==> userId.Some? && userId.value != "" && fetched.Some? && !ReportsCompleted(fetched.value)
  {
    if userId.Some? && userId.value != "" then
      if fetched.None? then HOME_ROUTE
      else if ReportsCompleted(fetched.value) then HOME_ROUTE
      else ONBOARDING_ROUTE
    else HOME_ROUTE
  }

  /** The redirect for a settled log-in answer (used only when it is a success). */
  function NextRoute(response: Result<AuthResponse, string>, fetched: Option<ProfileReply>): (route: string)
    ensures route == HOME_ROUTE || route == ONBOARDING_ROUTE
    ensures route == ONBOARDING_ROUTE ==> response.Ok? && fetched.Some? && !ReportsCompleted(fetched.value)
  {
    if response.Ok? then RouteAfterLogin(response.value.userId, fetched) else HOME_ROUTE
  }

  /** For a real backend answer the redirect follows the stored completion flag. */
  lemma RouteFollowsOnboardingCompletion(userId: string, r: ProfileService.ProfileResponse)
    requires userId != ""
    ensures RouteAfterLogin(Some(userId), Some(ReplyOf(r)))
            == if r.onboarding.completed then HOME_ROUTE else ONBOARDING_ROUTE
  {
  }

  class LoginPageState {
    var form: LoginForm
    var error: string
    var isLoading: bool
    var storedUser: Option<StoredUser>
    var route: Option<string>

    constructor ()
      ensures form == LoginForm("", "") && error == "" && !isLoading && storedUser.None? && route.None?
    {
      form := LoginForm("", "");
      error := "";
      isLoading := false;
      storedUser := None;
      route := None;
    }

    /** `handleChange`: edits one field and clears the error. */
    method HandleChange(field: LoginField, value: string)
      modifies this`form, this`error
      ensures field == EmailField ==> form == old(form).(email := value)
      ensures field == PasswordField ==> form == old(form).(password := value)
      ensures error == ""
    {
      match field {
        case EmailField => form := form.(email := value);
        case PasswordField => form := form.(password := value);
      }
      error := "";
    }

    /** `handleSubmit`, with `outcome` the result of the log-in call and
        `fetched` that of the profile request made after a success. Returns
        the request sent, if one was: the fields as typed. */
    method HandleSubmit(outcome: HttpOutcome<AuthResponse>, fetched: Option<ProfileReply>)
      returns (sent: Option<LoginRequest>)
      modifies this`error, this`isLoading, this`storedUser, this`route
      ensures !FormFilled(old(form)) ==>
                && sent.None? && error == FILL_ALL_FIELDS
                && isLoading == old(isLoading) && storedUser == old(storedUser) && route == old(route)
      ensures FormFilled(old(form)) ==>
                && sent == Some(LoginRequest(old(form).email, old(form).password))
                && !isLoading
                && PageOutcome(error, storedUser, route)
                   == AfterAnswer(Settle(outcome), LOGIN_OK, NextRoute(Settle(outcome), fetched),
                                  PageOutcome("", old(storedUser), old(route)))
    {
      var request := LoginRequest(form.email, form.password);
      error := "";
      if request.email == "" || request.password == "" {
        error := FILL_ALL_FIELDS;
        return None;
      }
      isLoading := true;
      sent := Some(request);
      var response := Settle(outcome);
      var after := AfterAnswer(response, LOGIN_OK, NextRoute(response, fetched), PageOutcome(error, storedUser, route));
      error, storedUser, route := after.error, after.storedUser, after.route;
      isLoading := false;
    }
  }
}
