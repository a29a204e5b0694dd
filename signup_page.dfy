/** `Signup.tsx`: the sign-up form, its client-side validation and what a
    submission does with the answer. */
module SignupPage {
  import opened Wrappers
  import opened Text
  import opened UserModel
  import opened AuthClient
  import Server = AuthService

  const SIGNUP_OK := "Signup successful"
  const ONBOARDING_ROUTE := "/onboarding"

  datatype SignupForm = SignupForm(email: string, password: string, confirmPassword: string,
                                   firstName: string, lastName: string)

  const EMPTY_FORM := SignupForm("", "", "", "", "")

  datatype Field = Email | Password | ConfirmPassword | FirstName | LastName

  function FieldValue(form: SignupForm, field: Field): string {
    match field
    case Email => form.email
    case Password => form.password
    case ConfirmPassword => form.confirmPassword
    case FirstName => form.firstName
    case LastName => form.lastName
  }

  /** `{ ...prev, [name]: value }`. */
  function WithField(form: SignupForm, field: Field, value: string): (r: SignupForm)
    ensures FieldValue(r, field) == value
    ensures forall f :: f != field ==> FieldValue(r, f) == FieldValue(form, f)
  {
    match field
    case Email => form.(email := value)
    case Password => form.(password := value)
    case ConfirmPassword => form.(confirmPassword := value)
    case FirstName => form.(firstName := value)
    case LastName => form.(lastName := value)
  }

  /** The checks of `validateForm`, in order. */
  datatype FormError = FirstNameRequired | LastNameRequired | EmailRequired | NotVanderbilt
                     | PasswordTooShort | PasswordsDiffer

  function FormErrorMessage(e: FormError): string {
    match e
    case FirstNameRequired => "First name is required"
    case LastNameRequired => "Last name is required"
    case EmailRequired => "Email is required"
    case NotVanderbilt => "Please use your Vanderbilt email (@vanderbilt.edu)"
    case PasswordTooShort => "Password must be at least 6 characters"
    case PasswordsDiffer => "Passwords do not match"
  }

  predicate FormValid(form: SignupForm) {
    && !JsBlank(form.firstName) && !JsBlank(form.lastName) && !JsBlank(form.email)
    && IsVanderbiltEmail(form.email) && Utf16Length(form.password) >= 6 && form.password == form.confirmPassword
  }

  /** `validateForm`: `None` exactly when every check passes. */
  function ValidateForm(form: SignupForm): (r: Option<FormError>)
    ensures r.None? <==> FormValid(form)
  {
    if JsBlank(form.firstName) then Some(FirstNameRequired)
    else if JsBlank(form.lastName) then Some(LastNameRequired)
    else if JsBlank(form.email) then Some(EmailRequired)
    else if !IsVanderbiltEmail(form.email) then Some(NotVanderbilt)
    else if Utf16Length(form.password) < 6 then Some(PasswordTooShort)
    else if form.password != form.confirmPassword then Some(PasswordsDiffer)
    else None
  }

  /** The checks run in the order first name, last name, e-mail present,
      Vanderbilt domain, password length, confirmation: each error is
      reported exactly when its check fails and all earlier ones pass. */
  lemma ValidationOrder(form: SignupForm)
    ensures ValidateForm(form) == Some(FirstNameRequired) <==> JsBlank(form.firstName)
    ensures ValidateForm(form) == Some(LastNameRequired)
        <==> !JsBlank(form.firstName) && JsBlank(form.lastName)
    ensures ValidateForm(form) == Some(EmailRequired)
        <==> !JsBlank(form.firstName) && !JsBlank(form.lastName) && JsBlank(form.email)
    ensures ValidateForm(form) == Some(NotVanderbilt)
        <==> !JsBlank(form.firstName) && !JsBlank(form.lastName) && !JsBlank(form.email)
             && !IsVanderbiltEmail(form.email)
    ensures ValidateForm(form) == Some(PasswordTooShort)
        <==> !JsBlank(form.firstName) && !JsBlank(form.lastName) && !JsBlank(form.email)
             && IsVanderbiltEmail(form.email) && Utf16Length(form.password) < 6
    ensures ValidateForm(form) == Some(PasswordsDiffer)
        <==> !JsBlank(form.firstName) && !JsBlank(form.lastName) && !JsBlank(form.email)
             && IsVanderbiltEmail(form.email) && Utf16Length(form.password) >= 6 && form.password != form.confirmPassword
  {
  }

  /** A first name made only of white space is rejected first. */
  lemma BlankFirstNameRejected(form: SignupForm)
    requires forall i :: 0 <= i < |form.firstName| ==> IsJsSpace(form.firstName[i])
    ensures ValidateForm(form) == Some(FirstNameRequired)
  {
    JsBlankAllSpace(form.firstName);
    ValidationOrder(form);
  }

  /** With the names filled in, an e-mail made only of white space is rejected
      as missing, not as a foreign address. */
  lemma BlankEmailRejected(form: SignupForm)
    requires !JsBlank(form.firstName) && !JsBlank(form.lastName)
    requires forall i :: 0 <= i < |form.email| ==> IsJsSpace(form.email[i])
    ensures ValidateForm(form) == Some(EmailRequired)
  {
    JsBlankAllSpace(form.email);
    ValidationOrder(form);
  }

  /** The request the backend receives for a form: the fields as typed. */
  function ServerRequest(form: SignupForm): Server.SignupRequest {
    Server.SignupRequest(Some(form.email), Some(form.password), Some(form.firstName), Some(form.lastName))
  }

  predicate TrimsAgreeOn(s: string) {
    forall i :: 0 <= i < |s| ==> IsJsSpace(s[i]) == IsJavaSpace(s[i])
  }

  /** When the two trims agree on the typed characters, a form the client
      accepts meets every backend rule except, possibly, the duplicate check. */
  lemma ValidFormMeetsServerRules(form: SignupForm)
    requires ValidateForm(form).None?
    requires TrimsAgreeOn(form.email) && TrimsAgreeOn(form.firstName) && TrimsAgreeOn(form.lastName)
    ensures Server.IsVanderbiltEmail(ServerRequest(form).email)
    ensures Server.PasswordAccepted(ServerRequest(form).password)
    ensures Server.NameAccepted(ServerRequest(form).firstName)
    ensures Server.NameAccepted(ServerRequest(form).lastName)
  {
    EmailCheckAgreesWithServer(form.email);
    JsBlankIff(form.firstName);
    JsBlankIff(form.lastName);
    TrimAgree(form.firstName, IsJsSpace, IsJavaSpace);
    TrimAgree(form.lastName, IsJsSpace, IsJavaSpace);
  }

  /** So the backend can only answer that the address is already registered. */
  lemma ValidFormPassesServerRules(form: SignupForm, users: seq<UserDoc>)
    requires ValidateForm(form).None?
    requires TrimsAgreeOn(form.email) && TrimsAgreeOn(form.firstName) && TrimsAgreeOn(form.lastName)
    ensures Server.SignupCheck(ServerRequest(form), users) in {None, Some(Server.EmailTaken)}
  {
    ValidFormMeetsServerRules(form);
  }

  /** The component's state. */
  class SignupPageState {
    var form: SignupForm
    var error: string
    var isLoading: bool
    /** The `user` entry of local storage. */
    var storedUser: Option<StoredUser>
    /** Where the page navigated, if it did. */
    var route: Option<string>

    constructor ()
      ensures form == EMPTY_FORM && error == "" && !isLoading && storedUser.None? && route.None?
    {
      form := EMPTY_FORM;
      error := "";
      isLoading := false;
      storedUser := None;
      route := None;
    }

    /** `handleChange`: edits one field and clears the error. */
    method HandleChange(field: Field, value: string)
      modifies this`form, this`error
      ensures form == WithField(old(form), field, value)
      ensures error == ""
    {
      form := WithField(form, field, value);
      error := "";
    }

    /** `handleSubmit`, with `outcome` the result of the sign-up call. Returns
        the request sent, if one was: the fields as typed. */
    method HandleSubmit(outcome: HttpOutcome<AuthResponse>) returns (sent: Option<SignupRequest>)
      modifies this`error, this`isLoading, this`storedUser, this`route
      ensures old(ValidateForm(form)).Some? ==>
                && sent.None? && error == FormErrorMessage(old(ValidateForm(form)).value)
                && isLoading == old(isLoading) && storedUser == old(storedUser) && route == old(route)
      ensures old(ValidateForm(form)).None? ==>
                && sent == Some(SignupRequest(old(form).email, old(form).password, old(form).firstName, old(form).lastName))
                && !isLoading
                && PageOutcome(error, storedUser, route)
                   == AfterAnswer(Settle(outcome), SIGNUP_OK, ONBOARDING_ROUTE, PageOutcome("", old(storedUser), old(route)))
    {
      var request := SignupRequest(form.email, form.password, form.firstName, form.lastName);
      var validationError := ValidateForm(form);
      error := "";
      if validationError.Some? {
        error := FormErrorMessage(validationError.value);
        return None;
      }
      isLoading := true;
      sent := Some(request);
      var after := AfterAnswer(Settle(outcome), SIGNUP_OK, ONBOARDING_ROUTE, PageOutcome(error, storedUser, route));
      error, storedUser, route := after.error, after.storedUser, after.route;
      isLoading := false;
    }
  }
}
