/** `AuthService.java`: sign-up with a Vanderbilt address and log-in. The
    password encoder is an opaque pair of functions. */
module AuthService {
  import opened Wrappers
  import opened Text
  import opened UserModel
  import opened Repositories

  const VANDERBILT_EMAIL_DOMAIN := "@vanderbilt.edu"
  const DOMAIN_REJECTED := "Only Vanderbilt email addresses (@vanderbilt.edu) are allowed"
  const EMAIL_TAKEN := "Email already registered"
  const PASSWORD_TOO_SHORT := "Password must be at least 6 characters long"
  const FIRST_NAME_REQUIRED := "First name is required"
  const LAST_NAME_REQUIRED := "Last name is required"
  const SIGNUP_OK := "Signup successful"
  const SIGNUP_FAILED := "Signup failed: "
  const INVALID_CREDENTIALS := "Invalid email or password"
  const LOGIN_OK := "Login successful"
  const LOGIN_FAILED := "Login failed: "

  /** A `PasswordEncoder`: `encode` hashes, `matches(raw, hash)` checks. */
  datatype PasswordEncoder = PasswordEncoder(encode: string -> string, matches: (string, string) -> bool)

  /** The body of `POST /auth/signup`; every field may be null. */
  datatype SignupRequest = SignupRequest(email: Option<string>, password: Option<string>,
                                         firstName: Option<string>, lastName: Option<string>)

  /** The body of `POST /auth/login`. */
  datatype LoginRequest = LoginRequest(email: Option<string>, password: string)

  /** `AuthResponse`: a message, and the user's identity on success. */
  datatype AuthResponse = AuthResponse(message: string, userId: Option<UserId>, email: Option<string>,
                                       firstName: Option<string>, lastName: Option<string>)

  /** The one-argument constructor used for every failure. */
  function Failure(message: string): AuthResponse {
    AuthResponse(message, None, None, None, None)
  }

  function Identity(message: string, u: UserDoc): AuthResponse {
    AuthResponse(message, Some(u.id), Some(u.email), Some(u.firstName), Some(u.lastName))
  }

  /** `email.toLowerCase().trim()`. */
  function NormalizeEmail(email: string): (n: string)
    ensures |n| <= |email|
    ensures n == [] || (!IsJavaSpace(n[0]) && !IsJavaSpace(n[|n| - 1]))
  {
    TrimEnds(ToLower(email), IsJavaSpace);
    JavaTrim(ToLower(email))
  }

  /** Lower-casing then trimming is trimming then lower-casing, and neither
      the letters' case nor surrounding white space changes the normal form. */
  lemma NormalizeEmailForgetsCaseAndPadding(w1: string, email: string, w2: string)
    requires forall i :: 0 <= i < |w1| ==> IsJavaSpace(w1[i])
    requires forall i :: 0 <= i < |w2| ==> IsJavaSpace(w2[i])
    ensures NormalizeEmail(email) == ToLower(JavaTrim(email))
    ensures NormalizeEmail(ToUpper(email)) == NormalizeEmail(email)
    ensures NormalizeEmail(w1 + email + w2) == NormalizeEmail(email)
  {
    JavaSpaceCaseless();
    LowerTrimCommute(email, IsJavaSpace);
    LowerForgetsCase(email);
    LowerAppend(w1 + email, w2);
    LowerAppend(w1, email);
    TrimPadding(ToLower(w1), ToLower(email), ToLower(w2), IsJavaSpace);
  }

  /** `isVanderbiltEmail`: non-null, and ending in the domain once lower-cased and trimmed. */
  function IsVanderbiltEmail(email: Option<string>): (r: bool)
    ensures r ==> email.Some? && |email.value| >= |VANDERBILT_EMAIL_DOMAIN|
  {
    email.Some? && EndsWith(NormalizeEmail(email.value), VANDERBILT_EMAIL_DOMAIN)
  }

  /** The check reads the same with the trim applied before lower-casing. */
  lemma EmailCheckTrimThenLower(email: string)
    ensures IsVanderbiltEmail(Some(email)) <==> EndsWith(ToLower(JavaTrim(email)), VANDERBILT_EMAIL_DOMAIN)
  {
    NormalizeEmailForgetsCaseAndPadding([], email, []);
  }

  /** The password rule: present and at least 6 characters, counted as
      Java `length()` counts them (UTF-16 code units). */
  predicate PasswordAccepted(password: Option<string>) {
    password.Some? && Utf16Length(password.value) >= 6
  }

  /** Three characters outside the Basic Multilingual Plane make six code
      units, so such a password passes the length rule. */
  lemma AstralPasswordAccepted()
    ensures var p := "\U{1F600}\U{1F600}\U{1F600}"; |p| == 3 && PasswordAccepted(Some(p))
  {
    var p := "\U{1F600}\U{1F600}\U{1F600}";
    assert p[1..] == "\U{1F600}\U{1F600}" && p[2..] == "\U{1F600}" && p[3..] == [];
  }

  /** The name rule: present and not blank. */
  predicate NameAccepted(name: Option<string>) {
    name.Some? && JavaTrim(name.value) != []
  }

  /** Every sign-up rule holds; the duplicate check compares the address
      exactly as sent with the stored (normalised) ones. */
  predicate SignupAccepted(req: SignupRequest, users: seq<UserDoc>) {
    && IsVanderbiltEmail(req.email)
    && !ExistsByEmail(users, req.email.value)
    && PasswordAccepted(req.password)
    && NameAccepted(req.firstName)
    && NameAccepted(req.lastName)
  }

  /** The rules `signup` checks, in the order it checks them. */
  datatype SignupError = DomainRejected | EmailTaken | PasswordTooShort | FirstNameRequired | LastNameRequired

  function ErrorMessage(e: SignupError): string {
    match e
    case DomainRejected => DOMAIN_REJECTED
    case EmailTaken => EMAIL_TAKEN
    case PasswordTooShort => PASSWORD_TOO_SHORT
    case FirstNameRequired => FIRST_NAME_REQUIRED
    case LastNameRequired => LAST_NAME_REQUIRED
  }

  /** The rejection `signup` returns, if any: the first failing rule in the
      order domain, already registered, password, first name, last name. */
  function SignupCheck(req: SignupRequest, users: seq<UserDoc>): (r: Option<SignupError>)
    ensures r.None? <==> SignupAccepted(req, users)
    ensures r == Some(DomainRejected) <==> !IsVanderbiltEmail(req.email)
    ensures r == Some(EmailTaken) <==> IsVanderbiltEmail(req.email) && ExistsByEmail(users, req.email.value)
    ensures r == Some(PasswordTooShort)
        <==> IsVanderbiltEmail(req.email) && !ExistsByEmail(users, req.email.value) && !PasswordAccepted(req.password)
    ensures r == Some(FirstNameRequired)
        <==> IsVanderbiltEmail(req.email) && !ExistsByEmail(users, req.email.value) && PasswordAccepted(req.password)
             && !NameAccepted(req.firstName)
    ensures r == Some(LastNameRequired)
        <==> IsVanderbiltEmail(req.email) && !ExistsByEmail(users, req.email.value) && PasswordAccepted(req.password)
             && NameAccepted(req.firstName) && !NameAccepted(req.lastName)
  {
    if !IsVanderbiltEmail(req.email) then Some(DomainRejected)
    else if ExistsByEmail(users, req.email.value) then Some(EmailTaken)
    else if req.password.None? || Utf16Length(req.password.value) < 6 then Some(PasswordTooShort)
    else if req.firstName.None? || JavaTrim(req.firstName.value) == [] then Some(FirstNameRequired)
    else if req.lastName.None? || JavaTrim(req.lastName.value) == [] then Some(LastNameRequired)
    else None
  }

  /** No failure message reads "Signup successful". */
  lemma FailuresAreNotSuccess(e: SignupError, detail: string)
    ensures ErrorMessage(e) != SIGNUP_OK
    ensures SIGNUP_FAILED + detail != SIGNUP_OK
  {
    assert (SIGNUP_FAILED + detail)[7] != SIGNUP_OK[7];
    assert |ErrorMessage(e)| != |SIGNUP_OK|;
  }

  /** The document an accepted sign-up stores: the address lower-cased and
      trimmed, the names trimmed, only the encoder's output of the password,
      and the defaults of a new user. */
  function NewUserDoc(id: UserId, req: SignupRequest, encoder: PasswordEncoder, now: int): (d: UserDoc)
    requires SignupAccepted(req, [])
    ensures d.id == id && d.email == NormalizeEmail(req.email.value)
    ensures d.password == encoder.encode(req.password.value)
    ensures d.firstName == JavaTrim(req.firstName.value) && d.lastName == JavaTrim(req.lastName.value)
    ensures EndsWith(d.email, VANDERBILT_EMAIL_DOMAIN) && d.firstName != [] && d.lastName != []
    ensures d.profile == Some(NEW_PROFILE) && d.onboarding == Some(NEW_ONBOARDING)
    ensures d.createdAt == now && d.updatedAt == now
  {
    UserDoc(id, NormalizeEmail(req.email.value), encoder.encode(req.password.value),
            JavaTrim(req.firstName.value), JavaTrim(req.lastName.value), now, now,
            Some(NEW_PROFILE), Some(NEW_ONBOARDING))
  }

  /** `signup(req)`. `saveFailure` is the message of an exception the save
      throws (for instance a unique-index violation), if it throws. */
  method Signup(db: Store, req: SignupRequest, encoder: PasswordEncoder, now: int, saveFailure: Option<string>)
    returns (resp: AuthResponse)
    requires db.Valid()
    modifies db`users
    ensures db.Valid()
    ensures old(db.StepsInRange()) ==> db.StepsInRange()
    ensures SignupCheck(req, old(db.users)).Some? ==>
              resp == Failure(ErrorMessage(SignupCheck(req, old(db.users)).value)) && db.users == old(db.users)
    ensures SignupAccepted(req, old(db.users)) && saveFailure.Some? ==>
              resp == Failure(SIGNUP_FAILED + saveFailure.value) && db.users == old(db.users)
    ensures SignupAccepted(req, old(db.users)) && saveFailure.None? ==>
              && db.users == old(db.users) + [NewUserDoc(|old(db.users)|, req, encoder, now)]
              && resp == Identity(SIGNUP_OK, db.users[|old(db.users)|])
    ensures resp.message == SIGNUP_OK <==> SignupAccepted(req, old(db.users)) && saveFailure.None?
  {
    var rejection := SignupCheck(req, db.users);
    if rejection.Some? {
      FailuresAreNotSuccess(rejection.value, "");
      return Failure(ErrorMessage(rejection.value));
    }
    var hashedPassword := encoder.encode(req.password.value);
    var newUser := new User(NormalizeEmail(req.email.value), hashedPassword,
                            JavaTrim(req.firstName.value), JavaTrim(req.lastName.value), now);
    if saveFailure.Some? {
      FailuresAreNotSuccess(DomainRejected, saveFailure.value);
      return Failure(SIGNUP_FAILED + saveFailure.value);
    }
    var id := db.InsertUser(newUser);
    resp := Identity(SIGNUP_OK, newUser.Doc());
  }

  /** No failure message reads "Login successful". */
  lemma LoginFailuresAreNotSuccess(detail: string)
    ensures INVALID_CREDENTIALS != LOGIN_OK
    ensures LOGIN_FAILED + detail != LOGIN_OK
  {
    assert (LOGIN_FAILED + detail)[6] != LOGIN_OK[6];
    assert INVALID_CREDENTIALS[0] != LOGIN_OK[0];
  }

  /** `login(req)`: the user is looked up by the lower-cased, trimmed address;
      an unknown address and a wrong password give the same answer. A null
      address throws inside the lookup; `failureDetail` is that exception's message. */
  method Login(db: Store, req: LoginRequest, encoder: PasswordEncoder, failureDetail: string)
    returns (resp: AuthResponse)
    ensures req.email.None? ==> resp == Failure(LOGIN_FAILED + failureDetail)
    ensures req.email.Some? && !ExistsByEmail(db.users, NormalizeEmail(req.email.value)) ==>
              resp == Failure(INVALID_CREDENTIALS)
    ensures req.email.Some?
            && (forall u :: (u in db.users && u.email == NormalizeEmail(req.email.value))
                             ==> !encoder.matches(req.password, u.password))
            ==> resp == Failure(INVALID_CREDENTIALS)
    ensures req.email.Some? && ExistsByEmail(db.users, NormalizeEmail(req.email.value))
            && (forall u :: (u in db.users && u.email == NormalizeEmail(req.email.value))
                             ==> encoder.matches(req.password, u.password))
            ==> resp.message == LOGIN_OK
    ensures resp.message == LOGIN_OK ==>
              && req.email.Some?
              && (exists u :: u in db.users && u.email == NormalizeEmail(req.email.value)
                              && encoder.matches(req.password, u.password) && resp == Identity(LOGIN_OK, u))
    ensures resp.message != LOGIN_OK ==> resp.userId.None?
  {
    LoginFailuresAreNotSuccess(failureDetail);
    if req.email.None? {
      return Failure(LOGIN_FAILED + failureDetail);
    }
    var userOptional := db.FindByEmail(NormalizeEmail(req.email.value));
    if userOptional.None? {
      return Failure(INVALID_CREDENTIALS);
    }
    var user := userOptional.value;
    if !encoder.matches(req.password, user.password) {
      return Failure(INVALID_CREDENTIALS);
    }
    resp := Identity(LOGIN_OK, user);
  }

  /** A normalised address does not start with white space. */
  lemma NormalizedStartsWithNonSpace(email: string)
    ensures NormalizeEmail(email) == [] || !IsJavaSpace(NormalizeEmail(email)[0])
  {
    TrimEnds(ToLower(email), IsJavaSpace);
  }

  /** A leading space does not change the normal form. */
  lemma LeadingSpaceNormalizes(e: string)
    ensures NormalizeEmail(" " + e) == NormalizeEmail(e)
  {
    assert forall i :: 0 <= i < |" "| ==> IsJavaSpace(" "[i]);
    NormalizeEmailForgetsCaseAndPadding(" ", e, []);
    assert " " + e + [] == " " + e;
  }

  /** No normalised address starts with a space. */
  lemma NoStoredAddressStartsWithSpace(users: seq<UserDoc>, e: string)
    requires forall u :: u in users ==> NormalizeEmail(u.email) == u.email
    ensures !ExistsByEmail(users, " " + e)
  {
    forall u | u in users
      ensures u.email != " " + e
    {
      NormalizedStartsWithNonSpace(u.email);
    }
  }

  /** The duplicate check compares the address as sent with the stored,
      normalised ones: whatever is registered, the same address with a
      leading space passes every rule that the original passes apart from
      the duplicate check, and is stored as the same normalised address. */
  lemma DuplicateCheckMissesPaddedAddress(users: seq<UserDoc>, req: SignupRequest)
    requires forall u :: u in users ==> NormalizeEmail(u.email) == u.email
    requires SignupAccepted(req, [])
    ensures var padded := req.(email := Some(" " + req.email.value));
            && SignupAccepted(padded, users)
            && NormalizeEmail(padded.email.value) == NormalizeEmail(req.email.value)
  {
    LeadingSpaceNormalizes(req.email.value);
    NoStoredAddressStartsWithSpace(users, req.email.value);
  }

  /** Appending a user whose address nobody had makes it the only one with it. */
  lemma OnlyNewUserHasAddress(before: seq<UserDoc>, stored: UserDoc, email: string)
    requires !ExistsByEmail(before, email) && stored.email == email
    ensures ExistsByEmail(before + [stored], email)
    ensures forall u :: u in before + [stored] && u.email == email ==> u == stored
  {
    assert (before + [stored])[|before|] == stored;
  }

  /** A sign-up followed by a log-in with the same address and password
      succeeds and names the new user, provided the encoder accepts its own
      hashes and the normalised address was not already stored. */
  method SignupThenLogin(db: Store, req: SignupRequest, encoder: PasswordEncoder, now: int, failureDetail: string)
    returns (signedUp: AuthResponse, loggedIn: AuthResponse)
    requires db.Valid()
    modifies db`users
    ensures signedUp.message == SIGNUP_OK && req.email.Some? && req.password.Some?
            && encoder.matches(req.password.value, encoder.encode(req.password.value))
            && !ExistsByEmail(old(db.users), NormalizeEmail(req.email.value))
            ==> loggedIn.message == LOGIN_OK && loggedIn == signedUp.(message := LOGIN_OK)
  {
    signedUp := Signup(db, req, encoder, now, None);
    if signedUp.message != SIGNUP_OK {
      loggedIn := Failure(INVALID_CREDENTIALS);
      return;
    }
    ghost var before := old(db.users);
    ghost var stored := db.users[|before|];
    var email := req.email.value;
    if !ExistsByEmail(before, NormalizeEmail(email)) {
      OnlyNewUserHasAddress(before, stored, NormalizeEmail(email));
    }
    loggedIn := Login(db, LoginRequest(req.email, req.password.value), encoder, failureDetail);
  }
}
