/** `Onboarding.tsx`: the four-step onboarding wizard. It loads the profile,
    lets the user edit it, saves it with the step reached and follows the
    step the backend reports. */
module OnboardingPage {
  import opened Wrappers
  import opened Text
  import opened UserModel
  import opened ClientProfiles
  import ProfileService

  const DEFAULT_AVATAR := "https://avatars.dicebear.com/api/initials/PlusOne.svg?scale=110&background=%23f5f5f5"
  /** `STEP_META.length`. */
  const STEP_COUNT := 4
  const DEFAULT_COUNTRY := "US"
  const LOAD_FAILED := "Failed to load profile"
  const SAVE_FAILED := "Failed to save your progress"
  const HOME_ROUTE := "/home"

  function Min(a: int, b: int): int {
    if a <= b then a else b
  }

  function Max(a: int, b: int): int {
    if a >= b then a else b
  }

  /** `defaultProfile`. */
  const DEFAULT_PROFILE := ClientProfile(
    None, None,
    ClientLocation("", "", DEFAULT_COUNTRY, None, None),
    ClientJob("", "", Some("")),
    [],
    ClientPhoto(Some("stock"), Some("default"), Some(DEFAULT_AVATAR)),
    0, 0)

  /** A profile as the wizard holds it: the photo's three parts are always set. */
  predicate PhotoComplete(c: ClientProfile) {
    c.profilePhoto.storage.Some? && c.profilePhoto.key.Some? && c.profilePhoto.url.Some?
  }

  // ----- normalizeProfile -----

  function LocationOf(p: Profile): Location {
    p.location.GetOr(EMPTY_LOCATION)
  }

  function JobOf(p: Profile): Job {
    p.job.GetOr(EMPTY_JOB)
  }

  function PhotoOf(p: Profile): Photo {
    p.profilePhoto.GetOr(EMPTY_PHOTO)
  }

  /** `normalizeProfile`: no profile gives `defaultProfile`; otherwise every
      missing value takes its default (an empty string, "US" for the country,
      "stock", "default" and the default avatar for the photo, no interests)
      and every present value is kept. */
  function NormalizeProfile(profile: Option<Profile>): (c: ClientProfile)
    ensures profile.None? ==> c == DEFAULT_PROFILE
    ensures PhotoComplete(c)
    ensures profile.Some? ==>
              var p := profile.value;
              && c.gender == p.gender && c.age == p.age
              && c.location.city == LocationOf(p).city.GetOr("")
              && c.location.state == LocationOf(p).state.GetOr("")
              && c.location.country == LocationOf(p).country.GetOr(DEFAULT_COUNTRY)
              && c.location.latitude == LocationOf(p).latitude
              && c.location.longitude == LocationOf(p).longitude
              && c.job.title == JobOf(p).title.GetOr("")
              && c.job.companiesName == JobOf(p).companiesName.GetOr("")
              && c.job.companyId == Some(JobOf(p).companyId.GetOr(""))
              && c.interests == p.interests.GetOr([])
              && c.profilePhoto.storage == Some(PhotoOf(p).storage.GetOr("stock"))
              && c.profilePhoto.key == Some(PhotoOf(p).key.GetOr("default"))
              && c.profilePhoto.url == Some(PhotoOf(p).url.GetOr(DEFAULT_AVATAR))
              && c.numConnections == p.numConnections && c.numRequests == p.numRequests
  {
    if profile.None? then DEFAULT_PROFILE
    else
      var p := profile.value;
      var loc := LocationOf(p);
      var job := JobOf(p);
      var photo := PhotoOf(p);
      ClientProfile(
        p.gender, p.age,
        ClientLocation(loc.city.GetOr(""), loc.state.GetOr(""), loc.country.GetOr(DEFAULT_COUNTRY),
                       loc.latitude, loc.longitude),
        ClientJob(job.title.GetOr(""), job.companiesName.GetOr(""), Some(job.companyId.GetOr(""))),
        p.interests.GetOr([]),
        ClientPhoto(Some(photo.storage.GetOr("stock")), Some(photo.key.GetOr("default")),
                    Some(photo.url.GetOr(DEFAULT_AVATAR))),
        p.numConnections, p.numRequests)
  }

  /** A profile whose parts are all missing reads as the default profile. */
  lemma EmptyProfileIsDefault()
    ensures NormalizeProfile(Some(NEW_PROFILE)) == DEFAULT_PROFILE
  {
  }

  // ----- normalizeProfileForRequest -----

  /** The location part of `normalizeProfileForRequest`: city and state
      trimmed, an empty country replaced by "US", coordinates kept. */
  function RequestLocation(l: ClientLocation): (r: ClientLocation)
    ensures r.city == JsTrim(l.city) && r.state == JsTrim(l.state)
    ensures r.country == (if l.country == "" then DEFAULT_COUNTRY else l.country)
    ensures r.country != ""
    ensures r.latitude == l.latitude && r.longitude == l.longitude
  {
    l.(city := JsTrim(l.city), state := JsTrim(l.state),
       country := if l.country == "" then DEFAULT_COUNTRY else l.country)
  }

  /** The job part: title, company name and company id trimmed, a missing id
      sent as "". */
  function RequestJob(j: ClientJob): (r: ClientJob)
    ensures r.title == JsTrim(j.title) && r.companiesName == JsTrim(j.companiesName)
    ensures r.companyId.Some?
    ensures r.companyId.value == (if j.companyId.Some? then JsTrim(j.companyId.value) else "")
  {
    ClientJob(JsTrim(j.title), JsTrim(j.companiesName),
              Some(if j.companyId.Some? then JsTrim(j.companyId.value) else ""))
  }

  /** The photo part: a missing or empty URL becomes the default avatar; a
      non-empty one, the storage and the key are kept. */
  function RequestPhoto(ph: ClientPhoto): (r: ClientPhoto)
    ensures r.storage == ph.storage && r.key == ph.key
    ensures r.url.Some? && r.url.value != ""
    ensures ph.url.Some? && ph.url.value != "" ==> r.url == ph.url
    ensures ph.url.None? || ph.url.value == "" ==> r.url == Some(DEFAULT_AVATAR)
  {
    ph.(url := Some(if ph.url.Some? && ph.url.value != "" then ph.url.value else DEFAULT_AVATAR))
  }

  /** `normalizeProfileForRequest`: the location, job and photo normalised as
      above; gender, age, interests and counters kept. */
  function NormalizeProfileForRequest(c: ClientProfile): (r: ClientProfile)
    ensures r.gender == c.gender && r.age == c.age && r.interests == c.interests
    ensures r.numConnections == c.numConnections && r.numRequests == c.numRequests
    ensures r.location.country != [] && r.job.companyId.Some?
    ensures r.profilePhoto.url.Some? && r.profilePhoto.url.value != []
  {
    c.(location := RequestLocation(c.location), job := RequestJob(c.job),
       profilePhoto := RequestPhoto(c.profilePhoto))
  }

  lemma RequestLocationIdempotent(l: ClientLocation)
    ensures RequestLocation(RequestLocation(l)) == RequestLocation(l)
  {
    TrimIdempotent(l.city, IsJsSpace);
    TrimIdempotent(l.state, IsJsSpace);
  }

  lemma RequestJobIdempotent(j: ClientJob)
    ensures RequestJob(RequestJob(j)) == RequestJob(j)
  {
    TrimIdempotent(j.title, IsJsSpace);
    TrimIdempotent(j.companiesName, IsJsSpace);
    if j.companyId.Some? {
      TrimIdempotent(j.companyId.value, IsJsSpace);
    } else {
      TrimNoop("", IsJsSpace);
    }
  }

  /** Normalising for a request twice is normalising once. */
  lemma RequestNormalizationIdempotent(c: ClientProfile)
    ensures NormalizeProfileForRequest(NormalizeProfileForRequest(c)) == NormalizeProfileForRequest(c)
  {
    RequestLocationIdempotent(c.location);
    RequestJobIdempotent(c.job);
  }

  /** A profile the wizard saves comes back unchanged: the backend keeps a
      complete profile with non-negative counters as sent, and reading the
      answer gives the request's profile again. */
  lemma SavedProfileReadsBack(c: ClientProfile)
    requires PhotoComplete(c) && c.numConnections >= 0 && c.numRequests >= 0
    ensures var sent := NormalizeProfileForRequest(c);
            NormalizeProfile(Some(ProfileService.SanitizeProfile(Some(ToWire(sent))))) == sent
  {
    var sent := NormalizeProfileForRequest(c);
    var stored := ProfileService.SanitizeProfile(Some(ToWire(sent)));
    assert stored == ToWire(sent);
  }

  // ----- steps -----

  /** `Math.min(step + 1, STEP_META.length)`: the step "Next" saves. */
  function NextStep(step: int): (n: int)
    ensures n <= STEP_COUNT
    ensures step < STEP_COUNT ==> n == step + 1
  {
    Min(step + 1, STEP_COUNT)
  }

  /** The step after a save that did not finish onboarding: the reported step,
      or the step sent when none is reported, capped at 4 (with no lower bound). */
  function StepAfterSave(reported: Option<int>, nextStep: int): (s: int)
    ensures s <= STEP_COUNT
    ensures (reported.Some? ==> 1 <= reported.value) && (reported.None? ==> 1 <= nextStep) ==> 1 <= s
    ensures reported.Some? && reported.value <= STEP_COUNT ==> s == reported.value
  {
    Min(reported.GetOr(nextStep), STEP_COUNT)
  }

  /** A reported step below 1 is taken as it is. */
  lemma StepAfterSaveHasNoLowerBound()
    ensures StepAfterSave(Some(0), 2) == 0
  {
  }

  /** The step a loaded profile resumes at: the reported step, 1 when none is
      reported, clamped to 1..4. */
  function ResumeStep(reported: Option<int>): (s: int)
    ensures 1 <= s <= STEP_COUNT
    ensures reported.None? ==> s == 1
    ensures reported.Some? && 1 <= reported.value <= STEP_COUNT ==> s == reported.value
  {
    Max(1, Min(reported.GetOr(1), STEP_COUNT))
  }

  /** The client clamps a reported step exactly as the backend clamps a requested one. */
  lemma ResumeStepIsServerClamp(step: int)
    ensures ResumeStep(Some(step)) == ProfileService.ClampStep(step)
  {
  }

  /** For an answer of the backend the step reported is the stored one, so a
      save always leaves the wizard within 1..4. */
  lemma ServerStepKeepsWizardInRange(r: ProfileService.ProfileResponse, nextStep: int)
    requires 1 <= r.onboarding.step <= STEP_COUNT
    ensures 1 <= StepAfterSave(ReportedStep(ReplyOf(r)), nextStep) <= STEP_COUNT
  {
  }

  // ----- interests -----

  /** `interests.filter((i) => i !== x)`. */
  function Without(list: seq<string>, x: string): (r: seq<string>)
    ensures forall y :: y in r <==> y in list && y != x
    ensures x !in list ==> r == list
    ensures |r| <= |list|
    ensures multiset(r) == multiset(list)[x := 0]
  {
    if list == [] then []
    else
      assert list == [list[0]] + list[1..];
      if list[0] == x then Without(list[1..], x)
      else [list[0]] + Without(list[1..], x)
  }

  /** The filter keeps the other interests in their order: it distributes
      over concatenation. */
  lemma {:induction false} WithoutKeepsOrder(a: seq<string>, b: seq<string>, x: string)
    ensures Without(a + b, x) == Without(a, x) + Without(b, x)
  {
    if a == [] {
      assert a + b == b;
    } else {
      assert (a + b)[0] == a[0];
      assert (a + b)[1..] == a[1..] + b;
      WithoutKeepsOrder(a[1..], b, x);
      if a[0] != x {
        assert [a[0]] + (Without(a[1..], x) + Without(b, x))
            == ([a[0]] + Without(a[1..], x)) + Without(b, x);
      }
    }
  }

  /** The new interest list of `toggleInterest(x)`: every occurrence removed
      when present, appended at the end when absent. */
  function Toggled(list: seq<string>, x: string): (r: seq<string>)
    ensures x in r <==> x !in list
    ensures forall y :: y != x ==> (y in r <==> y in list)
    ensures x !in list ==> r == list + [x]
    ensures x in list ==> r == Without(list, x)
    ensures x in list ==> multiset(r) == multiset(list)[x := 0]
  {
    if x in list then Without(list, x) else list + [x]
  }

  /** Toggling an absent interest twice restores the list. */
  lemma ToggleTwiceRestoresAbsent(list: seq<string>, x: string)
    requires x !in list
    ensures Toggled(Toggled(list, x), x) == list
  {
    WithoutAppended(list, x);
  }

  lemma {:induction false} WithoutAppended(list: seq<string>, x: string)
    requires x !in list
    ensures Without(list + [x], x) == list
  {
    if list == [] {
      assert [] + [x] == [x];
    } else {
      assert (list + [x])[1..] == list[1..] + [x];
      WithoutAppended(list[1..], x);
    }
  }

  /** Toggling a present interest twice keeps the interests but moves it to the end. */
  lemma ToggleTwiceMovesPresentToEnd(list: seq<string>, x: string)
    requires x in list
    ensures Toggled(Toggled(list, x), x) == Without(list, x) + [x]
    ensures forall y :: y in Toggled(Toggled(list, x), x) <==> y in list
  {
  }

  /** So toggling twice does not always restore a duplicate-free list. */
  lemma ToggleTwiceCanReorder()
    ensures Toggled(Toggled(["a", "b"], "a"), "a") == ["b", "a"]
  {
    assert "a" != "b";
    assert "a" in ["a", "b"];
    assert Without(["a", "b"], "a") == ["b"] by {
      assert ["a", "b"][1..] == ["b"];
      assert ["b"][1..] == [];
    }
  }

  // ----- city choice -----

  /** The first option whose city equals `value`, ignoring letter case. */
  function FindCity(options: seq<ClientLocation>, value: string): (r: Option<ClientLocation>)
    ensures r.Some? ==> r.value in options && ToLower(r.value.city) == ToLower(value)
    ensures r.None? <==> forall k :: 0 <= k < |options| ==> ToLower(options[k].city) != ToLower(value)
    ensures r.Some? ==> (exists k :: 0 <= k < |options| && options[k] == r.value &&
                          forall j :: 0 <= j < k ==> ToLower(options[j].city) != ToLower(value))
  {
    if options == [] then None
    else if ToLower(options[0].city) == ToLower(value) then Some(options[0])
    else
      var r := FindCity(options[1..], value);
      if r.Some? then
        var k :| 0 <= k < |options[1..]| && options[1..][k] == r.value
                 && forall j :: 0 <= j < k ==> ToLower(options[1..][j].city) != ToLower(value);
        assert options[k + 1] == r.value;
        r
      else r
  }

  /** `onCityChange(value)`: the city becomes `value`; a matching option fills
      the state and country (unless its own are empty); otherwise both stay. */
  function CityChanged(loc: ClientLocation, options: seq<ClientLocation>, value: string): (r: ClientLocation)
    ensures r.city == value
    ensures r.latitude == loc.latitude && r.longitude == loc.longitude
    ensures FindCity(options, value).None? ==> r == loc.(city := value)
    ensures (FindCity(options, value).Some? && FindCity(options, value).value.state != "") ==>
              r.state == FindCity(options, value).value.state
    ensures (FindCity(options, value).Some? && FindCity(options, value).value.country != "") ==>
              r.country == FindCity(options, value).value.country
  {
    var m := FindCity(options, value);
    loc.(city := value,
         state := if m.Some? && m.value.state != "" then m.value.state else loc.state,
         country := if m.Some? && m.value.country != "" then m.value.country else loc.country)
  }

  /** Typing a city in another letter case picks the same option. */
  lemma CityChoiceIgnoresCase(options: seq<ClientLocation>, value: string)
    ensures FindCity(options, ToUpper(value)) == FindCity(options, value)
  {
    LowerForgetsCase(value);
    FindCityCaseless(options, ToUpper(value), value);
  }

  lemma {:induction false} FindCityCaseless(options: seq<ClientLocation>, v1: string, v2: string)
    requires ToLower(v1) == ToLower(v2)
    ensures FindCity(options, v1) == FindCity(options, v2)
  {
    if options != [] {
      FindCityCaseless(options[1..], v1, v2);
    }
  }

  // ----- labels -----

  /** `formatGenderLabel`. */
  function FormatGenderLabel(g: Gender): (text: string)
    ensures text != [] && 'A' <= text[0] <= 'Z'
  {
    match g
    case Male => "Male"
    case Female => "Female"
    case NonBinary => "Non-binary"
    case Other => "Other"
    case PreferNotToSay => "Prefer not to say"
  }

  /** Different genders get different labels. */
  lemma GenderLabelsDistinct(a: Gender, b: Gender)
    ensures FormatGenderLabel(a) == FormatGenderLabel(b) ==> a == b
  {
    if FormatGenderLabel(a) == FormatGenderLabel(b) {
      assert |FormatGenderLabel(a)| == |FormatGenderLabel(b)|;
    }
  }

  // ----- the component -----

  /** An answer that reports no step below 1, as every answer of the backend does. */
  predicate SaneReply(reply: Result<ProfileReply, string>) {
    reply.Err? || ReportsCompleted(reply.value) || ReportedStep(reply.value).None? ||
    1 <= ReportedStep(reply.value).value
  }

  /** The part of the wizard's state that loading and saving change. */
  datatype WizardView = WizardView(profile: ClientProfile, step: int, error: Option<string>, route: Option<string>)

  /** The step indicator shows one of the four steps and the photo is complete. */
  predicate ViewValid(v: WizardView) {
    1 <= v.step <= STEP_COUNT && PhotoComplete(v.profile)
  }

  /** `hydrateFromResponse`: takes the normalised profile; a completed
      onboarding navigates home, otherwise the wizard resumes at the
      reported step clamped to 1..4. */
  function Hydrated(v: WizardView, reply: ProfileReply): (w: WizardView)
    ensures w.profile == NormalizeProfile(reply.profile) && w.error == v.error
    ensures ReportsCompleted(reply) ==> w.route == Some(HOME_ROUTE) && w.step == v.step
    ensures !ReportsCompleted(reply) ==> w.step == ResumeStep(ReportedStep(reply)) && w.route == v.route
    ensures ViewValid(v) || !ReportsCompleted(reply) ==> ViewValid(w)
  {
    var w := v.(profile := NormalizeProfile(reply.profile));
    if ReportsCompleted(reply) then w.(route := Some(HOME_ROUTE))
    else w.(step := ResumeStep(ReportedStep(reply)))
  }

  /** The first load, with `reply` the result of `getProfile`: the error is
      cleared, then an answer hydrates the wizard and a failure shows its
      message or "Failed to load profile". */
  function Loaded(v: WizardView, reply: Result<ProfileReply, string>): (w: WizardView)
    ensures reply.Ok? ==> w == Hydrated(v.(error := None), reply.value)
    ensures reply.Err? ==> w == v.(error := Some(if reply.error != "" then reply.error else LOAD_FAILED))
    ensures ViewValid(v) ==> ViewValid(w)
  {
    match reply
    case Ok(r) => Hydrated(v.(error := None), r)
    case Err(message) => v.(error := Some(if message != "" then message else LOAD_FAILED))
  }

  /** `persistProfile` once the update call has settled with `reply`: an
      answer hydrates the wizard and, unless onboarding is complete, moves it
      to the reported step (or `nextStep`) capped at 4; a failure keeps
      everything but the error. */
  function Saved(v: WizardView, nextStep: int, reply: Result<ProfileReply, string>): (w: WizardView)
    ensures reply.Err? ==> w == v.(error := Some(if reply.error != "" then reply.error else SAVE_FAILED))
    ensures reply.Ok? ==> w.error.None? && w.profile == NormalizeProfile(reply.value.profile)
    ensures (reply.Ok? && ReportsCompleted(reply.value)) ==> w.route == Some(HOME_ROUTE) && w.step == v.step
    ensures (reply.Ok? && !ReportsCompleted(reply.value)) ==>
              w.step == StepAfterSave(ReportedStep(reply.value), nextStep) && w.route == v.route
    ensures ViewValid(v) && 1 <= nextStep && SaneReply(reply) ==> ViewValid(w)
  {
    match reply
    case Ok(r) =>
      var w := Hydrated(v.(error := None), r);
      if ReportsCompleted(r) then w.(route := Some(HOME_ROUTE))
      else w.(step := StepAfterSave(ReportedStep(r), nextStep))
    case Err(message) => v.(error := Some(if message != "" then message else SAVE_FAILED))
  }

  /** A save answered by the backend never leaves the wizard outside 1..4. */
  lemma BackendSaveKeepsStepInRange(v: WizardView, nextStep: int, r: ProfileService.ProfileResponse)
    requires ViewValid(v) && 1 <= nextStep
    requires 1 <= r.onboarding.step <= STEP_COUNT
    ensures ViewValid(Saved(v, nextStep, Ok(ReplyOf(r))))
  {
  }

  /** The body `persistProfile` sends. */
  function SaveRequest(c: ClientProfile, nextStep: int, markComplete: bool): (sent: ProfileUpdatePayload)
    ensures sent.step == Some(nextStep) && sent.completed == Some(markComplete)
    ensures sent.profile == NormalizeProfileForRequest(c)
  {
    ProfileUpdatePayload(NormalizeProfileForRequest(c), Some(nextStep), Some(markComplete))
  }

  /** The wizard's state. `route` is where it navigated, if it did. */
  class OnboardingWizard {
    var profile: ClientProfile
    var step: int
    var error: Option<string>
    var isSaving: bool
    var customInterest: string
    var route: Option<string>
    function View(): WizardView
      reads this
    {
      WizardView(profile, step, error, route)
    }

    ghost predicate Valid()
      reads this
    {
      ViewValid(View())
    }

    constructor ()
      ensures Valid()
      ensures profile == DEFAULT_PROFILE && step == 1 && error.None? && !isSaving
      ensures customInterest == "" && route.None?
    {
      profile := DEFAULT_PROFILE;
      step := 1;
      error := None;
      isSaving := false;
      customInterest := "";
      route := None;
    }

    method SetView(w: WizardView)
      modifies this`profile, this`step, this`route, this`error
      ensures View() == w
    {
      profile, step, error, route := w.profile, w.step, w.error, w.route;
    }

    /** The first load; `reply` is the result of `getProfile`. */
    method Load(reply: Result<ProfileReply, string>)
      modifies this`profile, this`step, this`route, this`error
      ensures View() == Loaded(old(View()), reply)
      ensures old(Valid()) ==> Valid()
    {
      SetView(Loaded(View(), reply));
    }

    /** `persistProfile(nextStep, markComplete)`; `reply` is the result of the
        update call. Returns the body sent. */
    method PersistProfile(nextStep: int, markComplete: bool, reply: Result<ProfileReply, string>)
      returns (sent: ProfileUpdatePayload)
      modifies this`profile, this`step, this`route, this`error, this`isSaving
      ensures sent == SaveRequest(old(profile), nextStep, markComplete)
      ensures View() == Saved(old(View()), nextStep, reply) && !isSaving
      ensures old(Valid()) && 1 <= nextStep && SaneReply(reply) ==> Valid()
    {
      isSaving := true;
      sent := SaveRequest(profile, nextStep, markComplete);
      SetView(Saved(View(), nextStep, reply));
      isSaving := false;
    }

    /** `handleNext`: saves with the next step, never past the last. */
    method HandleNext(reply: Result<ProfileReply, string>) returns (sent: ProfileUpdatePayload)
      modifies this`profile, this`step, this`route, this`error, this`isSaving
      ensures sent == SaveRequest(old(profile), NextStep(old(step)), false)
      ensures sent.step.value <= STEP_COUNT
      ensures View() == Saved(old(View()), NextStep(old(step)), reply)
      ensures old(Valid()) && SaneReply(reply) ==> Valid()
    {
      sent := PersistProfile(NextStep(step), false, reply);
    }

    /** `handleBack`: one step back, only when not on the first. */
    method HandleBack()
      modifies this`step
      ensures old(step) > 1 ==> step == old(step) - 1
      ensures old(step) <= 1 ==> step == old(step)
      ensures old(Valid()) ==> Valid()
    {
      if step > 1 {
        step := Max(step - 1, 1);
      }
    }

    /** `handleFinish`: saves at the last step, marking onboarding complete. */
    method HandleFinish(reply: Result<ProfileReply, string>) returns (sent: ProfileUpdatePayload)
      modifies this`profile, this`step, this`route, this`error, this`isSaving
      ensures sent == SaveRequest(old(profile), STEP_COUNT, true)
      ensures View() == Saved(old(View()), STEP_COUNT, reply)
      ensures old(Valid()) && SaneReply(reply) ==> Valid()
    {
      sent := PersistProfile(STEP_COUNT, true, reply);
    }

    /** `toggleInterest(interest)`. */
    method ToggleInterest(interest: string)
      modifies this`profile
      ensures profile == old(profile).(interests := Toggled(old(profile).interests, interest))
      ensures old(Valid()) ==> Valid()
    {
      profile := profile.(interests := Toggled(profile.interests, interest));
    }

    /** `addCustomInterest`: the typed text, trimmed, is toggled and the input
        cleared; blank input is ignored. */
    method AddCustomInterest()
      modifies this`profile, this`customInterest
      ensures JsBlank(old(customInterest)) ==> profile == old(profile) && customInterest == old(customInterest)
      ensures !JsBlank(old(customInterest)) ==>
                && profile == old(profile).(interests := Toggled(old(profile).interests, JsTrim(old(customInterest))))
                && customInterest == ""
      ensures old(Valid()) ==> Valid()
    {
      JsBlankIff(customInterest);
      var trimmed := JsTrim(customInterest);
      if trimmed == [] {
        return;
      }
      ToggleInterest(trimmed);
      customInterest := "";
    }

    /** `onCityChange(value)` on the wizard's profile. */
    method OnCityChange(value: string)
      modifies this`profile
      ensures profile == old(profile).(location := CityChanged(old(profile).location, CITY_OPTIONS, value))
      ensures old(Valid()) ==> Valid()
    {
      profile := profile.(location := CityChanged(profile.location, CITY_OPTIONS, value));
    }

    /** `onCountryChange`: only the country changes. */
    method OnCountryChange(value: string)
      modifies this`profile
      ensures profile == old(profile).(location := old(profile).location.(country := value))
      ensures old(Valid()) ==> Valid()
    {
      profile := profile.(location := profile.location.(country := value));
    }

    /** `onTitleChange`: only the job title changes. */
    method OnTitleChange(value: string)
      modifies this`profile
      ensures profile == old(profile).(job := old(profile).job.(title := value))
      ensures old(Valid()) ==> Valid()
    {
      profile := profile.(job := profile.job.(title := value));
    }

    /** `onCompanyChange`: only the company name changes. */
    method OnCompanyChange(value: string)
      modifies this`profile
      ensures profile == old(profile).(job := old(profile).job.(companiesName := value))
      ensures old(Valid()) ==> Valid()
    {
      profile := profile.(job := profile.job.(companiesName := value));
    }

    /** `onCompanyIdChange`: only the company id changes. */
    method OnCompanyIdChange(value: string)
      modifies this`profile
      ensures profile == old(profile).(job := old(profile).job.(companyId := Some(value)))
      ensures old(Valid()) ==> Valid()
    {
      profile := profile.(job := profile.job.(companyId := Some(value)));
    }

    /** "Use stock image" (`resetToDefault`): the photo becomes the stock
        default avatar, which keeps the photo complete. */
    method ResetToDefault()
      modifies this`profile
      ensures profile == old(profile).(profilePhoto := ClientPhoto(Some("stock"), Some("default"), Some(DEFAULT_AVATAR)))
      ensures old(Valid()) ==> Valid()
    {
      profile := profile.(profilePhoto := ClientPhoto(Some("stock"), Some("default"), Some(DEFAULT_AVATAR)));
    }
  }

  /** `CITY_OPTIONS`. */
  const CITY_OPTIONS := [
    ClientLocation("Nashville", "TN", "US", None, None),
    ClientLocation("Atlanta", "GA", "US", None, None),
    ClientLocation("Chicago", "IL", "US", None, None),
    ClientLocation("New York", "NY", "US", None, None),
    ClientLocation("San Francisco", "CA", "US", None, None),
    ClientLocation("Austin", "TX", "US", None, None),
    ClientLocation("Boston", "MA", "US", None, None),
    ClientLocation("Seattle", "WA", "US", None, None),
    ClientLocation("Miami", "FL", "US", None, None),
    ClientLocation("Los Angeles", "CA", "US", None, None)]
}
