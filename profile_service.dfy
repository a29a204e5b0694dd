/** `ProfileService.java`: loading a user with defaults, sanitising a submitted
    profile, the onboarding step and completion rules, and the profile
    response with its counters. */
module ProfileService {
  import opened Wrappers
  import opened Text
  import opened UserModel
  import opened PostModel
  import opened Repositories

  const DEFAULT_ONBOARDING_STEP := 1
  const MAX_ONBOARDING_STEP := 4
  const NULL_REQUEST := "Profile update request cannot be null"

  function UserNotFound(userId: UserId): string {
    "User not found for userId: " + NatToString(userId)
  }

  /** The body of `PUT /profile`: each part may be null. */
  datatype ProfileUpdateRequest = ProfileUpdateRequest(profile: Option<Profile>, step: Option<int>, completed: Option<bool>)

  datatype OnboardingData = OnboardingData(completed: bool, step: int, completedAt: Option<int>)

  datatype ProfileResponse = ProfileResponse(
    userId: UserId,
    firstName: string,
    lastName: string,
    connectionsCount: int,
    requestsCount: int,
    postsCount: int,
    posts: seq<Post>,
    profile: Profile,
    onboarding: OnboardingData)

  /** Which of the two counting queries throw (each failure is logged and read as 0). */
  datatype QueryFaults = QueryFaults(connectionsFail: bool, requestsFail: bool)

  /** `max(1, min(step, 4))`. */
  function ClampStep(step: int): (s: int)
    ensures DEFAULT_ONBOARDING_STEP <= s <= MAX_ONBOARDING_STEP
    ensures DEFAULT_ONBOARDING_STEP <= step <= MAX_ONBOARDING_STEP ==> s == step
    ensures step < DEFAULT_ONBOARDING_STEP ==> s == DEFAULT_ONBOARDING_STEP
    ensures step > MAX_ONBOARDING_STEP ==> s == MAX_ONBOARDING_STEP
  {
    var capped := if step < MAX_ONBOARDING_STEP then step else MAX_ONBOARDING_STEP;
    if capped < DEFAULT_ONBOARDING_STEP then DEFAULT_ONBOARDING_STEP else capped
  }

  /** A profile with every sub-object present and no negative counter. */
  predicate Sanitized(p: Profile) {
    && p.location.Some? && p.job.Some? && p.profilePhoto.Some? && p.interests.Some?
    && p.numConnections >= 0 && p.numRequests >= 0
  }

  /** `sanitizeProfile`: missing parts take their empty defaults, negative
      counters become 0, and everything present is kept. */
  function SanitizeProfile(profile: Option<Profile>): (s: Profile)
    ensures Sanitized(s)
    ensures profile.None? ==> s == NEW_PROFILE
    ensures profile.Some? && Sanitized(profile.value) ==> s == profile.value
    ensures profile.Some? ==>
              var p := profile.value;
              && s.gender == p.gender && s.age == p.age
              && (p.location.Some? ==> s.location == p.location)
              && (p.location.None? ==> s.location == Some(EMPTY_LOCATION))
              && (p.job.Some? ==> s.job == p.job)
              && (p.job.None? ==> s.job == Some(EMPTY_JOB))
              && (p.profilePhoto.Some? ==> s.profilePhoto == p.profilePhoto)
              && (p.profilePhoto.None? ==> s.profilePhoto == Some(EMPTY_PHOTO))
              && (p.interests.Some? ==> s.interests == p.interests)
              && (p.interests.None? ==> s.interests == Some([]))
              && s.numConnections == (if p.numConnections < 0 then 0 else p.numConnections)
              && s.numRequests == (if p.numRequests < 0 then 0 else p.numRequests)
  {
    var p := profile.GetOr(NEW_PROFILE);
    p.(location := Some(p.location.GetOr(EMPTY_LOCATION)),
       job := Some(p.job.GetOr(EMPTY_JOB)),
       profilePhoto := Some(p.profilePhoto.GetOr(EMPTY_PHOTO)),
       interests := Some(p.interests.GetOr([])),
       numConnections := if p.numConnections < 0 then 0 else p.numConnections,
       numRequests := if p.numRequests < 0 then 0 else p.numRequests)
  }

  /** Sanitising twice is sanitising once. */
  lemma SanitizeIdempotent(profile: Option<Profile>)
    ensures SanitizeProfile(Some(SanitizeProfile(profile))) == SanitizeProfile(profile)
  {
  }

  /** The onboarding `findUserOrThrow` leaves on a loaded user: a new one
      (not completed, step 1) when there is none, and step 1 when the step is null. */
  function DefaultOnboarding(ob: Option<Onboarding>): (r: Onboarding)
    ensures r.step.Some?
    ensures ob.None? ==> r == NEW_ONBOARDING
    ensures ob.Some? ==> r.completed == ob.value.completed && r.completedAt == ob.value.completedAt
    ensures ob.Some? && ob.value.step.Some? ==> r.step == ob.value.step
    ensures ob.Some? && ob.value.step.None? ==> r.step == Some(DEFAULT_ONBOARDING_STEP)
    ensures StepInRange(ob) ==> StepInRange(Some(r))
  {
    if ob.None? then Onboarding(false, Some(DEFAULT_ONBOARDING_STEP), None)
    else if ob.value.step.None? then ob.value.(step := Some(DEFAULT_ONBOARDING_STEP))
    else ob.value
  }

  /** The user `findUserOrThrow` returns for the stored document `d`. */
  function Defaulted(d: UserDoc): (r: UserDoc)
    ensures r.profile.Some? && r.onboarding.Some? && r.onboarding.value.step.Some?
    ensures d.profile.Some? ==> r.profile == d.profile
    ensures d.profile.None? ==> r.profile == Some(NEW_PROFILE)
    ensures r.onboarding == Some(DefaultOnboarding(d.onboarding))
    ensures r == d.(profile := r.profile, onboarding := r.onboarding)
    ensures StepInRange(d.onboarding) ==> StepInRange(r.onboarding)
  {
    d.(profile := Some(d.profile.GetOr(NEW_PROFILE)), onboarding := Some(DefaultOnboarding(d.onboarding)))
  }

  /** The onboarding after `applyOnboardingUpdates(step, completed)` at time
      `now`: a given step is clamped into 1..4; `completed = true` marks the
      onboarding completed and stamps `completedAt` only if it has no stamp yet;
      `completed = false` clears the stamp; a null part changes nothing. */
  function OnboardingAfter(ob: Onboarding, step: Option<int>, completed: Option<bool>, now: int): (r: Onboarding)
    ensures step.Some? ==> r.step == Some(ClampStep(step.value))
    ensures step.None? ==> r.step == ob.step
    ensures completed.None? ==> r.completed == ob.completed && r.completedAt == ob.completedAt
    ensures completed == Some(true) ==> r.completed
    ensures completed == Some(true) && ob.completedAt.Some? ==> r.completedAt == ob.completedAt
    ensures completed == Some(true) && ob.completedAt.None? ==> r.completedAt == Some(now)
    ensures completed == Some(false) ==> !r.completed && r.completedAt.None?
  {
    var stepped := if step.Some? then ob.(step := Some(ClampStep(step.value))) else ob;
    if completed.None? then stepped
    else if completed.value then
      stepped.(completed := true, completedAt := if ob.completedAt.Some? then ob.completedAt else Some(now))
    else stepped.(completed := false, completedAt := None)
  }

  /** `applyOnboardingUpdates(user, step, completed)`. */
  method ApplyOnboardingUpdates(user: User, step: Option<int>, completed: Option<bool>, now: int)
    modifies user`onboarding
    ensures user.onboarding == Some(OnboardingAfter(old(user.onboarding).GetOr(NEW_ONBOARDING), step, completed, now))
  {
    var onboarding := if user.onboarding.Some? then user.onboarding.value
                      else Onboarding(false, Some(DEFAULT_ONBOARDING_STEP), None);
    if step.Some? {
      onboarding := onboarding.(step := Some(ClampStep(step.value)));
    }
    if completed.Some? {
      onboarding := onboarding.(completed := completed.value);
      if completed.value {
        if onboarding.completedAt.None? {
          onboarding := onboarding.(completedAt := Some(now));
        }
      } else {
        onboarding := onboarding.(completedAt := None);
      }
    }
    user.onboarding := Some(onboarding);
  }

  /** One call of `applyOnboardingUpdates`, with the time it happened. */
  datatype OnboardingUpdate = OnboardingUpdate(step: Option<int>, completed: Option<bool>, at: int)

  /** The onboarding after a series of updates, earliest first. */
  function Replay(ob: Onboarding, us: seq<OnboardingUpdate>): Onboarding
    decreases |us|
  {
    if us == [] then ob
    else
      var u := us[|us| - 1];
      OnboardingAfter(Replay(ob, us[..|us| - 1]), u.step, u.completed, u.at)
  }

  /** Repeating an update, at any later time, changes nothing. */
  lemma OnboardingUpdateIdempotent(ob: Onboarding, step: Option<int>, completed: Option<bool>, t1: int, t2: int)
    ensures var once := OnboardingAfter(ob, step, completed, t1);
            OnboardingAfter(once, step, completed, t2) == once
  {
  }

  /** A stored step within 1..4 stays within 1..4 through any series of updates. */
  lemma {:induction false} ReplayKeepsStepInRange(ob: Onboarding, us: seq<OnboardingUpdate>)
    requires StepInRange(Some(ob))
    ensures StepInRange(Some(Replay(ob, us)))
    decreases |us|
  {
    if us != [] {
      ReplayKeepsStepInRange(ob, us[..|us| - 1]);
    }
  }

  /** "Completed" and "has a completion time" agree, and keep agreeing. */
  predicate CompletionConsistent(ob: Onboarding) {
    ob.completed <==> ob.completedAt.Some?
  }

  lemma {:induction false} ReplayKeepsCompletionConsistent(ob: Onboarding, us: seq<OnboardingUpdate>)
    requires CompletionConsistent(ob)
    ensures CompletionConsistent(Replay(ob, us))
    decreases |us|
  {
    if us != [] {
      ReplayKeepsCompletionConsistent(ob, us[..|us| - 1]);
    }
  }

  /** Once completed, the completion time is the first one for as long as no
      update sends `completed = false`. */
  lemma {:induction false} ReplayKeepsFirstCompletion(ob: Onboarding, us: seq<OnboardingUpdate>)
    requires ob.completedAt.Some?
    requires forall i :: 0 <= i < |us| ==> us[i].completed != Some(false)
    ensures Replay(ob, us).completedAt == ob.completedAt
    decreases |us|
  {
    if us != [] {
      ReplayKeepsFirstCompletion(ob, us[..|us| - 1]);
    }
  }

  /** `findUserOrThrow(userId)`: the loaded user with its defaults applied in
      memory (they are saved only if the caller saves the user). */
  method FindUserOrThrow(db: Store, userId: UserId) returns (r: Result<User, string>)
    requires db.Valid()
    ensures r.Err? <==> db.FindUserById(userId).None?
    ensures r.Err? ==> r.error == UserNotFound(userId)
    ensures r.Ok? ==> fresh(r.value) && r.value.id == Some(userId) && r.value.Doc() == Defaulted(db.users[userId])
  {
    var userOpt := db.FindUserById(userId);
    if userOpt.None? {
      return Err(UserNotFound(userId));
    }
    var user := new User.Load(userOpt.value);
    if user.profile.None? {
      user.profile := Some(NEW_PROFILE);
    }
    if user.onboarding.None? {
      user.onboarding := Some(Onboarding(false, Some(DEFAULT_ONBOARDING_STEP), None));
    } else if user.onboarding.value.step.None? {
      user.onboarding := Some(user.onboarding.value.(step := Some(DEFAULT_ONBOARDING_STEP)));
    }
    r := Ok(user);
  }

  /** `getConnectionsCount`: 0 when the query fails. */
  function ConnectionsCount(conns: seq<Connection>, userId: UserId, faults: QueryFaults): (n: int)
    ensures n >= 0
    ensures faults.connectionsFail ==> n == 0
    ensures !faults.connectionsFail ==> n == CountConnectionsForUser(conns, userId)
  {
    if faults.connectionsFail then 0 else CountConnectionsForUser(conns, userId)
  }

  /** `getPendingRequestsCount`: the PENDING requests addressed to the user, 0 when the query fails. */
  function RequestsCount(reqs: seq<ConnectionRequest>, userId: UserId, faults: QueryFaults): (n: int)
    ensures n >= 0
    ensures faults.requestsFail ==> n == 0
    ensures !faults.requestsFail ==> n == |FindByToUserIdAndStatus(reqs, userId, RequestStatus.Pending)|
  {
    if faults.requestsFail then 0 else CountByToUserIdAndStatus(reqs, userId, RequestStatus.Pending)
  }

  /** `buildProfileResponse`: the profile (a new one if null), the counters as
      given, `postsCount` the length of the posts list (empty if null) and the
      onboarding with its step defaulting to 1. */
  function BuildProfileResponse(user: UserDoc, connectionsCount: int, requestsCount: int, posts: Option<seq<Post>>)
    : (r: ProfileResponse)
    ensures r.userId == user.id && r.firstName == user.firstName && r.lastName == user.lastName
    ensures r.connectionsCount == connectionsCount && r.requestsCount == requestsCount
    ensures r.postsCount == |r.posts|
    ensures posts.Some? ==> r.posts == posts.value
    ensures posts.None? ==> r.posts == []
    ensures user.profile.Some? ==> r.profile == user.profile.value
    ensures user.profile.None? ==> r.profile == NEW_PROFILE
    ensures user.onboarding.None? ==> r.onboarding == OnboardingData(false, DEFAULT_ONBOARDING_STEP, None)
    ensures user.onboarding.Some? ==>
              && r.onboarding.completed == user.onboarding.value.completed
              && r.onboarding.completedAt == user.onboarding.value.completedAt
              && r.onboarding.step == user.onboarding.value.step.GetOr(DEFAULT_ONBOARDING_STEP)
    ensures StepInRange(user.onboarding) ==> 1 <= r.onboarding.step <= 4
  {
    var ob := user.onboarding.GetOr(Onboarding(false, Some(DEFAULT_ONBOARDING_STEP), None));
    var postList := posts.GetOr([]);
    ProfileResponse(user.id, user.firstName, user.lastName, connectionsCount, requestsCount, |postList|, postList,
                    user.profile.GetOr(NEW_PROFILE),
                    OnboardingData(ob.completed, ob.step.GetOr(DEFAULT_ONBOARDING_STEP), ob.completedAt))
  }

  /** The response both endpoints return for the (defaulted) user `user`;
      `storedPosts` is what the posts query returns, `None` when it throws. */
  function ResponseFor(db: Store, user: UserDoc, faults: QueryFaults, storedPosts: Option<seq<Post>>): ProfileResponse
    reads db
  {
    BuildProfileResponse(user, ConnectionsCount(db.connections, user.id, faults),
                         RequestsCount(db.requests, user.id, faults), Some(storedPosts.GetOr([])))
  }

  /** The three queries and the response `getProfile` and `updateProfile`
      build for a loaded user. */
  method Respond(db: Store, user: User, faults: QueryFaults, storedPosts: Option<seq<Post>>)
    returns (response: ProfileResponse)
    requires user.id.Some?
    ensures response == ResponseFor(db, user.Doc(), faults, storedPosts)
  {
    var d := user.Doc();
    var connectionsCount := ConnectionsCount(db.connections, d.id, faults);
    var requestsCount := RequestsCount(db.requests, d.id, faults);
    var posts := storedPosts.GetOr([]);
    response := BuildProfileResponse(d, connectionsCount, requestsCount, Some(posts));
  }

  /** `getProfile(userId)`: reads only; the defaults are not saved. */
  method GetProfile(db: Store, userId: UserId, faults: QueryFaults, storedPosts: Option<seq<Post>>)
    returns (r: Result<ProfileResponse, string>)
    requires db.Valid()
    ensures r.Err? <==> db.FindUserById(userId).None?
    ensures r.Err? ==> r.error == UserNotFound(userId)
    ensures r.Ok? ==> r.value == ResponseFor(db, Defaulted(db.users[userId]), faults, storedPosts)
    ensures r.Ok? ==> r.value.userId == userId && r.value.postsCount == |storedPosts.GetOr([])|
    ensures r.Ok? && db.StepsInRange() ==> 1 <= r.value.onboarding.step <= 4
  {
    var found := FindUserOrThrow(db, userId);
    if found.Err? {
      return Err(found.error);
    }
    var user := found.value;
    var response := Respond(db, user, faults, storedPosts);
    r := Ok(response);
  }

  /** The stored document after a successful `updateProfile(req)` at time
      `now`: defaults applied, the profile replaced by the sanitised one when
      one is sent (kept otherwise), the onboarding updated and `updatedAt` set. */
  function UpdatedDoc(d: UserDoc, req: ProfileUpdateRequest, now: int): (r: UserDoc)
    ensures r.id == d.id && r.email == d.email && r.password == d.password
    ensures r.firstName == d.firstName && r.lastName == d.lastName && r.createdAt == d.createdAt
    ensures r.updatedAt == now
    ensures req.profile.None? ==> r.profile == Defaulted(d).profile
    ensures req.profile.Some? ==> r.profile == Some(SanitizeProfile(req.profile)) && Sanitized(r.profile.value)
    ensures r.onboarding == Some(OnboardingAfter(DefaultOnboarding(d.onboarding), req.step, req.completed, now))
    ensures StepInRange(d.onboarding) || req.step.Some? ==> StepInRange(r.onboarding)
  {
    var loaded := Defaulted(d);
    var profile := if req.profile.Some? then Some(SanitizeProfile(req.profile)) else loaded.profile;
    loaded.(profile := profile,
            onboarding := Some(OnboardingAfter(loaded.onboarding.value, req.step, req.completed, now)),
            updatedAt := now)
  }

  /** Replacing one stored document by its update keeps every stored step in 1..4. */
  lemma UpdateKeepsStepsInRange(users: seq<UserDoc>, userId: UserId, req: ProfileUpdateRequest, now: int)
    requires userId < |users|
    requires forall i :: 0 <= i < |users| ==> StepInRange(users[i].onboarding)
    ensures var after := users[userId := UpdatedDoc(users[userId], req, now)];
            forall i :: 0 <= i < |after| ==> StepInRange(after[i].onboarding)
  {
  }

  /** The in-place edits `updateProfile` makes to the loaded user before saving it. */
  method ApplyUpdate(user: User, req: ProfileUpdateRequest, now: int)
    modifies user`profile, user`onboarding, user`updatedAt
    ensures req.profile.Some? ==> user.profile == Some(SanitizeProfile(req.profile))
    ensures req.profile.None? ==> user.profile == old(user.profile)
    ensures user.onboarding == Some(OnboardingAfter(old(user.onboarding).GetOr(NEW_ONBOARDING), req.step, req.completed, now))
    ensures user.updatedAt == now
  {
    if req.profile.Some? {
      user.profile := Some(SanitizeProfile(req.profile));
    }
    ApplyOnboardingUpdates(user, req.step, req.completed, now);
    user.updatedAt := now;
  }

  /** `updateProfile(userId, req)`. */
  method UpdateProfile(db: Store, userId: UserId, req: Option<ProfileUpdateRequest>, faults: QueryFaults,
                       storedPosts: Option<seq<Post>>, now: int)
    returns (r: Result<ProfileResponse, string>)
    requires db.Valid()
    modifies db`users
    ensures db.Valid()
    ensures req.None? ==> r == Err(NULL_REQUEST)
    ensures req.Some? && old(db.FindUserById(userId)).None? ==> r == Err(UserNotFound(userId))
    ensures r.Err? ==> db.users == old(db.users)
    ensures r.Ok? <==> req.Some? && userId < |old(db.users)|
    ensures r.Ok? ==>
              && db.users == old(db.users)[userId := UpdatedDoc(old(db.users[userId]), req.value, now)]
              && r.value == ResponseFor(db, db.users[userId], faults, storedPosts)
    ensures old(db.StepsInRange()) ==> db.StepsInRange()
    ensures r.Ok? && (old(db.StepsInRange()) || req.value.step.Some?) ==> 1 <= r.value.onboarding.step <= 4
  {
    if req.None? {
      return Err(NULL_REQUEST);
    }
    var found := FindUserOrThrow(db, userId);
    if found.Err? {
      return Err(found.error);
    }
    var user := found.value;
    ApplyUpdate(user, req.value, now);
    assert user.Doc() == UpdatedDoc(db.users[userId], req.value, now);
    ghost var before := db.users;
    db.UpdateUser(user);
    if old(db.StepsInRange()) {
      UpdateKeepsStepsInRange(before, userId, req.value, now);
    }
    var response := Respond(db, user, faults, storedPosts);
    r := Ok(response);
  }
}
