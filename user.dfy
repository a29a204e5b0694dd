/** The user document of the backend (`User.java`) with its embedded profile
    (`Profile.java`) and onboarding progress. Java `null` is `None`. */
module UserModel {
  import opened Wrappers

  /** Database identifiers. The store hands them out in order (see Repositories). */
  type UserId = nat

  datatype Gender = Male | Female | NonBinary | Other | PreferNotToSay

  /** A latitude or longitude (a Java `Double`), carried along but never inspected. */
  datatype Coordinate = Coordinate(bits: int)

  datatype Location = Location(city: Option<string>, state: Option<string>, country: Option<string>,
                               latitude: Option<Coordinate>, longitude: Option<Coordinate>)

  datatype Job = Job(title: Option<string>, companiesName: Option<string>, companyId: Option<string>)

  datatype Photo = Photo(storage: Option<string>, key: Option<string>, url: Option<string>)

  datatype Profile = Profile(
    gender: Option<Gender>,
    age: Option<int>,
    location: Option<Location>,
    job: Option<Job>,
    interests: Option<seq<string>>,
    profilePhoto: Option<Photo>,
    numConnections: int,
    numRequests: int)

  const EMPTY_LOCATION := Location(None, None, None, None, None)
  const EMPTY_JOB := Job(None, None, None)
  const EMPTY_PHOTO := Photo(None, None, None)

  /** `new Profile()`: the builder defaults give empty sub-objects, an empty
      interest list and zero counters. */
  const NEW_PROFILE := Profile(None, None, Some(EMPTY_LOCATION), Some(EMPTY_JOB), Some([]), Some(EMPTY_PHOTO), 0, 0)

  /** Onboarding progress; `step` is a nullable `Integer`, `completedAt` a nullable time stamp. */
  datatype Onboarding = Onboarding(completed: bool, step: Option<int>, completedAt: Option<int>)

  /** `new Onboarding(false, 1, null)`. */
  const NEW_ONBOARDING := Onboarding(false, Some(1), None)

  /** A user as the users collection stores it. */
  datatype UserDoc = UserDoc(
    id: UserId,
    email: string,
    password: string,
    firstName: string,
    lastName: string,
    createdAt: int,
    updatedAt: int,
    profile: Option<Profile>,
    onboarding: Option<Onboarding>)

  /** The mutable `User` entity: services load it, change it through its
      setters and save it back. */
  class User {
    var id: Option<UserId>
    var email: string
    var password: string
    var firstName: string
    var lastName: string
    var createdAt: int
    var updatedAt: int
    var profile: Option<Profile>
    var onboarding: Option<Onboarding>

    /** The constructor for new users: no id yet, both time stamps `now`, a
        fresh empty profile and onboarding at step 1, not completed. */
    constructor (email: string, password: string, firstName: string, lastName: string, now: int)
      ensures id == None
      ensures this.email == email && this.password == password
      ensures this.firstName == firstName && this.lastName == lastName
      ensures createdAt == now && updatedAt == now
      ensures profile == Some(NEW_PROFILE) && onboarding == Some(NEW_ONBOARDING)
    {
      id := None;
      this.email := email;
      this.password := password;
      this.firstName := firstName;
      this.lastName := lastName;
      createdAt := now;
      updatedAt := now;
      profile := Some(NEW_PROFILE);
      onboarding := Some(NEW_ONBOARDING);
    }

    /** A user read back from the database. */
    constructor Load(d: UserDoc)
      ensures id == Some(d.id) && Doc() == d
    {
      id := Some(d.id);
      email := d.email;
      password := d.password;
      firstName := d.firstName;
      lastName := d.lastName;
      createdAt := d.createdAt;
      updatedAt := d.updatedAt;
      profile := d.profile;
      onboarding := d.onboarding;
    }

    /** The document that saving this user writes. */
    function Doc(): UserDoc
      reads this
      requires id.Some?
    {
      UserDoc(id.value, email, password, firstName, lastName, createdAt, updatedAt, profile, onboarding)
    }

    /** `getInterests`: the profile's list, or an empty list when the profile
        or its list is null. */
    function GetInterests(): (r: seq<string>)
      reads this
      ensures profile.Some? && profile.value.interests.Some? ==> r == profile.value.interests.value
      ensures profile.None? || profile.value.interests.None? ==> r == []
    {
      if profile.Some? && profile.value.interests.Some? then profile.value.interests.value else []
    }

    /** `getNumConnections`: 0 without a profile. */
    function GetNumConnections(): (r: int)
      reads this
      ensures profile.None? ==> r == 0
      ensures profile.Some? ==> r == profile.value.numConnections
    {
      if profile.Some? then profile.value.numConnections else 0
    }

    /** `getNumRequests`: 0 without a profile. */
    function GetNumRequests(): (r: int)
      reads this
      ensures profile.None? ==> r == 0
      ensures profile.Some? ==> r == profile.value.numRequests
    {
      if profile.Some? then profile.value.numRequests else 0
    }

    /** `ensureProfile`: creates an empty profile only when there is none, so an
        existing profile is never replaced and a second call changes nothing. */
    method EnsureProfile() returns (p: Profile)
      modifies this`profile
      ensures old(profile).Some? ==> profile == old(profile)
      ensures old(profile).None? ==> profile == Some(NEW_PROFILE)
      ensures profile == Some(p)
    {
      if profile.None? {
        profile := Some(NEW_PROFILE);
      }
      p := profile.value;
    }

    /** `setNumConnections`: writes through to the (possibly new) profile and
        leaves its other fields as they were. */
    method SetNumConnections(n: int)
      modifies this`profile
      ensures GetNumConnections() == n
      ensures old(profile).Some? ==> profile == Some(old(profile).value.(numConnections := n))
      ensures old(profile).None? ==> profile == Some(NEW_PROFILE.(numConnections := n))
    {
      var p := EnsureProfile();
      profile := Some(p.(numConnections := n));
    }

    /** `setNumRequests`: writes through to the (possibly new) profile and
        leaves its other fields as they were. */
    method SetNumRequests(n: int)
      modifies this`profile
      ensures GetNumRequests() == n
      ensures old(profile).Some? ==> profile == Some(old(profile).value.(numRequests := n))
      ensures old(profile).None? ==> profile == Some(NEW_PROFILE.(numRequests := n))
    {
      var p := EnsureProfile();
      profile := Some(p.(numRequests := n));
    }
  }
}
