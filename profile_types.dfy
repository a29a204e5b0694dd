/** `types/profile.ts`: the profile shapes the client works with, and how it
    reads the backend's profile response. */
module ClientProfiles {
  import opened Wrappers
  import opened UserModel
  import ProfileService

  datatype ClientLocation = ClientLocation(city: string, state: string, country: string,
                                           latitude: Option<Coordinate>, longitude: Option<Coordinate>)

  datatype ClientJob = ClientJob(title: string, companiesName: string, companyId: Option<string>)

  datatype ClientPhoto = ClientPhoto(storage: Option<string>, key: Option<string>, url: Option<string>)

  /** The client's `Profile`: every part present. */
  datatype ClientProfile = ClientProfile(
    gender: Option<Gender>,
    age: Option<int>,
    location: ClientLocation,
    job: ClientJob,
    interests: seq<string>,
    profilePhoto: ClientPhoto,
    numConnections: int,
    numRequests: int)

  /** The body of a profile update (`ProfileUpdatePayload`). */
  datatype ProfileUpdatePayload = ProfileUpdatePayload(profile: ClientProfile, step: Option<int>, completed: Option<bool>)

  /** The backend's reading of a client profile: every part present. This
      and `ReplyOf` state the JSON correspondence the model assumes between
      the TypeScript shapes and the Java records. */
  function ToWire(c: ClientProfile): Profile {
    Profile(c.gender, c.age,
            Some(Location(Some(c.location.city), Some(c.location.state), Some(c.location.country),
                          c.location.latitude, c.location.longitude)),
            Some(Job(Some(c.job.title), Some(c.job.companiesName), c.job.companyId)),
            Some(c.interests),
            Some(Photo(c.profilePhoto.storage, c.profilePhoto.key, c.profilePhoto.url)),
            c.numConnections, c.numRequests)
  }

  /** The backend's reading of an update body. */
  function RequestOf(payload: ProfileUpdatePayload): ProfileService.ProfileUpdateRequest {
    ProfileService.ProfileUpdateRequest(Some(ToWire(payload.profile)), payload.step, payload.completed)
  }

  /** The parts of the onboarding answer the client reads; the step may be missing. */
  datatype ClientOnboarding = ClientOnboarding(completed: bool, step: Option<int>)

  /** A profile response as received: the profile is the backend's JSON
      (nullable parts included) and the onboarding block may be missing. */
  datatype ProfileReply = ProfileReply(profile: Option<Profile>, onboarding: Option<ClientOnboarding>)

  /** What the client receives for a backend `ProfileResponse`. */
  function ReplyOf(r: ProfileService.ProfileResponse): ProfileReply {
    ProfileReply(Some(r.profile), Some(ClientOnboarding(r.onboarding.completed, Some(r.onboarding.step))))
  }

  /** `response.onboarding?.completed`. */
  predicate ReportsCompleted(reply: ProfileReply) {
    reply.onboarding.Some? && reply.onboarding.value.completed
  }

  /** `response.onboarding?.step`. */
  function ReportedStep(reply: ProfileReply): Option<int> {
    if reply.onboarding.Some? then reply.onboarding.value.step else None
  }
}
