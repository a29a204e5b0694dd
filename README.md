# PlusOne: a verified model of connections, profiles, sign-up and onboarding

PlusOne is a social app for Vanderbilt users. It has a Spring Boot backend over MongoDB and a React client. This project models its core in Dafny.

On the backend it covers:
- **Sign-up and log-in.** Only `@vanderbilt.edu` addresses may sign up. Passwords are hashed. The lookup address is lower-cased and trimmed.
- **The connection-request lifecycle.** A request starts PENDING and becomes ACCEPTED or REJECTED. Accepting it stores a connection. There are also the status, pending-request and recent-user queries.
- **The profile service.** It applies defaults to a loaded user and sanitises a submitted profile. It clamps the onboarding step into 1..4 and tracks when onboarding was completed. It builds the profile response with its counters.

On the client it covers:
- the e-mail check and the HTTP error handling of the auth service;
- the sign-up and log-in pages;
- the four-step onboarding wizard;
- the connect popup;
- the profile card with its connect button and interest badges;
- post deletion and the "time ago" label on the user's own page.

The backend's three repositories become one `Repositories.Store` class. It holds the users, the connection requests and the connections as sequences. Nothing is ever deleted, so a document's id is its index in the store. The services are modules of methods that take the store. The mutable `User` entity and each React component are classes whose fields are the component's state. Java `null` and optional TypeScript fields are `Option`s.

Several inputs come from outside. Each is a parameter of the method that needs it:
- the clock, as `now`;
- failures of database queries (`QueryFaults`, `saveFailure`);
- the password encoder, as a pair of functions;
- how an HTTP call settled (`HttpOutcome`, `SendOutcome`, a `Result` reply);
- the user's answer to a confirmation dialog.

The store can hold several documents that match `findByFromUserIdAndToUserId` or `findByEmail`. Spring Data throws when a single-result query finds more than one. The model abstracts from that: it lets either query choose any one of the matches (see "## Left out" for what this loses).

The client's TypeScript shapes in `types/profile.ts` and the Java records travel as JSON. The model assumes they correspond field by field: `ClientProfiles.ToWire` is how the backend reads a client profile, and `ClientProfiles.ReplyOf` is what the client receives for a profile response. The properties that depend on this are stated across the boundary (`OnboardingPage.SavedProfileReadsBack`, `OnboardingPage.ServerStepKeepsWizardInRange`, `OnboardingPage.BackendSaveKeepsStepInRange`).

String lengths are counted as Java's `length()` and JavaScript's `.length` count them, in UTF-16 code units (`Text.Utf16Length`). A character outside the Basic Multilingual Plane counts twice.

Two kinds of trimming are kept apart:
- Java's `String.trim` removes code points up to U+0020 (`Text.IsJavaSpace`).
- JavaScript's `trim` removes the ECMAScript white-space and line-terminator set (`Text.IsJsSpace`).

Lower- and upper-casing are modelled on ASCII letters.

## Behaviour of the code worth noting

- **The duplicate e-mail check uses the raw address.** `signup` checks `existsByEmail` on the address exactly as sent, but stores it lower-cased and trimmed. An address that differs from a stored one only by case or surrounding space therefore passes the check (`AuthService.DuplicateCheckMissesPaddedAddress`).
- **The connection lookup is directional.** `findConnectionBetweenUsers(a, b)` passes `(a, b, a, b)`, so both alternatives of the query look for a -> b. A connection stored as b -> a is not found (`Repositories.ConnectionLookupIsDirectional`, `Repositories.ConnectionLookupIsNotSymmetric`).
- **The client and the server disagree on a trailing no-break space.** The client's domain check trims it; the server's does not (`AuthClient.TrailingNoBreakSpaceSplitsChecks`).
- **Toggling an interest twice can reorder the list.** Toggling a present interest removes it, and toggling it again appends it at the end (`OnboardingPage.ToggleTwiceCanReorder`).
- **`persistProfile` only caps the step from above.** It caps the reported step at 4 but does not raise it to 1 (`OnboardingPage.StepAfterSaveHasNoLowerBound`). The backend never reports a step below 1 (`OnboardingPage.BackendSaveKeepsStepInRange`).

## Model

| member | source | states |
|---|---|---|
| UserModel.User.constructor | PlusOneBackend/src/main/java/com/plusone/PlusOneBackend/model/User.java:55-64 | A new user has no id, the given e-mail, password and names, both time stamps equal to now, an empty profile and onboarding at step 1, not completed |
| UserModel.User.GetInterests | PlusOneBackend/src/main/java/com/plusone/PlusOneBackend/model/User.java:69-73 | The profile's interest list, or the empty list when the profile or the list is null |
| UserModel.User.GetNumConnections | PlusOneBackend/src/main/java/com/plusone/PlusOneBackend/model/User.java:84-86 | The profile's connection counter, 0 without a profile |
| UserModel.User.GetNumRequests | PlusOneBackend/src/main/java/com/plusone/PlusOneBackend/model/User.java:92-94 | The profile's request counter, 0 without a profile |
| UserModel.User.EnsureProfile | PlusOneBackend/src/main/java/com/plusone/PlusOneBackend/model/User.java:100-105 | Creates an empty profile only when there is none; an existing profile is kept |
| UserModel.User.SetNumConnections | PlusOneBackend/src/main/java/com/plusone/PlusOneBackend/model/User.java:88-90 | Afterwards the getter reads n; the other profile fields are unchanged, and a missing profile is created first |
| UserModel.User.SetNumRequests | PlusOneBackend/src/main/java/com/plusone/PlusOneBackend/model/User.java:96-98 | Afterwards the getter reads n; the other profile fields are unchanged, and a missing profile is created first |
| Repositories.ConnectionLookupIsDirectional | PlusOneBackend/src/main/java/com/plusone/PlusOneBackend/repository/ConnectionRepository.java:18-24 | The lookup finds a connection exactly when one is stored as a -> b |
| Repositories.ConnectionLookupIsNotSymmetric | PlusOneBackend/src/main/java/com/plusone/PlusOneBackend/repository/ConnectionRepository.java:22-24 | A connection stored as 1 -> 2 is found for (1, 2) and not for (2, 1) |
| Repositories.FindConnectionBetweenUsers | PlusOneBackend/src/main/java/com/plusone/PlusOneBackend/repository/ConnectionRepository.java:18-24 | A found connection counts for both users in countConnectionsForUser; it is found exactly when stored as a -> b (ConnectionLookupIsDirectional) |
| Repositories.CountAfterConnect | PlusOneBackend/src/main/java/com/plusone/PlusOneBackend/repository/ConnectionRepository.java:27-28 | A new connection raises the count of both of its users by one and nobody else's |
| Repositories.CountConnectionsForUser | PlusOneBackend/src/main/java/com/plusone/PlusOneBackend/repository/ConnectionRepository.java:27-28 | At most the number of connections, and 0 exactly when no connection has the user on either side |
| Repositories.FindByToUserIdAndStatus | PlusOneBackend/src/main/java/com/plusone/PlusOneBackend/repository/ConnectionRequestRepository.java:17 | Exactly the requests to the user with that status; as many as countByToUserIdAndStatus counts |
| Repositories.MatchesFromTo | PlusOneBackend/src/main/java/com/plusone/PlusOneBackend/repository/ConnectionRequestRepository.java:20 | Exactly the requests from -> to |
| Repositories.Store.FindUserById | PlusOneBackend/src/main/java/com/plusone/PlusOneBackend/service/ConnectionService.java:56-57 | Some exactly when a user with that id is stored, and then that user |
| Repositories.Store.FindRequestById | PlusOneBackend/src/main/java/com/plusone/PlusOneBackend/service/ConnectionService.java:101 | Some exactly when a request with that id is stored, and then that request |
| Repositories.Store.FindByFromUserIdAndToUserId | PlusOneBackend/src/main/java/com/plusone/PlusOneBackend/repository/ConnectionRequestRepository.java:20 | None exactly when no request from -> to exists; otherwise one of them |
| Repositories.Store.FindByEmail | PlusOneBackend/src/main/java/com/plusone/PlusOneBackend/repository/UserRepository.java:13 | None exactly when no user has that exact e-mail; otherwise such a user |
| Repositories.Store.InsertUser | PlusOneBackend/src/main/java/com/plusone/PlusOneBackend/service/AuthService.java:66 | Appends the user's document under the next id and sets that id on the user; the step invariant holds afterwards exactly when it held before and the new user's step is in range |
| Repositories.Store.UpdateUser | PlusOneBackend/src/main/java/com/plusone/PlusOneBackend/service/ProfileService.java:70 | Replaces exactly that user's document |
| Repositories.Store.InsertRequest | PlusOneBackend/src/main/java/com/plusone/PlusOneBackend/service/ConnectionService.java:76-84 | Appends the new request under the next id |
| Repositories.Store.UpdateRequest | PlusOneBackend/src/main/java/com/plusone/PlusOneBackend/service/ConnectionService.java:119-120 | Replaces exactly that request |
| Repositories.Store.InsertConnection | PlusOneBackend/src/main/java/com/plusone/PlusOneBackend/service/ConnectionService.java:123-129 | Appends the connection |
| ConnectionService.AreUsersConnected | PlusOneBackend/src/main/java/com/plusone/PlusOneBackend/service/ConnectionService.java:149-151 | True exactly when a connection a -> b is stored |
| ConnectionService.StatusCases | PlusOneBackend/src/main/java/com/plusone/PlusOneBackend/service/ConnectionService.java:156-171 | Over every choice the database may make: FRIENDS exactly when connected; PENDING exactly when not connected and a pending request from -> to exists; CONNECT exactly when not connected and no request exists or some request is not pending |
| ConnectionService.StatusDeterminedBySingleRequest | PlusOneBackend/src/main/java/com/plusone/PlusOneBackend/service/ConnectionService.java:156-171 | With at most one request from -> to, exactly one status is possible |
| ConnectionService.GetConnectionStatus | PlusOneBackend/src/main/java/com/plusone/PlusOneBackend/service/ConnectionService.java:156-171 | The answer is one of the possible statuses; FRIENDS exactly when connected; PENDING only with a pending request from -> to |
| ConnectionService.CreateConnectionRequest | PlusOneBackend/src/main/java/com/plusone/PlusOneBackend/service/ConnectionService.java:54-95 | "User not found", "Users are already connected" and "Connection request already pending" in that order; with none applying, a new PENDING request with the message as given is appended under the next id; a failure changes nothing; settled requests are untouched |
| ConnectionService.AcceptedPairIsFriends | PlusOneBackend/src/main/java/com/plusone/PlusOneBackend/service/ConnectionService.java:122-129 | After a connection a -> b is added, the only possible status of a -> b is FRIENDS |
| ConnectionService.RejectedPairIsNotPending | PlusOneBackend/src/main/java/com/plusone/PlusOneBackend/service/ConnectionService.java:206-208 | Rejecting the only pending request of its pair leaves PENDING impossible for the pair |
| ConnectionService.AcceptConnectionRequest | PlusOneBackend/src/main/java/com/plusone/PlusOneBackend/service/ConnectionService.java:100-144 | Succeeds exactly when the request exists, is addressed to the caller and is PENDING, with the three errors in that order; on success the request becomes ACCEPTED, a connection from -> to is appended and the pair reads FRIENDS; a failure changes nothing |
| ConnectionService.RejectConnectionRequest | PlusOneBackend/src/main/java/com/plusone/PlusOneBackend/service/ConnectionService.java:188-211 | The same checks and errors as accept; on success only that request becomes REJECTED and no connection is made |
| ConnectionService.GetPendingRequests | PlusOneBackend/src/main/java/com/plusone/PlusOneBackend/service/ConnectionService.java:176-183 | Exactly the PENDING requests addressed to the user, as many as the profile's requestsCount |
| ConnectionService.OtherUsers | PlusOneBackend/src/main/java/com/plusone/PlusOneBackend/service/ConnectionService.java:39-41 | Exactly the stored users other than the current one |
| ConnectionService.InsertNewest | PlusOneBackend/src/main/java/com/plusone/PlusOneBackend/service/ConnectionService.java:42 | Inserting into a newest-first list keeps it newest first and adds exactly the one element |
| ConnectionService.SortNewestFirst | PlusOneBackend/src/main/java/com/plusone/PlusOneBackend/service/ConnectionService.java:42 | The result is newest first and a permutation of the input |
| ConnectionService.FirstThree | PlusOneBackend/src/main/java/com/plusone/PlusOneBackend/service/ConnectionService.java:43 | The first min(3, n) elements |
| ConnectionService.FirstThreeAreNewest | PlusOneBackend/src/main/java/com/plusone/PlusOneBackend/service/ConnectionService.java:42-43 | A user left out of the first three of a newest-first list is no newer than the third |
| ConnectionService.TopOfSorted | PlusOneBackend/src/main/java/com/plusone/PlusOneBackend/service/ConnectionService.java:39-44 | The first three of any newest-first arrangement of the other users: min(3, n) of them, each another user, newest first, with nobody left out newer than the third |
| ConnectionService.NewestOthers | PlusOneBackend/src/main/java/com/plusone/PlusOneBackend/service/ConnectionService.java:39-44 | The same four properties for the filtered, sorted and limited list, which holds each other user at most as often as it is stored |
| ConnectionService.ToDtos | PlusOneBackend/src/main/java/com/plusone/PlusOneBackend/service/ConnectionService.java:46-48 | Converts element by element, keeping the length |
| ConnectionService.DtosOfNewest | PlusOneBackend/src/main/java/com/plusone/PlusOneBackend/service/ConnectionService.java:213-222 | The converted users are other users, and nobody left out is newer than the third |
| ConnectionService.GetRecentUsers | PlusOneBackend/src/main/java/com/plusone/PlusOneBackend/service/ConnectionService.java:38-49 | min(3, n) summaries of users other than the current one, newest first, with no other user newer than the third; they are the summaries of a sub-multiset of the other users, so no stored user appears twice |
| ProfileService.ClampStep | PlusOneBackend/src/main/java/com/plusone/PlusOneBackend/service/ProfileService.java:133-136 | The result is within 1..4; a step in range is kept, and one below or above goes to the nearer bound |
| ProfileService.SanitizeProfile | PlusOneBackend/src/main/java/com/plusone/PlusOneBackend/service/ProfileService.java:99-125 | A missing profile or part gets its empty default, negative counters become 0, and every present part is kept; a sanitised profile is left as it is |
| ProfileService.SanitizeIdempotent | PlusOneBackend/src/main/java/com/plusone/PlusOneBackend/service/ProfileService.java:99-125 | Sanitising twice is sanitising once |
| ProfileService.DefaultOnboarding | PlusOneBackend/src/main/java/com/plusone/PlusOneBackend/service/ProfileService.java:90-94 | A missing onboarding becomes a new one at step 1; a missing step becomes 1; everything else is kept |
| ProfileService.Defaulted | PlusOneBackend/src/main/java/com/plusone/PlusOneBackend/service/ProfileService.java:80-97 | The loaded user has a profile and an onboarding with a step; only those two fields differ from the stored document |
| ProfileService.OnboardingAfter | PlusOneBackend/src/main/java/com/plusone/PlusOneBackend/service/ProfileService.java:127-150 | A given step is clamped into 1..4; completed = true marks completion and stamps the time only if there is no stamp yet; completed = false clears the stamp; null parts change nothing |
| ProfileService.ApplyOnboardingUpdates | PlusOneBackend/src/main/java/com/plusone/PlusOneBackend/service/ProfileService.java:127-150 | The user's onboarding becomes OnboardingAfter of the old one, with a new one used when it was null |
| ProfileService.OnboardingUpdateIdempotent | PlusOneBackend/src/main/java/com/plusone/PlusOneBackend/service/ProfileService.java:127-150 | Repeating an update at any later time changes nothing |
| ProfileService.ReplayKeepsStepInRange | PlusOneBackend/src/main/java/com/plusone/PlusOneBackend/service/ProfileService.java:133-136 | A step in 1..4 stays in 1..4 through any series of updates |
| ProfileService.ReplayKeepsCompletionConsistent | PlusOneBackend/src/main/java/com/plusone/PlusOneBackend/service/ProfileService.java:138-147 | "Completed" and "has a completion time" keep agreeing through any series of updates |
| ProfileService.ReplayKeepsFirstCompletion | PlusOneBackend/src/main/java/com/plusone/PlusOneBackend/service/ProfileService.java:140-143 | The first completion time survives every update that does not send completed = false |
| ProfileService.FindUserOrThrow | PlusOneBackend/src/main/java/com/plusone/PlusOneBackend/service/ProfileService.java:80-97 | An error exactly when the user is missing, with that message; otherwise a fresh user object equal to the stored document with its defaults |
| ProfileService.ConnectionsCount | PlusOneBackend/src/main/java/com/plusone/PlusOneBackend/service/ProfileService.java:152-159 | The number of connections with the user on either side, or 0 when the query fails |
| ProfileService.RequestsCount | PlusOneBackend/src/main/java/com/plusone/PlusOneBackend/service/ProfileService.java:161-168 | The number of PENDING requests to the user, or 0 when the query fails |
| ProfileService.BuildProfileResponse | PlusOneBackend/src/main/java/com/plusone/PlusOneBackend/service/ProfileService.java:179-200 | The identity and counters as given; postsCount is the length of the posts list; an absent profile, onboarding or step takes its default; a stored step in 1..4 is reported in 1..4 |
| ProfileService.Respond | PlusOneBackend/src/main/java/com/plusone/PlusOneBackend/service/ProfileService.java:44-49 | The response built from the three queries for the loaded user |
| ProfileService.GetProfile | PlusOneBackend/src/main/java/com/plusone/PlusOneBackend/service/ProfileService.java:41-50 | An error exactly when the user is missing; otherwise the response for the defaulted user, without saving anything; the step is in 1..4 while the store keeps steps in range |
| ProfileService.UpdatedDoc | PlusOneBackend/src/main/java/com/plusone/PlusOneBackend/service/ProfileService.java:60-70 | Identity and creation time are kept; updatedAt is now; a sent profile is replaced by its sanitised form, otherwise the loaded one is kept; the onboarding is updated |
| ProfileService.UpdateKeepsStepsInRange | PlusOneBackend/src/main/java/com/plusone/PlusOneBackend/service/ProfileService.java:67-70 | Saving an update keeps every stored step in 1..4 |
| ProfileService.ApplyUpdate | PlusOneBackend/src/main/java/com/plusone/PlusOneBackend/service/ProfileService.java:62-69 | The in-place edits to the loaded user: a sanitised profile when one is sent, the onboarding update and the new updatedAt |
| ProfileService.UpdateProfile | PlusOneBackend/src/main/java/com/plusone/PlusOneBackend/service/ProfileService.java:55-78 | A null request and a missing user are errors that change nothing; otherwise exactly that user's document is replaced by its update and the response is built from it; the store keeps steps in 1..4 |
| AuthService.NormalizeEmailForgetsCaseAndPadding | PlusOneBackend/src/main/java/com/plusone/PlusOneBackend/service/AuthService.java:59 | Lower-casing then trimming equals trimming then lower-casing, and the normal form ignores case and surrounding white space |
| AuthService.NormalizeEmail | PlusOneBackend/src/main/java/com/plusone/PlusOneBackend/service/AuthService.java:59 | The normal form is no longer than the address and neither starts nor ends with white space |
| AuthService.EmailCheckTrimThenLower | PlusOneBackend/src/main/java/com/plusone/PlusOneBackend/service/AuthService.java:118-120 | The domain check reads the same with the trim applied first |
| AuthService.IsVanderbiltEmail | PlusOneBackend/src/main/java/com/plusone/PlusOneBackend/service/AuthService.java:118-120 | Only a present address at least as long as the domain passes; the check ignores case and padding (NormalizeEmailForgetsCaseAndPadding) and reads the same with the trim first (EmailCheckTrimThenLower) |
| AuthService.SignupCheck | PlusOneBackend/src/main/java/com/plusone/PlusOneBackend/service/AuthService.java:30-52 | The first failing rule in the order domain, already registered, password of at least 6 UTF-16 code units, first name, last name; each is reported exactly when it fails and every earlier rule passes |
| AuthService.FailuresAreNotSuccess | PlusOneBackend/src/main/java/com/plusone/PlusOneBackend/service/AuthService.java:32-78 | No failure message reads "Signup successful" |
| AuthService.NewUserDoc | PlusOneBackend/src/main/java/com/plusone/PlusOneBackend/service/AuthService.java:54-63 | The stored document has the e-mail lower-cased and trimmed and ending in the domain, the names trimmed and non-empty, only the encoded password, and a new profile and onboarding |
| AuthService.Signup | PlusOneBackend/src/main/java/com/plusone/PlusOneBackend/service/AuthService.java:28-80 | A rule failure or a failed save gives its message and stores nothing; otherwise exactly one new user document is appended and its identity returned; the message is "Signup successful" exactly then |
| AuthService.LoginFailuresAreNotSuccess | PlusOneBackend/src/main/java/com/plusone/PlusOneBackend/service/AuthService.java:91-111 | No failure message reads "Login successful" |
| AuthService.Login | PlusOneBackend/src/main/java/com/plusone/PlusOneBackend/service/AuthService.java:85-113 | The user is looked up by the normalised e-mail; an unknown e-mail and a wrong password give the same answer; success returns the identity of a stored user with that e-mail whose password matches; a failure carries no identity |
| AuthService.DuplicateCheckMissesPaddedAddress | PlusOneBackend/src/main/java/com/plusone/PlusOneBackend/service/AuthService.java:36-38 | Against any store of normalised addresses, a valid request with a leading space added passes every rule, duplicate check included, and normalises to the same address |
| AuthService.SignupThenLogin | PlusOneBackend/src/main/java/com/plusone/PlusOneBackend/service/AuthService.java:28-113 | A successful sign-up followed by a log-in with the same credentials succeeds and names the new user, when the encoder accepts its own hashes and the address was new |
| AuthClient.Settle | plusone/src/services/authService.ts:41-66 | A 2xx answer is returned; an error that carries the server's answer returns that answer; only a rejection without an answer throws, with "Network error. Please try again." |
| AuthClient.HttpOutcomeOf | PlusOneBackend/src/main/java/com/plusone/PlusOneBackend/controller/AuthController.java:24-50 | A 2xx answer exactly for the success message; the body is always the service's response |
| AuthClient.ServerAnswerReachesClient | PlusOneBackend/src/main/java/com/plusone/PlusOneBackend/controller/AuthController.java:24-50 | With the controller's status codes, the client always obtains exactly the server's response |
| AuthClient.SessionRecord | plusone/src/pages/Signup.tsx:81-89 | The stored session holds the response's id, e-mail and names |
| AuthClient.AfterAnswer | plusone/src/pages/Signup.tsx:79-97 | The page stores the session and navigates only on the expected success message; any other answer becomes the error; a thrown error shows its message, or "An error occurred. Please try again." when it has none, and changes nothing else |
| AuthClient.PageFollowsServer | plusone/src/pages/Login.tsx:50-81 | For a backend answer, the page stores the session exactly on success and otherwise shows the backend's message |
| AuthClient.EmailCheckTrimThenLower | plusone/src/services/authService.ts:82-84 | The order of lower-casing and trimming does not matter |
| AuthClient.IsVanderbiltEmail | plusone/src/services/authService.ts:82-84 | Only an address at least as long as the domain passes; it ignores case and JavaScript padding (EmailCheckForgetsCase, EmailCheckForgetsPadding) |
| AuthClient.EmailCheckForgetsCase | plusone/src/services/authService.ts:82-84 | Upper-casing the address does not change the answer |
| AuthClient.EmailCheckForgetsPadding | plusone/src/services/authService.ts:82-84 | Surrounding JavaScript white space does not change the answer |
| AuthClient.EmailCheckAgreesWithServer | plusone/src/services/authService.ts:82-84 | When the two trims treat the address's characters alike, the client and the server accept the same addresses |
| AuthClient.ServerRejectsOddLastCharacter | PlusOneBackend/src/main/java/com/plusone/PlusOneBackend/service/AuthService.java:118-120 | The server rejects an address whose last character is not trimmed and does not lower-case to 'u' |
| AuthClient.ClientIgnoresTrailingNoBreakSpace | plusone/src/services/authService.ts:82-84 | A trailing no-break space does not change the client's answer |
| AuthClient.TrailingNoBreakSpaceSplitsChecks | plusone/src/services/authService.ts:82-84 | An address the client accepts, with a no-break space appended, is still accepted by the client and rejected by the server |
| SignupPage.WithField | plusone/src/pages/Signup.tsx:23-31 | The named field takes the value and every other field is unchanged |
| SignupPage.ValidateForm | plusone/src/pages/Signup.tsx:34-54 | No error exactly when all six checks pass; the password length is counted in UTF-16 code units |
| SignupPage.ValidationOrder | plusone/src/pages/Signup.tsx:34-54 | Each error is reported exactly when its check fails and every earlier check passes |
| SignupPage.BlankFirstNameRejected | plusone/src/pages/Signup.tsx:35-37 | A first name made only of white space is the first error |
| SignupPage.BlankEmailRejected | plusone/src/pages/Signup.tsx:41-43 | A blank e-mail is reported as missing, not as a foreign address |
| SignupPage.ValidFormMeetsServerRules | plusone/src/pages/Signup.tsx:72-77 | When the two trims agree on the typed text, an accepted form meets the server's domain, password and name rules |
| SignupPage.ValidFormPassesServerRules | plusone/src/pages/Signup.tsx:72-77 | The server can then only answer success or "Email already registered" |
| SignupPage.SignupPageState.constructor | plusone/src/pages/Signup.tsx:10-20 | An empty form, no error, not loading |
| SignupPage.SignupPageState.HandleChange | plusone/src/pages/Signup.tsx:23-31 | Edits one field and clears the error |
| SignupPage.SignupPageState.HandleSubmit | plusone/src/pages/Signup.tsx:57-101 | An invalid form shows its error and sends nothing; a valid one sends the fields as typed and the page follows AfterAnswer with the onboarding route; loading ends false |
| LoginPage.RouteAfterLogin | plusone/src/pages/Login.tsx:62-76 | Always /home or /onboarding; /onboarding exactly when there is an id, the profile loaded and onboarding is not completed |
| LoginPage.NextRoute | plusone/src/pages/Login.tsx:62-76 | Always /home or /onboarding; /onboarding only after a successful answer and a loaded profile whose onboarding is not completed |
| LoginPage.RouteFollowsOnboardingCompletion | plusone/src/pages/Login.tsx:64-70 | For a backend profile, the redirect follows its completion flag |
| LoginPage.LoginPageState.constructor | plusone/src/pages/Login.tsx:10-18 | An empty form, no error, not loading |
| LoginPage.LoginPageState.HandleChange | plusone/src/pages/Login.tsx:21-29 | Edits one field and clears the error |
| LoginPage.LoginPageState.HandleSubmit | plusone/src/pages/Login.tsx:32-85 | An empty field shows "Please fill in all fields" and sends nothing; otherwise it sends the fields as typed and the page follows AfterAnswer with the route from RouteAfterLogin; loading ends false |
| OnboardingPage.NormalizeProfile | plusone/src/pages/Onboarding.tsx:749-775 | No profile gives the default profile; otherwise every missing value takes its default and every present value is kept; the photo is complete |
| OnboardingPage.EmptyProfileIsDefault | plusone/src/pages/Onboarding.tsx:58-81 | The backend's empty profile reads as the default profile |
| OnboardingPage.RequestLocation | plusone/src/pages/Onboarding.tsx:780-785 | City and state are trimmed; an empty country becomes "US"; the coordinates are kept |
| OnboardingPage.RequestJob | plusone/src/pages/Onboarding.tsx:786-791 | Title, company name and company id are trimmed; a missing id is sent as "" |
| OnboardingPage.RequestPhoto | plusone/src/pages/Onboarding.tsx:793-796 | A missing or empty URL becomes the default avatar; everything else is kept |
| OnboardingPage.RequestNormalizationIdempotent | plusone/src/pages/Onboarding.tsx:777-800 | Normalising for a request twice is normalising once |
| OnboardingPage.NormalizeProfileForRequest | plusone/src/pages/Onboarding.tsx:777-800 | Gender, age, interests and counters are kept; the country, the company id and a non-empty photo URL are always present; normalising twice is normalising once (RequestNormalizationIdempotent) |
| OnboardingPage.SavedProfileReadsBack | plusone/src/pages/Onboarding.tsx:189-195 | A complete profile with non-negative counters, once sent, sanitised by the backend and read back, is the profile that was sent |
| OnboardingPage.NextStep | plusone/src/pages/Onboarding.tsx:133 | At most 4, and one more than a step below 4 |
| OnboardingPage.StepAfterSave | plusone/src/pages/Onboarding.tsx:199 | At most 4; the reported step when it is at most 4; at least 1 only when the reported (or sent) step is |
| OnboardingPage.StepAfterSaveHasNoLowerBound | plusone/src/pages/Onboarding.tsx:199 | A reported step of 0 is kept as 0 |
| OnboardingPage.ResumeStep | plusone/src/pages/Onboarding.tsx:218-219 | Within 1..4: 1 when no step is reported, and the reported step when it is in range |
| OnboardingPage.ResumeStepIsServerClamp | plusone/src/pages/Onboarding.tsx:218-219 | The client clamps exactly as the backend's ClampStep does |
| OnboardingPage.ServerStepKeepsWizardInRange | plusone/src/pages/Onboarding.tsx:196-200 | For a backend answer, a save leaves the step in 1..4 |
| OnboardingPage.Without | plusone/src/pages/Onboarding.tsx:153 | Exactly the interests other than x, each as often as before (the multiset with x's count set to 0); an absent x leaves the list as it is |
| OnboardingPage.Toggled | plusone/src/pages/Onboarding.tsx:147-157 | x is present afterwards exactly when it was absent; a present x is filtered out (Without, so the other interests keep their order and multiplicity); an absent x is appended |
| OnboardingPage.WithoutKeepsOrder | plusone/src/pages/Onboarding.tsx:153 | The filter distributes over concatenation, so the remaining interests keep their order |
| OnboardingPage.ToggleTwiceRestoresAbsent | plusone/src/pages/Onboarding.tsx:147-157 | Toggling an absent interest twice restores the list |
| OnboardingPage.ToggleTwiceMovesPresentToEnd | plusone/src/pages/Onboarding.tsx:147-157 | Toggling a present interest twice keeps the same interests, with it moved to the end |
| OnboardingPage.ToggleTwiceCanReorder | plusone/src/pages/Onboarding.tsx:147-157 | ["a", "b"] toggled twice on "a" is ["b", "a"] |
| OnboardingPage.FindCity | plusone/src/pages/Onboarding.tsx:357-359 | The first option whose city matches, ignoring case; none exactly when no option matches |
| OnboardingPage.CityChanged | plusone/src/pages/Onboarding.tsx:355-370 | The city becomes the value; a matched option's non-empty state and country are taken; without a match only the city changes |
| OnboardingPage.CityChoiceIgnoresCase | plusone/src/pages/Onboarding.tsx:357-359 | Typing the city in upper case picks the same option |
| OnboardingPage.GenderLabelsDistinct | plusone/src/pages/Onboarding.tsx:802-817 | Different genders get different labels |
| OnboardingPage.FormatGenderLabel | plusone/src/pages/Onboarding.tsx:802-817 | Every label is non-empty and capitalised; different genders get different labels (GenderLabelsDistinct) |
| OnboardingPage.Hydrated | plusone/src/pages/Onboarding.tsx:208-220 | Takes the normalised profile; a completed onboarding navigates home; otherwise the step becomes the reported one clamped to 1..4; the wizard stays valid |
| OnboardingPage.Loaded | plusone/src/pages/Onboarding.tsx:106-119 | An answer hydrates, with the error cleared; a failure shows its message or "Failed to load profile"; the wizard stays valid |
| OnboardingPage.Saved | plusone/src/pages/Onboarding.tsx:188-205 | An answer hydrates, then navigates home when completed or moves to StepAfterSave; a failure changes only the error, to the message or "Failed to save your progress" |
| OnboardingPage.BackendSaveKeepsStepInRange | plusone/src/pages/Onboarding.tsx:188-205 | A save answered by the backend keeps the wizard valid |
| OnboardingPage.SaveRequest | plusone/src/pages/Onboarding.tsx:189-194 | The body carries the profile normalised for the request, the step and the completion flag |
| OnboardingPage.OnboardingWizard.constructor | plusone/src/pages/Onboarding.tsx:93-98 | The default profile at step 1, with no error and nothing saving |
| OnboardingPage.OnboardingWizard.SetView | plusone/src/pages/Onboarding.tsx:208-220 | The view becomes the given one |
| OnboardingPage.OnboardingWizard.Load | plusone/src/pages/Onboarding.tsx:101-119 | The state becomes Loaded of the old state, and the wizard stays valid |
| OnboardingPage.OnboardingWizard.PersistProfile | plusone/src/pages/Onboarding.tsx:184-206 | Sends SaveRequest of the old profile; the state becomes Saved of the old state; saving ends false; the wizard stays valid |
| OnboardingPage.OnboardingWizard.HandleNext | plusone/src/pages/Onboarding.tsx:132-135 | Saves with NextStep, never past 4 |
| OnboardingPage.OnboardingWizard.HandleBack | plusone/src/pages/Onboarding.tsx:137-141 | Goes back one step only from above step 1 |
| OnboardingPage.OnboardingWizard.HandleFinish | plusone/src/pages/Onboarding.tsx:143-145 | Saves at step 4 marked complete |
| OnboardingPage.OnboardingWizard.ToggleInterest | plusone/src/pages/Onboarding.tsx:147-157 | Only the interests change, to Toggled |
| OnboardingPage.OnboardingWizard.AddCustomInterest | plusone/src/pages/Onboarding.tsx:159-164 | Blank input changes nothing; otherwise the trimmed text is toggled and the input cleared |
| OnboardingPage.OnboardingWizard.OnCityChange | plusone/src/pages/Onboarding.tsx:355-370 | Only the location changes, to CityChanged over `CITY_OPTIONS` |
| OnboardingPage.OnboardingWizard.OnCountryChange | plusone/src/pages/Onboarding.tsx:382-390 | Only the country changes; the wizard stays valid |
| OnboardingPage.OnboardingWizard.OnTitleChange | plusone/src/pages/Onboarding.tsx:486-494 | Only the job title changes; the wizard stays valid |
| OnboardingPage.OnboardingWizard.OnCompanyChange | plusone/src/pages/Onboarding.tsx:496-504 | Only the company name changes; the wizard stays valid |
| OnboardingPage.OnboardingWizard.OnCompanyIdChange | plusone/src/pages/Onboarding.tsx:506-514 | Only the company id changes; the wizard stays valid |
| OnboardingPage.OnboardingWizard.ResetToDefault | plusone/src/pages/Onboarding.tsx:267-276 | The photo becomes the stock default avatar and nothing else changes; the photo stays complete |
| ConnectPopup.RequestFor | plusone/src/components/ConnectPopup.tsx:38-41 | The request names the target and carries the trimmed message |
| ConnectPopup.SubmitEnabledIff | plusone/src/components/ConnectPopup.tsx:115 | The button is enabled exactly when nothing is in flight and the trimmed message is non-empty |
| ConnectPopup.SentMessageIsTrimmedAndNotBlank | plusone/src/components/ConnectPopup.tsx:29-41 | A message that is sent is non-empty, already trimmed and not blank |
| ConnectPopup.FailureText | plusone/src/components/ConnectPopup.tsx:48 | The server's message when there is one, otherwise "Failed to send connection request"; never empty |
| ConnectPopup.ConnectPopupState.constructor | plusone/src/components/ConnectPopup.tsx:22-24 | An empty message, no error, not loading |
| ConnectPopup.ConnectPopupState.SetMessage | plusone/src/components/ConnectPopup.tsx:22 | The message becomes the value |
| ConnectPopup.ConnectPopupState.HandleSubmit | plusone/src/components/ConnectPopup.tsx:26-52 | A blank message shows "Message is required" and sends nothing; otherwise it sends RequestFor on behalf of the current user; success notifies and clears the message; failure keeps the message and shows FailureText; loading ends false |
| ConnectPopup.ConnectPopupState.HandleClose | plusone/src/components/ConnectPopup.tsx:54-58 | Clears the message and the error |
| ProfileCard.ButtonText | plusone/src/components/UserProfileCard.tsx:67-76 | "Friends" exactly for FRIENDS, "Pending" exactly for PENDING, "Connect" for every other string |
| ProfileCard.ButtonClass | plusone/src/components/UserProfileCard.tsx:78-87 | The success, warning and primary classes over the same three cases |
| ProfileCard.TextAndClassAgree | plusone/src/components/UserProfileCard.tsx:67-87 | Two statuses get the same text exactly when they get the same class |
| ProfileCard.EnabledButtonReadsConnect | plusone/src/components/UserProfileCard.tsx:135 | For the backend's statuses, the button is enabled exactly when it reads "Connect", and exactly for CONNECT |
| ProfileCard.ButtonEnabled | plusone/src/components/UserProfileCard.tsx:135 | An enabled button reads "Connect" with the primary style |
| ProfileCard.UnknownStatusShowsDisabledConnect | plusone/src/components/UserProfileCard.tsx:73-74 | An unknown status reads "Connect" but leaves the button disabled |
| ProfileCard.InterestColor | plusone/src/components/UserProfileCard.tsx:89-92 | Always one of the four colours |
| ProfileCard.InterestColorsCycle | plusone/src/components/UserProfileCard.tsx:89-92 | The colours repeat every four, and four neighbours never share one |
| ProfileCard.InterestBadges | plusone/src/components/UserProfileCard.tsx:149-169 | No interests give no row; up to three interests are shown, the i-th in colour i; more add a "+n" badge for the rest |
| ProfileCard.BadgesAccountForEveryInterest | plusone/src/components/UserProfileCard.tsx:152-168 | The shown badges plus the "+n" count add up to the number of interests |
| ProfileCard.ProfileCardState.constructor | plusone/src/components/UserProfileCard.tsx:37-38 | CONNECT, popup hidden, a fresh popup for the target |
| ProfileCard.ProfileCardState.LoadConnectionStatus | plusone/src/components/UserProfileCard.tsx:45-54 | The status the call returned, or CONNECT when it failed |
| ProfileCard.ProfileCardState.HandleConnectClick | plusone/src/components/UserProfileCard.tsx:56-60 | Opens the popup only from CONNECT |
| ProfileCard.ProfileCardState.HandleConnectionSuccess | plusone/src/components/UserProfileCard.tsx:62-65 | PENDING, and the parent is notified once |
| ProfileCard.ProfileCardState.SubmitPopup | plusone/src/components/UserProfileCard.tsx:177-187 | A request is sent exactly for a non-blank message, from the current user to the card's user; once it is delivered the card shows PENDING, hides the popup, notifies the parent and disables the button; otherwise the card is unchanged |
| ProfileCard.ProfileCardState.ClosePopup | plusone/src/components/UserProfileCard.tsx:179 | Hides the popup and clears its message and error |
| MyPage.WithoutPost | plusone/src/pages/MyPage.tsx:90 | Exactly the posts with another id, one fewer for each post with that id |
| MyPage.WithoutPostKeepsOrder | plusone/src/pages/MyPage.tsx:90 | Filtering a concatenation filters each part, so the order is kept |
| MyPage.WithoutAbsentPost | plusone/src/pages/MyPage.tsx:90 | A list without that id is unchanged |
| MyPage.DeleteIdempotent | plusone/src/pages/MyPage.tsx:86-91 | Deleting twice is deleting once |
| MyPage.MyPageState.constructor | plusone/src/pages/MyPage.tsx:30 | The given posts |
| MyPage.MyPageState.OnDelete | plusone/src/pages/MyPage.tsx:86-91 | Remove is called exactly for an id and a confirmation; on success the posts with that id leave the list; otherwise it is unchanged |
| MyPage.HoursIn | plusone/src/pages/MyPage.tsx:352 | The whole hours in the difference, rounded down even for a negative one |
| MyPage.TimeAgo | plusone/src/pages/MyPage.tsx:348-356 | "" without a time stamp; "h hours ago" below 24 hours; "d days ago" with d the whole days from a day on |
| MyPage.HoursReadDistinctly | plusone/src/pages/MyPage.tsx:352-353 | Below a day, different hours print differently |
| Text.TrimEmptyIff | plusone/src/pages/Signup.tsx:35-43 | A string trims to empty exactly when it is all white space |
| Text.JsBlankIff | plusone/src/components/ConnectPopup.tsx:29 | `!s.trim()` holds exactly when the JavaScript trim gives the empty string |
| Text.TrimIdempotent | plusone/src/pages/Onboarding.tsx:782-790 | Trimming twice is trimming once |
| Text.LowerTrimCommute | PlusOneBackend/src/main/java/com/plusone/PlusOneBackend/service/AuthService.java:119 | Lower-casing and trimming commute when the white space is case-free |
| Text.TrimAgree | PlusOneBackend/src/main/java/com/plusone/PlusOneBackend/service/AuthService.java:46-51 | Trims by two white-space sets agree on a string whose characters they classify alike |
| Text.Utf16Length | PlusOneBackend/src/main/java/com/plusone/PlusOneBackend/service/AuthService.java:41 | `length()`: between n and 2n for n characters, and exactly n when every character is in the Basic Multilingual Plane |
| AuthService.AstralPasswordAccepted | PlusOneBackend/src/main/java/com/plusone/PlusOneBackend/service/AuthService.java:40-43 | A password of three characters outside the Basic Multilingual Plane has length 6 and passes the rule |
| Text.NatToStringRoundTrip | plusone/src/pages/MyPage.tsx:353-355 | Parsing the decimal text of a number gives the number back |

## Left out

- E-mail notifications (`EmailService`) are sent fire-and-forget and their failures are swallowed, so they do not affect any result; they are not modelled.
- The REST controllers are modelled only where they decide what the client sees: the auth status codes in `AuthClient.HttpOutcomeOf`. Their other endpoints, the post CRUD, user search and the `ConnectionRequestDto` conversion are not part of this model.
- Time stamps are integers. ISO formatting of `createdAt`, `Date.parse` (including an invalid date giving NaN) and `LocalDateTime.now()` become the parameters `now` and `elapsed`.
- Latitude, longitude and other floating-point values are carried as opaque values and never computed with.
- Case mapping is ASCII only; Unicode case folding is not modelled.
- Only `findByFromUserIdAndToUserId`, `findByEmail` and the stream sort have a choice modelled. The sort is stable in Java; the model proves newest-first order and permutation for any arrangement, and uses one particular insertion sort to compute it.
- The store's choice among several matches stands for a query that throws in Spring Data. So the model does not capture the exceptions that follow: after a rejected request is re-requested, `createConnectionRequest` (ConnectionService.java:69-74) and `getConnectionStatus` (ConnectionService.java:163-164) would fail instead of reading one of the requests; after the padded duplicate sign-up of `AuthService.DuplicateCheckMissesPaddedAddress`, `login` (AuthService.java:88) would answer "Login failed: …" instead of checking one of the two users.
- AuthService.Login: a null password is passed to the encoder as given; the model takes the password as a plain string.
- ConnectionService.CreateConnectionRequest: the "already pending" error is guaranteed only when the pair has a single request on record, because the repository returns one of several matches of its own choosing.
- ConnectionService.RejectConnectionRequest: "PENDING cannot be read afterwards" is proved only when no other pending request of the same pair exists, for the same reason.
- Local-storage parsing of the current user, the onboarding page's redirect to /login without a user, its `loading` flag, `photoPreview`, the photo upload through `FileReader`, the age and gender pickers and the state picker are view details that are not modelled.
- The parent callbacks of the profile card (`onConnectionUpdate`) and of the popup (`onSuccess`, `onClose`) are modelled by a counter, a returned flag and a direct method call.
- Console logging, the `isLoading` flag of the profile card and the `test` endpoint have no effect on the modelled state.
- OnboardingPage.StepAfterSave: bounded below only when the reported step is, as in the code, which clamps only from above.
