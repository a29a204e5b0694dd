/** `ConnectionService.java`: the connection-request lifecycle
    PENDING -> ACCEPTED or PENDING -> REJECTED, the connections an acceptance
    creates, and the read-only queries over them. E-mail notifications are
    fire-and-forget (their failures are swallowed) and are not modelled. */
module ConnectionService {
  import opened Wrappers
  import opened Text
  import opened UserModel
  import opened Repositories

  const USER_NOT_FOUND := "User not found"
  const ALREADY_CONNECTED := "Users are already connected"
  const ALREADY_PENDING := "Connection request already pending"
  const REQUEST_NOT_FOUND := "Connection request not found"
  const UNAUTHORIZED_ACCEPT := "Unauthorized to accept this request"
  const UNAUTHORIZED_REJECT := "Unauthorized to reject this request"
  const NOT_PENDING := "Request is not pending"

  /** The body of `POST /connections/request`. */
  datatype CreateConnectionRequestDto = CreateConnectionRequestDto(toUserId: UserId, message: Option<string>)

  /** The answer of `getConnectionStatus`. */
  datatype ConnectionStatus = Friends | Pending | Connect

  /** The string the endpoint returns. */
  function StatusName(s: ConnectionStatus): string {
    match s
    case Friends => "FRIENDS"
    case Pending => "PENDING"
    case Connect => "CONNECT"
  }

  /** `areUsersConnected(a, b)`: is there a connection stored as a -> b? */
  function AreUsersConnected(conns: seq<Connection>, a: UserId, b: UserId): (connected: bool)
    ensures connected <==> exists c :: c in conns && c.user1Id == a && c.user2Id == b
  {
    ConnectionLookupIsDirectional(conns, a, b);
    FindConnectionBetweenUsers(conns, a, b)
  }

  /** The answer of `getConnectionStatus` once the two lookups are done. */
  function StatusFor(connected: bool, found: Option<ConnectionRequest>): ConnectionStatus {
    if connected then Friends
    else if found.Some? && found.value.status == RequestStatus.Pending then ConnectionStatus.Pending
    else Connect
  }

  /** Every answer `getConnectionStatus(from, to)` can give, over every request
      the database may return for the pair from -> to. */
  function PossibleStatuses(conns: seq<Connection>, reqs: seq<ConnectionRequest>, from: UserId, to: UserId)
    : set<ConnectionStatus>
  {
    var connected := AreUsersConnected(conns, from, to);
    var m := MatchesFromTo(reqs, from, to);
    if m == [] then {StatusFor(connected, None)}
    else set i | 0 <= i < |m| :: StatusFor(connected, Some(m[i]))
  }

  /** FRIENDS exactly when connected, PENDING only when a PENDING request
      from -> to exists, and CONNECT only when some request from -> to is not
      pending or there is none. */
  lemma StatusCases(conns: seq<Connection>, reqs: seq<ConnectionRequest>, from: UserId, to: UserId)
    ensures PossibleStatuses(conns, reqs, from, to) != {}
    ensures AreUsersConnected(conns, from, to) ==> PossibleStatuses(conns, reqs, from, to) == {Friends}
    ensures Friends in PossibleStatuses(conns, reqs, from, to) <==> AreUsersConnected(conns, from, to)
    ensures ConnectionStatus.Pending in PossibleStatuses(conns, reqs, from, to)
        <==> !AreUsersConnected(conns, from, to) && HasPendingFromTo(reqs, from, to)
    ensures Connect in PossibleStatuses(conns, reqs, from, to)
        <==> !AreUsersConnected(conns, from, to)
             && (MatchesFromTo(reqs, from, to) == []
                 || exists x :: x in MatchesFromTo(reqs, from, to) && x.status != RequestStatus.Pending)
  {
    var m := MatchesFromTo(reqs, from, to);
    var ps := PossibleStatuses(conns, reqs, from, to);
    if m != [] {
      assert StatusFor(AreUsersConnected(conns, from, to), Some(m[0])) in ps;
      if HasPendingFromTo(reqs, from, to) {
        var x :| x in reqs && x.fromUserId == from && x.toUserId == to && x.status == RequestStatus.Pending;
        var i :| 0 <= i < |m| && m[i] == x;
        assert StatusFor(AreUsersConnected(conns, from, to), Some(m[i])) in ps;
      }
      if exists x :: x in m && x.status != RequestStatus.Pending {
        var x :| x in m && x.status != RequestStatus.Pending;
        var i :| 0 <= i < |m| && m[i] == x;
        assert StatusFor(AreUsersConnected(conns, from, to), Some(m[i])) in ps;
      }
    }
  }

  /** With at most one request from -> to on record the answer is determined. */
  lemma StatusDeterminedBySingleRequest(conns: seq<Connection>, reqs: seq<ConnectionRequest>, from: UserId, to: UserId)
    requires |MatchesFromTo(reqs, from, to)| <= 1
    ensures |PossibleStatuses(conns, reqs, from, to)| == 1
  {
    var m := MatchesFromTo(reqs, from, to);
    if m != [] {
      assert PossibleStatuses(conns, reqs, from, to) == {StatusFor(AreUsersConnected(conns, from, to), Some(m[0]))};
    }
  }

  /** A PENDING request that is not yet settled may only change by being
      accepted or rejected; settled requests never change. Every operation
      below keeps this between the old and the new request list. */
  ghost predicate SettledStaySettled(before: seq<ConnectionRequest>, after: seq<ConnectionRequest>) {
    && |before| <= |after|
    && forall i :: 0 <= i < |before| && before[i].status != RequestStatus.Pending ==> after[i] == before[i]
  }

  /** `getConnectionStatus(from, to)`. */
  method GetConnectionStatus(db: Store, from: UserId, to: UserId) returns (st: ConnectionStatus)
    ensures st in PossibleStatuses(db.connections, db.requests, from, to)
    ensures st == Friends <==> AreUsersConnected(db.connections, from, to)
    ensures st == ConnectionStatus.Pending ==> HasPendingFromTo(db.requests, from, to)
  {
    var connected := AreUsersConnected(db.connections, from, to);
    if connected {
      StatusCases(db.connections, db.requests, from, to);
      st := Friends;
      return;
    }
    var found := db.FindByFromUserIdAndToUserId(from, to);
    st := StatusFor(connected, found);
    var m := MatchesFromTo(db.requests, from, to);
    if found.Some? {
      var i :| 0 <= i < |m| && m[i] == found.value;
      assert st == StatusFor(connected, Some(m[i]));
    }
  }

  /** `createConnectionRequest(fromUserId, request)`. The message is stored as given:
      the backend does not check that it is non-blank. */
  method CreateConnectionRequest(db: Store, fromUserId: UserId, request: CreateConnectionRequestDto)
    returns (r: Result<ConnectionRequest, string>)
    requires db.Valid()
    modifies db`requests
    ensures db.Valid()
    ensures SettledStaySettled(old(db.requests), db.requests)
    ensures db.FindUserById(fromUserId).None? || db.FindUserById(request.toUserId).None?
            ==> r == Err(USER_NOT_FOUND)
    ensures db.FindUserById(fromUserId).Some? && db.FindUserById(request.toUserId).Some?
            && AreUsersConnected(db.connections, fromUserId, request.toUserId)
            ==> r == Err(ALREADY_CONNECTED)
    ensures r == Err(ALREADY_PENDING)
            ==> HasPendingFromTo(old(db.requests), fromUserId, request.toUserId)
    ensures db.FindUserById(fromUserId).Some? && db.FindUserById(request.toUserId).Some?
            && !AreUsersConnected(db.connections, fromUserId, request.toUserId)
            && HasPendingFromTo(old(db.requests), fromUserId, request.toUserId)
            && |MatchesFromTo(old(db.requests), fromUserId, request.toUserId)| == 1
            ==> r == Err(ALREADY_PENDING)
    ensures db.FindUserById(fromUserId).Some? && db.FindUserById(request.toUserId).Some?
            && !AreUsersConnected(db.connections, fromUserId, request.toUserId)
            && !HasPendingFromTo(old(db.requests), fromUserId, request.toUserId)
            ==> r.Ok?
    ensures r.Err? ==> db.requests == old(db.requests)
    ensures r.Ok? ==>
              && r.value == ConnectionRequest(|old(db.requests)|, fromUserId, request.toUserId,
                                              request.message, RequestStatus.Pending)
              && db.requests == old(db.requests) + [r.value]
  {
    var fromUser := db.FindUserById(fromUserId);
    var toUser := db.FindUserById(request.toUserId);
    if fromUser.None? || toUser.None? {
      return Err(USER_NOT_FOUND);
    }
    if AreUsersConnected(db.connections, fromUserId, request.toUserId) {
      return Err(ALREADY_CONNECTED);
    }
    var existing := db.FindByFromUserIdAndToUserId(fromUserId, request.toUserId);
    if existing.Some? && existing.value.status == RequestStatus.Pending {
      return Err(ALREADY_PENDING);
    }
    var saved := db.InsertRequest(fromUserId, request.toUserId, request.message, RequestStatus.Pending);
    r := Ok(saved);
  }

  /** Accept and reject both require: the request exists, the caller is its
      recipient, and it is still PENDING. */
  predicate CanResolve(reqs: seq<ConnectionRequest>, requestId: RequestId, userId: UserId) {
    requestId < |reqs| && reqs[requestId].toUserId == userId && reqs[requestId].status == RequestStatus.Pending
  }

  /** No request from -> to other than `requestId` is pending. */
  predicate OnlyPendingOfItsPair(reqs: seq<ConnectionRequest>, requestId: RequestId)
    requires requestId < |reqs|
  {
    forall i :: 0 <= i < |reqs| && i != requestId && reqs[i].fromUserId == reqs[requestId].fromUserId
                && reqs[i].toUserId == reqs[requestId].toUserId
                ==> reqs[i].status != RequestStatus.Pending
  }

  /** After an acceptance the pair from -> to reads FRIENDS, whatever else is stored. */
  lemma AcceptedPairIsFriends(conns: seq<Connection>, reqs: seq<ConnectionRequest>, c: Connection)
    ensures PossibleStatuses(conns + [c], reqs, c.user1Id, c.user2Id) == {Friends}
  {
    assert (conns + [c])[|conns|] == c;
    StatusCases(conns + [c], reqs, c.user1Id, c.user2Id);
  }

  /** Rejecting the only pending request of its pair leaves no way to read PENDING. */
  lemma RejectedPairIsNotPending(conns: seq<Connection>, reqs: seq<ConnectionRequest>, requestId: RequestId)
    requires requestId < |reqs| && OnlyPendingOfItsPair(reqs, requestId)
    ensures var q := reqs[requestId];
            ConnectionStatus.Pending !in PossibleStatuses(conns, reqs[requestId := q.(status := RequestStatus.Rejected)],
                                         q.fromUserId, q.toUserId)
  {
    var q := reqs[requestId];
    var after := reqs[requestId := q.(status := RequestStatus.Rejected)];
    StatusCases(conns, after, q.fromUserId, q.toUserId);
    assert forall i :: 0 <= i < |after| && after[i].fromUserId == q.fromUserId && after[i].toUserId == q.toUserId
                       ==> after[i].status != RequestStatus.Pending;
  }

  /** `acceptConnectionRequest(requestId, userId)`. */
  method AcceptConnectionRequest(db: Store, requestId: RequestId, userId: UserId)
    returns (r: Result<ConnectionRequest, string>)
    requires db.Valid()
    modifies db`requests, db`connections
    ensures db.Valid()
    ensures SettledStaySettled(old(db.requests), db.requests)
    ensures r.Ok? <==> CanResolve(old(db.requests), requestId, userId)
    ensures old(db.FindRequestById(requestId)).None? ==> r == Err(REQUEST_NOT_FOUND)
    ensures old(db.FindRequestById(requestId)).Some? && old(db.requests[requestId].toUserId) != userId
            ==> r == Err(UNAUTHORIZED_ACCEPT)
    ensures old(db.FindRequestById(requestId)).Some? && old(db.requests[requestId].toUserId) == userId
            && old(db.requests[requestId].status) != RequestStatus.Pending
            ==> r == Err(NOT_PENDING)
    ensures r.Err? ==> db.requests == old(db.requests) && db.connections == old(db.connections)
    ensures r.Ok? ==>
              var q := old(db.requests[requestId]);
              && r.value == q.(status := RequestStatus.Accepted)
              && db.requests == old(db.requests)[requestId := r.value]
              && db.connections == old(db.connections) + [Connection(q.fromUserId, q.toUserId, requestId)]
              && PossibleStatuses(db.connections, db.requests, q.fromUserId, q.toUserId) == {Friends}
  {
    var requestOpt := db.FindRequestById(requestId);
    if requestOpt.None? {
      return Err(REQUEST_NOT_FOUND);
    }
    var request := requestOpt.value;
    if request.toUserId != userId {
      return Err(UNAUTHORIZED_ACCEPT);
    }
    if request.status != RequestStatus.Pending {
      return Err(NOT_PENDING);
    }
    var accepted := request.(status := RequestStatus.Accepted);
    db.UpdateRequest(accepted);
    var connection := Connection(request.fromUserId, request.toUserId, requestId);
    db.InsertConnection(connection);
    AcceptedPairIsFriends(old(db.connections), db.requests, connection);
    r := Ok(accepted);
  }

  /** `rejectConnectionRequest(requestId, userId)`: no connection is created. */
  method RejectConnectionRequest(db: Store, requestId: RequestId, userId: UserId)
    returns (r: Result<ConnectionRequest, string>)
    requires db.Valid()
    modifies db`requests
    ensures db.Valid()
    ensures SettledStaySettled(old(db.requests), db.requests)
    ensures r.Ok? <==> CanResolve(old(db.requests), requestId, userId)
    ensures old(db.FindRequestById(requestId)).None? ==> r == Err(REQUEST_NOT_FOUND)
    ensures old(db.FindRequestById(requestId)).Some? && old(db.requests[requestId].toUserId) != userId
            ==> r == Err(UNAUTHORIZED_REJECT)
    ensures old(db.FindRequestById(requestId)).Some? && old(db.requests[requestId].toUserId) == userId
            && old(db.requests[requestId].status) != RequestStatus.Pending
            ==> r == Err(NOT_PENDING)
    ensures r.Err? ==> db.requests == old(db.requests)
    ensures r.Ok? ==>
              var q := old(db.requests[requestId]);
              && r.value == q.(status := RequestStatus.Rejected)
              && db.requests == old(db.requests)[requestId := r.value]
              && (OnlyPendingOfItsPair(old(db.requests), requestId)
                  ==> ConnectionStatus.Pending !in PossibleStatuses(db.connections, db.requests, q.fromUserId, q.toUserId))
  {
    var requestOpt := db.FindRequestById(requestId);
    if requestOpt.None? {
      return Err(REQUEST_NOT_FOUND);
    }
    var request := requestOpt.value;
    if request.toUserId != userId {
      return Err(UNAUTHORIZED_REJECT);
    }
    if request.status != RequestStatus.Pending {
      return Err(NOT_PENDING);
    }
    var rejected := request.(status := RequestStatus.Rejected);
    db.UpdateRequest(rejected);
    if OnlyPendingOfItsPair(old(db.requests), requestId) {
      RejectedPairIsNotPending(db.connections, old(db.requests), requestId);
    }
    r := Ok(rejected);
  }

  /** `getPendingRequests(u)`: exactly the PENDING requests addressed to u,
      as many as the profile's `requestsCount`. */
  function GetPendingRequests(reqs: seq<ConnectionRequest>, u: UserId): (r: seq<ConnectionRequest>)
    ensures forall x :: x in r <==> x in reqs && x.toUserId == u && x.status == RequestStatus.Pending
    ensures |r| == CountByToUserIdAndStatus(reqs, u, RequestStatus.Pending)
  {
    FindByToUserIdAndStatus(reqs, u, RequestStatus.Pending)
  }

  /** The user summary `getRecentUsers` returns; `createdAt` is kept as the
      stored time stamp rather than its ISO text. */
  datatype UserProfileDto = UserProfileDto(userId: UserId, firstName: string, lastName: string,
                                           email: string, profile: Option<Profile>, createdAt: int)

  function ToDto(u: UserDoc): UserProfileDto {
    UserProfileDto(u.id, u.firstName, u.lastName, u.email, u.profile, u.createdAt)
  }

  /** Every stored user except the current one, in store order. */
  function OtherUsers(users: seq<UserDoc>, currentUserId: UserId): (r: seq<UserDoc>)
    ensures forall u :: u in r <==> u in users && u.id != currentUserId
  {
    if users == [] then []
    else if users[0].id == currentUserId then OtherUsers(users[1..], currentUserId)
    else [users[0]] + OtherUsers(users[1..], currentUserId)
  }

  ghost predicate NewestFirst(s: seq<UserDoc>) {
    forall i, j :: 0 <= i < j < |s| ==> s[i].createdAt >= s[j].createdAt
  }

  /** Puts `x` before the first element no newer than it, so that among equal
      time stamps the earlier element stays first. */
  function InsertNewest(x: UserDoc, s: seq<UserDoc>): (r: seq<UserDoc>)
    requires NewestFirst(s)
    ensures NewestFirst(r)
    ensures multiset(r) == multiset(s) + multiset{x}
  {
    if s == [] || s[0].createdAt <= x.createdAt then [x] + s
    else
      var rest := InsertNewest(x, s[1..]);
      InsertBehindHead(x, s, rest);
      [s[0]] + rest
  }

  /** The step of `InsertNewest` that keeps the head in front. */
  lemma InsertBehindHead(x: UserDoc, s: seq<UserDoc>, rest: seq<UserDoc>)
    requires s != [] && s[0].createdAt > x.createdAt
    requires NewestFirst(s) && NewestFirst(rest)
    requires multiset(rest) == multiset(s[1..]) + multiset{x}
    ensures NewestFirst([s[0]] + rest)
    ensures multiset([s[0]] + rest) == multiset(s) + multiset{x}
  {
    assert s == [s[0]] + s[1..];
    forall k | 0 <= k < |rest|
      ensures rest[k].createdAt <= s[0].createdAt
    {
      assert rest[k] in multiset(rest);
      if rest[k] != x {
        assert rest[k] in multiset(s[1..]);
        var j :| 0 <= j < |s[1..]| && s[1..][j] == rest[k];
        assert s[j + 1] == rest[k];
      }
    }
    var r := [s[0]] + rest;
    forall i, j | 0 <= i < j < |r|
      ensures r[i].createdAt >= r[j].createdAt
    {
      if i > 0 {
        assert r[i] == rest[i - 1] && r[j] == rest[j - 1];
      } else {
        assert r[j] == rest[j - 1];
      }
    }
  }

  /** The comparator `u2.createdAt.compareTo(u1.createdAt)`: newest first. */
  function SortNewestFirst(s: seq<UserDoc>): (r: seq<UserDoc>)
    ensures NewestFirst(r)
    ensures multiset(r) == multiset(s)
  {
    if s == [] then []
    else
      assert s == [s[0]] + s[1..];
      InsertNewest(s[0], SortNewestFirst(s[1..]))
  }

  /** The `limit(3)` step: at most three, the first of the list. */
  function FirstThree(s: seq<UserDoc>): (top: seq<UserDoc>)
    ensures |top| == if |s| < 3 then |s| else 3
    ensures top == s[..|top|]
  {
    if |s| <= 3 then s else s[..3]
  }

  /** A user left out of the first three of a newest-first list is no newer than the third. */
  lemma FirstThreeAreNewest(sorted: seq<UserDoc>, u: UserDoc)
    requires NewestFirst(sorted) && u in sorted
    ensures NewestFirst(FirstThree(sorted))
    ensures var top := FirstThree(sorted); u in top || (|top| == 3 && u.createdAt <= top[2].createdAt)
  {
    var top := FirstThree(sorted);
    var k :| 0 <= k < |sorted| && sorted[k] == u;
    if k >= 3 {
      assert sorted[2].createdAt >= sorted[k].createdAt;
    } else {
      assert top[k] == u;
    }
  }

  /** The first three of a newest-first arrangement of the other users: as
      many as there are (up to three), each another user, still newest first,
      and no other user is newer than the third. */
  lemma TopOfSorted(users: seq<UserDoc>, currentUserId: UserId, sorted: seq<UserDoc>)
    requires NewestFirst(sorted)
    requires multiset(sorted) == multiset(OtherUsers(users, currentUserId))
    ensures var top := FirstThree(sorted); var n := |OtherUsers(users, currentUserId)|;
            |top| == if n < 3 then n else 3
    ensures var top := FirstThree(sorted);
            forall k :: 0 <= k < |top| ==> top[k] in users && top[k].id != currentUserId
    ensures NewestFirst(FirstThree(sorted))
    ensures var top := FirstThree(sorted);
            forall u :: u in users && u.id != currentUserId
              ==> u in top || (|top| == 3 && u.createdAt <= top[2].createdAt)
    ensures multiset(FirstThree(sorted)) <= multiset(OtherUsers(users, currentUserId))
  {
    var others := OtherUsers(users, currentUserId);
    assert |sorted| == |multiset(sorted)| == |multiset(others)| == |others|;
    TopAreOthers(users, currentUserId, sorted);
    TopCoversOthers(users, currentUserId, sorted);
    var top := FirstThree(sorted);
    assert sorted == top + sorted[|top|..];
  }

  lemma TopAreOthers(users: seq<UserDoc>, currentUserId: UserId, sorted: seq<UserDoc>)
    requires multiset(sorted) == multiset(OtherUsers(users, currentUserId))
    ensures var top := FirstThree(sorted);
            forall k :: 0 <= k < |top| ==> top[k] in users && top[k].id != currentUserId
  {
    var top := FirstThree(sorted);
    forall k | 0 <= k < |top|
      ensures top[k] in users && top[k].id != currentUserId
    {
      assert top[k] == sorted[k] && sorted[k] in multiset(OtherUsers(users, currentUserId));
    }
  }

  lemma TopCoversOthers(users: seq<UserDoc>, currentUserId: UserId, sorted: seq<UserDoc>)
    requires NewestFirst(sorted)
    requires multiset(sorted) == multiset(OtherUsers(users, currentUserId))
    ensures NewestFirst(FirstThree(sorted))
    ensures var top := FirstThree(sorted);
            forall u :: u in users && u.id != currentUserId
              ==> u in top || (|top| == 3 && u.createdAt <= top[2].createdAt)
  {
    var top := FirstThree(sorted);
    forall u | u in users && u.id != currentUserId
      ensures u in top || (|top| == 3 && u.createdAt <= top[2].createdAt)
    {
      assert u in OtherUsers(users, currentUserId);
      assert u in multiset(sorted);
      FirstThreeAreNewest(sorted, u);
    }
    assert NewestFirst(top);
  }

  /** The `filter`, `sorted` and `limit(3)` steps of `getRecentUsers`. */
  function NewestOthers(users: seq<UserDoc>, currentUserId: UserId): (top: seq<UserDoc>)
    ensures var n := |OtherUsers(users, currentUserId)|; |top| == if n < 3 then n else 3
    ensures forall k :: 0 <= k < |top| ==> top[k] in users && top[k].id != currentUserId
    ensures NewestFirst(top)
    ensures forall u :: u in users && u.id != currentUserId
              ==> u in top || (|top| == 3 && u.createdAt <= top[2].createdAt)
    ensures multiset(top) <= multiset(OtherUsers(users, currentUserId))
  {
    var sorted := SortNewestFirst(OtherUsers(users, currentUserId));
    TopOfSorted(users, currentUserId, sorted);
    FirstThree(sorted)
  }

  function ToDtos(s: seq<UserDoc>): (r: seq<UserProfileDto>)
    ensures |r| == |s|
    ensures forall k :: 0 <= k < |s| ==> r[k] == ToDto(s[k])
  {
    if s == [] then [] else [ToDto(s[0])] + ToDtos(s[1..])
  }

  /** Converting the chosen users keeps their order, their time stamps and
      who they are. */
  lemma DtosOfNewest(users: seq<UserDoc>, currentUserId: UserId)
    ensures var top := NewestOthers(users, currentUserId); var r := ToDtos(top);
            forall u :: u in users && u.id != currentUserId
              ==> ToDto(u) in r || (|r| == 3 && u.createdAt <= r[2].createdAt)
    ensures var r := ToDtos(NewestOthers(users, currentUserId));
            forall i :: 0 <= i < |r| ==>
              r[i].userId != currentUserId && exists u :: u in users && u.id != currentUserId && r[i] == ToDto(u)
  {
    var top := NewestOthers(users, currentUserId);
    var r := ToDtos(top);
    forall u | u in users && u.id != currentUserId
      ensures ToDto(u) in r || (|r| == 3 && u.createdAt <= r[2].createdAt)
    {
      if u in top {
        var k :| 0 <= k < |top| && top[k] == u;
        assert r[k] == ToDto(u);
      }
    }
    forall i | 0 <= i < |r|
      ensures r[i].userId != currentUserId && exists u :: u in users && u.id != currentUserId && r[i] == ToDto(u)
    {
      assert top[i] in users && r[i] == ToDto(top[i]);
    }
  }

  /** `getRecentUsers(currentUserId)`: the three most recently created other
      users, newest first (fewer when fewer exist), each stored user at most
      as often as it is stored. */
  function GetRecentUsers(users: seq<UserDoc>, currentUserId: UserId): (r: seq<UserProfileDto>)
    ensures exists top :: multiset(top) <= multiset(OtherUsers(users, currentUserId)) && r == ToDtos(top)
    ensures var n := |OtherUsers(users, currentUserId)|; |r| == if n < 3 then n else 3
    ensures forall i :: 0 <= i < |r| ==>
              r[i].userId != currentUserId && exists u :: u in users && u.id != currentUserId && r[i] == ToDto(u)
    ensures forall i, j :: 0 <= i < j < |r| ==> r[i].createdAt >= r[j].createdAt
    ensures forall u :: u in users && u.id != currentUserId
              ==> ToDto(u) in r || (|r| == 3 && u.createdAt <= r[2].createdAt)
  {
    DtosOfNewest(users, currentUserId);
    var top := NewestOthers(users, currentUserId);
    var r := ToDtos(top);
    assert multiset(top) <= multiset(OtherUsers(users, currentUserId)) && r == ToDtos(top);
    r
  }
}
