/** The MongoDB repositories the services share (`UserRepository`,
    `ConnectionRequestRepository`, `ConnectionRepository`), as one in-memory
    store. Nothing is ever deleted, so the database assigns each new document
    the next index as its id. */
module Repositories {
  import opened Wrappers
  import opened UserModel

  type RequestId = nat

  /** The `status` strings "PENDING", "ACCEPTED" and "REJECTED". */
  datatype RequestStatus = Pending | Accepted | Rejected

  datatype ConnectionRequest = ConnectionRequest(
    id: RequestId,
    fromUserId: UserId,
    toUserId: UserId,
    message: Option<string>,
    status: RequestStatus)

  datatype Connection = Connection(user1Id: UserId, user2Id: UserId, connectionRequestId: RequestId)

  /** The criteria of the derived query `findByUser1IdAndUser2IdOrUser1IdAndUser2Id`,
      whose four arguments bind by position: (user1Id = p0 and user2Id = p1) or
      (user1Id = p2 and user2Id = p3). */
  predicate MatchesEitherPair(c: Connection, p0: UserId, p1: UserId, p2: UserId, p3: UserId) {
    (c.user1Id == p0 && c.user2Id == p1) || (c.user1Id == p2 && c.user2Id == p3)
  }

  /** `findConnectionBetweenUsers(a, b).isPresent()`; the default method passes
      `(a, b, a, b)`, so both alternatives of the query are the same one. */
  predicate FindConnectionBetweenUsers(conns: seq<Connection>, a: UserId, b: UserId): (found: bool)
    ensures found ==> CountConnectionsForUser(conns, a) > 0 && CountConnectionsForUser(conns, b) > 0
  {
    exists i :: 0 <= i < |conns| && MatchesEitherPair(conns[i], a, b, a, b)
  }

  /** The lookup is directional: it finds only connections stored as a -> b. */
  lemma ConnectionLookupIsDirectional(conns: seq<Connection>, a: UserId, b: UserId)
    ensures FindConnectionBetweenUsers(conns, a, b)
        <==> exists c :: c in conns && c.user1Id == a && c.user2Id == b
  {
    if exists c :: c in conns && c.user1Id == a && c.user2Id == b {
      var c :| c in conns && c.user1Id == a && c.user2Id == b;
      var i :| 0 <= i < |conns| && conns[i] == c;
      assert MatchesEitherPair(conns[i], a, b, a, b);
    }
  }

  /** A connection stored as 1 -> 2 is not found when looking up 2 -> 1. */
  lemma ConnectionLookupIsNotSymmetric()
    ensures FindConnectionBetweenUsers([Connection(1, 2, 0)], 1, 2)
    ensures !FindConnectionBetweenUsers([Connection(1, 2, 0)], 2, 1)
  {
    assert MatchesEitherPair([Connection(1, 2, 0)][0], 1, 2, 1, 2);
  }

  /** `countConnectionsForUser`: connections with the user on either side. */
  function CountConnectionsForUser(conns: seq<Connection>, u: UserId): (n: nat)
    ensures n <= |conns|
    ensures n == 0 <==> forall k :: 0 <= k < |conns| ==> conns[k].user1Id != u && conns[k].user2Id != u
  {
    if conns == [] then 0
    else
      var init := conns[..|conns| - 1];
      assert forall k :: 0 <= k < |init| ==> init[k] == conns[k];
      CountConnectionsForUser(init, u)
      + (if conns[|conns| - 1].user1Id == u || conns[|conns| - 1].user2Id == u then 1 else 0)
  }

  /** A new connection a -> b counts once for a and once for b, and for nobody else. */
  lemma CountAfterConnect(conns: seq<Connection>, c: Connection, u: UserId)
    ensures CountConnectionsForUser(conns + [c], u)
         == CountConnectionsForUser(conns, u) + (if u == c.user1Id || u == c.user2Id then 1 else 0)
  {
    assert (conns + [c])[..|conns|] == conns;
  }

  /** `countByToUserIdAndStatus`. */
  function CountByToUserIdAndStatus(reqs: seq<ConnectionRequest>, u: UserId, st: RequestStatus): nat {
    if reqs == [] then 0
    else CountByToUserIdAndStatus(reqs[..|reqs| - 1], u, st)
         + (if reqs[|reqs| - 1].toUserId == u && reqs[|reqs| - 1].status == st then 1 else 0)
  }

  /** `findByToUserIdAndStatus`: the matching requests, in store order. */
  function FindByToUserIdAndStatus(reqs: seq<ConnectionRequest>, u: UserId, st: RequestStatus): (r: seq<ConnectionRequest>)
    ensures forall x :: x in r <==> x in reqs && x.toUserId == u && x.status == st
    ensures |r| == CountByToUserIdAndStatus(reqs, u, st)
  {
    if reqs == [] then []
    else
      var last := reqs[|reqs| - 1];
      assert reqs == reqs[..|reqs| - 1] + [last];
      FindByToUserIdAndStatus(reqs[..|reqs| - 1], u, st) + (if last.toUserId == u && last.status == st then [last] else [])
  }

  /** The candidates of `findByFromUserIdAndToUserId(from, to)`, in store order. */
  function MatchesFromTo(reqs: seq<ConnectionRequest>, from: UserId, to: UserId): (r: seq<ConnectionRequest>)
    ensures forall x :: x in r <==> x in reqs && x.fromUserId == from && x.toUserId == to
  {
    if reqs == [] then []
    else
      var last := reqs[|reqs| - 1];
      assert reqs == reqs[..|reqs| - 1] + [last];
      MatchesFromTo(reqs[..|reqs| - 1], from, to) + (if last.fromUserId == from && last.toUserId == to then [last] else [])
  }

  /** Some request from -> to is still PENDING. */
  predicate HasPendingFromTo(reqs: seq<ConnectionRequest>, from: UserId, to: UserId) {
    exists x :: x in reqs && x.fromUserId == from && x.toUserId == to && x.status == Pending
  }

  /** `existsByEmail`: an exact, case-sensitive comparison. */
  predicate ExistsByEmail(users: seq<UserDoc>, email: string) {
    exists u :: u in users && u.email == email
  }

  /** The stored onboarding step, where there is one, is within 1..4. */
  predicate StepInRange(ob: Option<Onboarding>) {
    ob.None? || ob.value.step.None? || 1 <= ob.value.step.value <= 4
  }

  class Store {
    var users: seq<UserDoc>
    var requests: seq<ConnectionRequest>
    var connections: seq<Connection>

    /** Ids are handed out in order, so a document's id is its index. */
    ghost predicate Valid()
      reads this
    {
      && (forall i :: 0 <= i < |users| ==> users[i].id == i)
      && (forall i :: 0 <= i < |requests| ==> requests[i].id == i)
    }

    /** Every stored onboarding step lies within 1..4. */
    ghost predicate StepsInRange()
      reads this
    {
      forall i :: 0 <= i < |users| ==> StepInRange(users[i].onboarding)
    }

    constructor ()
      ensures Valid() && StepsInRange()
      ensures users == [] && requests == [] && connections == []
    {
      users, requests, connections := [], [], [];
    }

    /** `userRepository.findById(id)`. */
    function FindUserById(id: UserId): (r: Option<UserDoc>)
      reads this
      requires Valid()
      ensures r.Some? <==> exists u :: u in users && u.id == id
      ensures r.Some? ==> r.value in users && r.value.id == id
    {
      if id < |users| then Some(users[id]) else None
    }

    /** `connectionRequestRepository.findById(id)`. */
    function FindRequestById(id: RequestId): (r: Option<ConnectionRequest>)
      reads this
      requires Valid()
      ensures r.Some? <==> exists x :: x in requests && x.id == id
      ensures r.Some? ==> r.value in requests && r.value.id == id
    {
      if id < |requests| then Some(requests[id]) else None
    }

    /** `findByFromUserIdAndToUserId`: returns one of the matching requests,
        chosen by the database; the model fixes no order among them. */
    method FindByFromUserIdAndToUserId(from: UserId, to: UserId) returns (found: Option<ConnectionRequest>)
      ensures found.None? <==> MatchesFromTo(requests, from, to) == []
      ensures found.Some? ==> found.value in MatchesFromTo(requests, from, to)
    {
      var m := MatchesFromTo(requests, from, to);
      if m == [] {
        found := None;
      } else {
        var k :| 0 <= k < |m|;
        found := Some(m[k]);
      }
    }

    /** `findByEmail`: one of the users stored with exactly this email. */
    method FindByEmail(email: string) returns (found: Option<UserDoc>)
      ensures found.None? <==> !ExistsByEmail(users, email)
      ensures found.Some? ==> found.value in users && found.value.email == email
    {
      if ExistsByEmail(users, email) {
        var u :| u in users && u.email == email;
        found := Some(u);
      } else {
        found := None;
      }
    }

    /** `userRepository.save` of a user without an id: inserts it under the next id. */
    method InsertUser(u: User) returns (id: UserId)
      requires Valid()
      modifies this`users, u`id
      ensures Valid()
      ensures id == |old(users)| && u.id == Some(id)
      ensures users == old(users) + [u.Doc()]
      ensures StepsInRange() <==> old(StepsInRange()) && StepInRange(u.onboarding)
    {
      id := |users|;
      u.id := Some(id);
      users := users + [u.Doc()];
      assert users[id].onboarding == u.onboarding;
      assert forall i :: 0 <= i < id ==> users[i] == old(users)[i];
    }

    /** `userRepository.save` of a user loaded from the store: replaces its document. */
    method UpdateUser(u: User)
      requires Valid() && u.id.Some? && u.id.value < |users|
      modifies this`users
      ensures Valid()
      ensures users == old(users)[u.id.value := u.Doc()]
    {
      users := users[u.id.value := u.Doc()];
    }

    /** `connectionRequestRepository.save` of a new request: stored under the next id. */
    method InsertRequest(from: UserId, to: UserId, message: Option<string>, status: RequestStatus)
      returns (saved: ConnectionRequest)
      requires Valid()
      modifies this`requests
      ensures Valid()
      ensures saved == ConnectionRequest(|old(requests)|, from, to, message, status)
      ensures requests == old(requests) + [saved]
    {
      saved := ConnectionRequest(|requests|, from, to, message, status);
      requests := requests + [saved];
    }

    /** `connectionRequestRepository.save` of a request read from the store. */
    method UpdateRequest(r: ConnectionRequest)
      requires Valid() && r.id < |requests|
      modifies this`requests
      ensures Valid()
      ensures requests == old(requests)[r.id := r]
    {
      requests := requests[r.id := r];
    }

    /** `connectionRepository.save` of a new connection. */
    method InsertConnection(c: Connection)
      modifies this`connections
      ensures connections == old(connections) + [c]
    {
      connections := connections + [c];
    }
  }
}
