/**
 * The request handlers over a mutable document store. Each handler reads
 * what it needs, decides with the rules, and then makes its writes one by
 * one; its postcondition ties the new store to the step of Operations.
 */
module Store {
  import opened Model
  import opened Rules
  import opened Operations

  class ChallengeStore {
    var users: map<UserId, User>
    var challenges: map<ChallengeId, Challenge>
    /** The natural order of the challenges collection. */
    var order: seq<ChallengeId>
    var userChallenges: map<(UserId, ChallengeId), UserChallenge>
    /** Maintained outside this system; the handlers only read it. */
    const globalRanking: map<UserId, int>

    function State(): Db
      reads this
    {
      Db(users, challenges, order, userChallenges, globalRanking)
    }

    ghost predicate Valid()
      reads this
    {
      WellFormed(State())
    }

    constructor (ranking: map<UserId, int>)
      ensures Valid() && Invariant(State())
      ensures users == map[] && challenges == map[] && order == [] && userChallenges == map[]
      ensures globalRanking == ranking
    {
      users, challenges, order, userChallenges := map[], map[], [], map[];
      globalRanking := ranking;
      new;
      EmptyInvariant(ranking);
    }

    /** GET /api/challenges/active?userId=... */
    function ActiveChallenges(userId: UserId): (r: seq<(ChallengeId, Challenge)>)
      requires Valid()
      reads this
      ensures forall i :: 0 <= i < |r| ==>
        r[i].0 in challenges && challenges[r[i].0] == r[i].1 && Listed(r[i].1, UserOrDefault(users, userId))
      ensures forall id :: id in challenges && Listed(challenges[id], UserOrDefault(users, userId)) ==>
        (id, challenges[id]) in r
      ensures IsSubsequence(r, Documents(order, challenges))
    {
      var docs := Documents(order, challenges);
      var r := ListActive(docs, UserOrDefault(users, userId));
      assert forall id :: id in challenges ==> exists i :: 0 <= i < |order| && order[i] == id;
      r
    }

    /** GET /api/user/profile/:userId: a view of the store that writes nothing. */
    function ProfileOf(userId: UserId): (p: ProfileView)
      reads this
      ensures p.user == UserOrDefault(users, userId)
      ensures p.friendCount == |p.user.friends| && p.subCount == |p.user.subscriptions|
      ensures p.globalRank == (if userId in globalRanking then globalRanking[userId] else 0)
    {
      Profile(users, globalRanking, userId)
    }

    /** POST /api/challenges/join. */
    method Join(challengeId: ChallengeId, userId: UserId, now: Millis) returns (outcome: JoinOutcome)
      requires Valid()
      modifies this
      ensures Valid()
      ensures Step(State(), outcome) == JoinStep(old(State()), challengeId, userId, now)
      ensures !outcome.Joined? ==> unchanged(this)
      ensures Invariant(old(State())) ==> Invariant(State())
    {
      if Invariant(State()) {
        JoinPreservesInvariant(State(), challengeId, userId, now);
      }
      if challengeId !in challenges {
        return ChallengeNotFound;
      }
      var challenge := challenges[challengeId];
      var user := UserOrDefault(users, userId);
      var verdict := JoinCheck(challenge, user, now);
      if verdict.Some? {
        return JoinRejected(verdict.value);
      }
      challenges := challenges[challengeId := challenge.(participants := challenge.participants + [JoinEntry(userId, now)])];
      users := users[userId := user.(challengesJoined := user.challengesJoined + 1)];
      userChallenges := userChallenges[(userId, challengeId) := JoinRecord(userId, challengeId)];
      outcome := Joined;
    }

    /** Write a challenge document under `id`. */
    method Put(id: ChallengeId, c: Challenge)
      requires Valid()
      modifies this
      ensures Valid()
      ensures State() == PutChallenge(old(State()), id, c)
    {
      PutPreservesWellFormed(State(), id, c);
      if id !in challenges {
        order := order + [id];
      }
      challenges := challenges[id := c];
    }

    /**
     * POST /api/challenges/create. `newId` is the id the store generated for
     * the new document.
     */
    method Create(title: string, userId: UserId, friends: seq<UserId>, newId: ChallengeId, now: Millis) returns (outcome: CreateOutcome)
      requires Valid()
      modifies this
      ensures Valid()
      ensures Step(State(), outcome) == CreateStep(old(State()), title, userId, friends, newId, now)
      ensures outcome == CreateLimitExceeded ==> unchanged(this)
      ensures Invariant(old(State())) && newId !in old(challenges) ==> Invariant(State())
    {
      if Invariant(State()) && newId !in challenges {
        CreatePreservesInvariant(State(), title, userId, friends, newId, now);
      }
      var user := UserOrDefault(users, userId);
      if !CreateAllowed(user) {
        return CreateLimitExceeded;
      }
      Put(newId, NewUserChallenge(title, userId, friends, now));
      users := users[userId := user.(challengesCreated := user.challengesCreated + 1)];
      outcome := Created(newId);
    }

    /** POST /api/admin/main-challenge, with the configured admin id. */
    method CreateMain(title: string, requesterId: UserId, adminId: UserId, newId: ChallengeId, now: Millis) returns (outcome: AdminOutcome)
      requires Valid()
      modifies this
      ensures Valid()
      ensures Step(State(), outcome) == AdminStep(old(State()), title, requesterId, adminId, newId, now)
      ensures outcome == NotAdmin ==> unchanged(this)
      ensures users == old(users) && userChallenges == old(userChallenges)
      ensures Invariant(old(State())) && newId !in old(challenges) ==> Invariant(State())
    {
      if Invariant(State()) && newId !in challenges {
        AdminPreservesInvariant(State(), title, requesterId, adminId, newId, now);
      }
      if requesterId != adminId {
        return NotAdmin;
      }
      Put(newId, NewMainChallenge(title, requesterId, now));
      outcome := MainCreated(newId);
    }
  }
}
