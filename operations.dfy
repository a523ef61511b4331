/**
 * Each state-changing handler as one atomic step on the whole store: the
 * writes it makes, or none when it rejects. The invariants at the end are
 * the counters' meaning: a user's challengesCreated is the number of user
 * challenges they created, and no counter passes its limit.
 */
module Operations {
  import opened Model
  import opened Rules

  /** The store after a handler ran, and what it answered. */
  datatype Step<O> = Step(db: Db, outcome: O)

  datatype JoinOutcome = Joined | JoinRejected(why: JoinRejection) | ChallengeNotFound

  datatype CreateOutcome =
    | Created(challengeId: ChallengeId)
    | CreateLimitExceeded
      // the challenge was written but the counter update failed
    | CounterUpdateFailed(challengeId: ChallengeId)

  datatype AdminOutcome = MainCreated(challengeId: ChallengeId) | NotAdmin

  /** Write a challenge document; a new id joins the collection's order at the end. */
  function PutChallenge(db: Db, id: ChallengeId, c: Challenge): Db {
    db.(challenges := db.challenges[id := c],
        order := if id in db.challenges then db.order else db.order + [id])
  }

  // ---------------------------------------------------------------- join

  /**
   * POST /api/challenges/join. A missing challenge makes the handler fail
   * before any write. A join that passes the checks appends the user to the
   * participants, counts the join on the user (creating the document when
   * there is none) and overwrites the pair's join record.
   */
  function JoinStep(db: Db, challengeId: ChallengeId, userId: UserId, now: Millis): (r: Step<JoinOutcome>)
    ensures r.outcome == ChallengeNotFound <==> challengeId !in db.challenges
    ensures r.outcome == JoinRejected(DeadlinePassed) <==>
      challengeId in db.challenges && now > db.challenges[challengeId].joinDeadline
    ensures challengeId in db.challenges ==>
      (r.outcome == Joined <==> JoinCheck(db.challenges[challengeId], UserOrDefault(db.users, userId), now) == None)
    // a failed check is answered with that check's reason
    ensures challengeId in db.challenges && JoinCheck(db.challenges[challengeId], UserOrDefault(db.users, userId), now).Some? ==>
      r.outcome == JoinRejected(JoinCheck(db.challenges[challengeId], UserOrDefault(db.users, userId), now).value)
    // every rejection returns before the first write
    ensures !r.outcome.Joined? ==> r.db == db
    ensures r.outcome.Joined? ==>
      var before := db.challenges[challengeId];
      var user := UserOrDefault(db.users, userId);
      && challengeId in db.challenges
      // one participant more, the rest of the challenge as it was
      && r.db.challenges.Keys == db.challenges.Keys
      && r.db.challenges[challengeId] == before.(participants := before.participants + [Participant(userId, 0, Some(now))])
      && |r.db.challenges[challengeId].participants| == |before.participants| + 1
      && (forall id :: id in db.challenges && id != challengeId ==> r.db.challenges[id] == db.challenges[id])
      // the join is counted on the user, nothing else about them changes
      && r.db.users.Keys == db.users.Keys + {userId}
      && r.db.users[userId] == user.(challengesJoined := user.challengesJoined + 1)
      && (forall u :: u in db.users && u != userId ==> r.db.users[u] == db.users[u])
      // the pair's record is reset; other records are kept
      && (userId, challengeId) in r.db.userChallenges
      && r.db.userChallenges[(userId, challengeId)] == UserChallenge(challengeId, userId, [], true)
      && (forall k :: k in db.userChallenges && k != (userId, challengeId) ==> k in r.db.userChallenges && r.db.userChallenges[k] == db.userChallenges[k])
      && r.db.userChallenges.Keys == db.userChallenges.Keys + {(userId, challengeId)}
      && r.db.order == db.order && r.db.globalRanking == db.globalRanking
  {
    if challengeId !in db.challenges then Step(db, ChallengeNotFound)
    else
      var challenge := db.challenges[challengeId];
      var user := UserOrDefault(db.users, userId);
      match JoinCheck(challenge, user, now)
      case Some(why) => Step(db, JoinRejected(why))
      case None =>
        Step(db.(challenges := db.challenges[challengeId := challenge.(participants := challenge.participants + [JoinEntry(userId, now)])],
                 users := db.users[userId := user.(challengesJoined := user.challengesJoined + 1)],
                 userChallenges := db.userChallenges[(userId, challengeId) := JoinRecord(userId, challengeId)]),
             Joined)
  }

  /**
   * A user with no document can join two open non-main challenges, one after
   * the other, and is then stopped by the join limit.
   */
  lemma NewUserJoinsAtMostTwo(db: Db, c1: ChallengeId, c2: ChallengeId, c3: ChallengeId, userId: UserId, now: Millis)
    requires userId !in db.users
    requires c1 in db.challenges && c2 in db.challenges && c3 in db.challenges
    requires db.challenges[c1].kind == UserType && now <= db.challenges[c1].joinDeadline
    requires db.challenges[c2].kind == UserType && now <= db.challenges[c2].joinDeadline
    requires db.challenges[c3].kind == UserType && now <= db.challenges[c3].joinDeadline
    ensures var s1 := JoinStep(db, c1, userId, now);
      var s2 := JoinStep(s1.db, c2, userId, now);
      var s3 := JoinStep(s2.db, c3, userId, now);
      && s1.outcome == Joined && s2.outcome == Joined
      && s3.outcome == JoinRejected(JoinLimitExceeded) && s3.db == s2.db
      && s2.db.users[userId].challengesJoined == JoinLimit
  {
  }

  // -------------------------------------------------------------- create

  /**
   * POST /api/challenges/create, with the creator's counter raised the way
   * the join handler raises its counter: a merge that creates the user
   * document when there is none.
   */
  function CreateStep(db: Db, title: string, userId: UserId, friends: seq<UserId>, newId: ChallengeId, now: Millis): (r: Step<CreateOutcome>)
    ensures r.outcome == CreateLimitExceeded <==>
      UserOrDefault(db.users, userId).challengesCreated >= CreateLimit(UserOrDefault(db.users, userId).premium)
    ensures r.outcome == CreateLimitExceeded || r.outcome == Created(newId)
    ensures r.outcome == CreateLimitExceeded ==> r.db == db
    ensures r.outcome.Created? ==>
      var user := UserOrDefault(db.users, userId);
      && r.db.challenges.Keys == db.challenges.Keys + {newId}
      && r.db.challenges[newId] == NewUserChallenge(title, userId, friends, now)
      && (forall id :: id in db.challenges && id != newId ==> r.db.challenges[id] == db.challenges[id])
      && r.db.users.Keys == db.users.Keys + {userId}
      && r.db.users[userId] == user.(challengesCreated := user.challengesCreated + 1)
      && (forall u :: u in db.users && u != userId ==> r.db.users[u] == db.users[u])
      && r.db.userChallenges == db.userChallenges && r.db.globalRanking == db.globalRanking
      && (newId !in db.challenges ==> r.db.order == db.order + [newId])
      && (newId in db.challenges ==> r.db.order == db.order)
  {
    var user := UserOrDefault(db.users, userId);
    if !CreateAllowed(user) then Step(db, CreateLimitExceeded)
    else
      var db' := PutChallenge(db, newId, NewUserChallenge(title, userId, friends, now));
      Step(db'.(users := db.users[userId := user.(challengesCreated := user.challengesCreated + 1)]), Created(newId))
  }

  /**
   * The create handler as written: the counter is raised with an update,
   * which fails when the user has no document, after the challenge has
   * already been written.
   */
  function CreateStepAsWritten(db: Db, title: string, userId: UserId, friends: seq<UserId>, newId: ChallengeId, now: Millis): (r: Step<CreateOutcome>)
    ensures userId in db.users ==> r == CreateStep(db, title, userId, friends, newId, now)
    ensures userId !in db.users ==>
      && r.outcome == CounterUpdateFailed(newId)
      && r.db.users == db.users
      && r.db.challenges == db.challenges[newId := NewUserChallenge(title, userId, friends, now)]
      && r.db.userChallenges == db.userChallenges && r.db.globalRanking == db.globalRanking
      && (newId !in db.challenges ==> r.db.order == db.order + [newId])
      && (newId in db.challenges ==> r.db.order == db.order)
  {
    var user := UserOrDefault(db.users, userId);
    if !CreateAllowed(user) then Step(db, CreateLimitExceeded)
    else
      var db' := PutChallenge(db, newId, NewUserChallenge(title, userId, friends, now));
      if userId in db.users then
        Step(db'.(users := db.users[userId := user.(challengesCreated := user.challengesCreated + 1)]), Created(newId))
      else
        Step(db', CounterUpdateFailed(newId))
  }

  // --------------------------------------------------------------- admin

  /**
   * POST /api/admin/main-challenge: only the configured admin may create a
   * main challenge; no limit applies and no user document changes.
   */
  function AdminStep(db: Db, title: string, requesterId: UserId, adminId: UserId, newId: ChallengeId, now: Millis): (r: Step<AdminOutcome>)
    ensures r.outcome == NotAdmin <==> requesterId != adminId
    ensures r.outcome == NotAdmin ==> r.db == db
    ensures r.outcome.MainCreated? ==>
      && r.outcome.challengeId == newId
      && r.db.challenges.Keys == db.challenges.Keys + {newId}
      && r.db.challenges[newId] == NewMainChallenge(title, requesterId, now)
      && r.db.challenges[newId].participants == []
      && (forall id :: id in db.challenges && id != newId ==> r.db.challenges[id] == db.challenges[id])
      && r.db.users == db.users && r.db.userChallenges == db.userChallenges
      && r.db.globalRanking == db.globalRanking
      && (newId !in db.challenges ==> r.db.order == db.order + [newId])
      && (newId in db.challenges ==> r.db.order == db.order)
  {
    if requesterId != adminId then Step(db, NotAdmin)
    else Step(PutChallenge(db, newId, NewMainChallenge(title, requesterId, now)), MainCreated(newId))
  }

  // ---------------------------------------------------------- invariants

  /** The user challenges (not main ones) that `userId` created. */
  function CreatedBy(challenges: map<ChallengeId, Challenge>, userId: UserId): set<ChallengeId>
  {
    set id | id in challenges && challenges[id].kind == UserType && challenges[id].createdBy == userId
  }

  /** Every user's creation counter counts the user challenges they created. */
  ghost predicate CreatedCountsAgree(db: Db) {
    forall u :: |CreatedBy(db.challenges, u)| == UserOrDefault(db.users, u).challengesCreated
  }

  /** No stored counter is past its limit. */
  ghost predicate WithinLimits(db: Db) {
    forall u :: u in db.users ==>
      && db.users[u].challengesCreated <= CreateLimit(db.users[u].premium)
      && (!db.users[u].premium ==> db.users[u].challengesJoined <= JoinLimit)
  }

  ghost predicate Invariant(db: Db) {
    WellFormed(db) && CreatedCountsAgree(db) && WithinLimits(db)
  }

  /** The empty store satisfies the invariant. */
  lemma EmptyInvariant(ranking: map<UserId, int>)
    ensures Invariant(Db(map[], map[], [], map[], ranking))
  {
  }

  /** Under the invariant nobody has created more user challenges than their limit. */
  lemma CreatedWithinLimit(db: Db, userId: UserId)
    requires Invariant(db)
    ensures |CreatedBy(db.challenges, userId)| <= CreateLimit(UserOrDefault(db.users, userId).premium)
    ensures !UserOrDefault(db.users, userId).premium ==> UserOrDefault(db.users, userId).challengesJoined <= JoinLimit
  {
  }

  /** Writing a challenge under a new id adds it to its creator's set only. */
  lemma CreatedByAfterPut(challenges: map<ChallengeId, Challenge>, newId: ChallengeId, c: Challenge, u: UserId)
    requires newId !in challenges
    ensures |CreatedBy(challenges[newId := c], u)| ==
      |CreatedBy(challenges, u)| + (if c.kind == UserType && c.createdBy == u then 1 else 0)
  {
    if c.kind == UserType && c.createdBy == u {
      assert CreatedBy(challenges[newId := c], u) == CreatedBy(challenges, u) + {newId};
    } else {
      assert CreatedBy(challenges[newId := c], u) == CreatedBy(challenges, u);
    }
  }

  lemma PutPreservesWellFormed(db: Db, newId: ChallengeId, c: Challenge)
    requires WellFormed(db)
    ensures WellFormed(PutChallenge(db, newId, c))
  {
  }

  /**
   * Replacing a challenge by one with the same type and creator, and a user
   * by one with the same creation counter, keeps the counts agreeing.
   */
  lemma ReplacedKeepsCounts(db: Db, id: ChallengeId, c: Challenge, userId: UserId, user: User, after: Db)
    requires CreatedCountsAgree(db) && id in db.challenges
    requires c.kind == db.challenges[id].kind && c.createdBy == db.challenges[id].createdBy
    requires user.challengesCreated == UserOrDefault(db.users, userId).challengesCreated
    requires after.challenges == db.challenges[id := c] && after.users == db.users[userId := user]
    ensures CreatedCountsAgree(after)
  {
    forall u ensures |CreatedBy(after.challenges, u)| == UserOrDefault(after.users, u).challengesCreated {
      assert CreatedBy(after.challenges, u) == CreatedBy(db.challenges, u);
    }
  }

  lemma JoinPreservesInvariant(db: Db, challengeId: ChallengeId, userId: UserId, now: Millis)
    requires Invariant(db)
    ensures Invariant(JoinStep(db, challengeId, userId, now).db)
  {
    if challengeId in db.challenges {
      var challenge := db.challenges[challengeId];
      var user := UserOrDefault(db.users, userId);
      if JoinCheck(challenge, user, now) == None {
        var c := challenge.(participants := challenge.participants + [JoinEntry(userId, now)]);
        var user' := user.(challengesJoined := user.challengesJoined + 1);
        var after := db.(challenges := db.challenges[challengeId := c],
                         users := db.users[userId := user'],
                         userChallenges := db.userChallenges[(userId, challengeId) := JoinRecord(userId, challengeId)]);
        assert JoinStep(db, challengeId, userId, now).db == after;
        ReplacedKeepsCounts(db, challengeId, c, userId, user', after);
      }
    }
  }

  /** Storing a new user challenge and counting it on its creator keeps the counts agreeing. */
  lemma CountedCreateAgrees(db: Db, newId: ChallengeId, c: Challenge, after: Db)
    requires CreatedCountsAgree(db) && newId !in db.challenges
    requires c.kind == UserType
    requires after.challenges == db.challenges[newId := c]
    requires after.users == db.users[c.createdBy := UserOrDefault(db.users, c.createdBy).(challengesCreated := UserOrDefault(db.users, c.createdBy).challengesCreated + 1)]
    ensures CreatedCountsAgree(after)
  {
    forall u ensures |CreatedBy(after.challenges, u)| == UserOrDefault(after.users, u).challengesCreated {
      CreatedByAfterPut(db.challenges, newId, c, u);
    }
  }

  /** Raising a user's creation counter while below the limit keeps all counters within limits. */
  lemma CountedUserWithinLimits(db: Db, userId: UserId, user: User, after: Db)
    requires WithinLimits(db)
    requires after.users == db.users[userId := user]
    requires user.premium == UserOrDefault(db.users, userId).premium
    requires user.challengesJoined == UserOrDefault(db.users, userId).challengesJoined
    requires user.challengesCreated <= CreateLimit(user.premium)
    ensures WithinLimits(after)
  {
  }

  lemma CreatePreservesInvariant(db: Db, title: string, userId: UserId, friends: seq<UserId>, newId: ChallengeId, now: Millis)
    requires Invariant(db)
    requires newId !in db.challenges
    ensures Invariant(CreateStep(db, title, userId, friends, newId, now).db)
  {
    var user := UserOrDefault(db.users, userId);
    if CreateAllowed(user) {
      var c := NewUserChallenge(title, userId, friends, now);
      var user' := user.(challengesCreated := user.challengesCreated + 1);
      var after := PutChallenge(db, newId, c).(users := db.users[userId := user']);
      assert CreateStep(db, title, userId, friends, newId, now).db == after;
      PutPreservesWellFormed(db, newId, c);
      CountedCreateAgrees(db, newId, c, after);
      CountedUserWithinLimits(db, userId, user', after);
    }
  }

  lemma AdminPreservesInvariant(db: Db, title: string, requesterId: UserId, adminId: UserId, newId: ChallengeId, now: Millis)
    requires Invariant(db)
    requires newId !in db.challenges
    ensures Invariant(AdminStep(db, title, requesterId, adminId, newId, now).db)
  {
    if requesterId == adminId {
      var c := NewMainChallenge(title, requesterId, now);
      var after := PutChallenge(db, newId, c);
      assert AdminStep(db, title, requesterId, adminId, newId, now).db == after;
      PutPreservesWellFormed(db, newId, c);
      forall u ensures |CreatedBy(after.challenges, u)| == UserOrDefault(after.users, u).challengesCreated {
        CreatedByAfterPut(db.challenges, newId, c, u);
      }
    }
  }

  // ------------------------------------------------ repeated creation

  /** One create request by the user of a run: its title, friends, generated id and time. */
  datatype CreateRequest = CreateRequest(title: string, friends: seq<UserId>, newId: ChallengeId, now: Millis)

  /** The requests' ids are distinct and none of them is in use. */
  ghost predicate FreshIds(reqs: seq<CreateRequest>, challenges: map<ChallengeId, Challenge>) {
    && (forall i :: 0 <= i < |reqs| ==> reqs[i].newId !in challenges)
    && (forall i, j :: 0 <= i < j < |reqs| ==> reqs[i].newId != reqs[j].newId)
  }

  /** One user sends create requests one after another. */
  function CreateRun(db: Db, userId: UserId, reqs: seq<CreateRequest>): Db
    decreases |reqs|
  {
    if reqs == [] then db
    else
      var q := reqs[0];
      CreateRun(CreateStep(db, q.title, userId, q.friends, q.newId, q.now).db, userId, reqs[1..])
  }

  /** The same requests against the handler as written. */
  function CreateRunAsWritten(db: Db, userId: UserId, reqs: seq<CreateRequest>): Db
    decreases |reqs|
  {
    if reqs == [] then db
    else
      var q := reqs[0];
      CreateRunAsWritten(CreateStepAsWritten(db, q.title, userId, q.friends, q.newId, q.now).db, userId, reqs[1..])
  }

  lemma FreshIdsTail(reqs: seq<CreateRequest>, challenges: map<ChallengeId, Challenge>, c: Challenge)
    requires |reqs| > 0 && FreshIds(reqs, challenges)
    ensures FreshIds(reqs[1..], challenges[reqs[0].newId := c])
  {
  }

  /**
   * However many requests a user sends, whatever their titles, friends and
   * times, with the counter update of CreateStep they never own more user
   * challenges than their limit.
   */
  lemma {:induction false} CreateRunBounded(db: Db, userId: UserId, reqs: seq<CreateRequest>)
    requires Invariant(db) && FreshIds(reqs, db.challenges)
    ensures var after := CreateRun(db, userId, reqs);
      Invariant(after) && |CreatedBy(after.challenges, userId)| <= CreateLimit(UserOrDefault(after.users, userId).premium)
    decreases |reqs|
  {
    if reqs == [] {
      CreatedWithinLimit(db, userId);
    } else {
      var q := reqs[0];
      var c := NewUserChallenge(q.title, userId, q.friends, q.now);
      var r := CreateStep(db, q.title, userId, q.friends, q.newId, q.now);
      CreatePreservesInvariant(db, q.title, userId, q.friends, q.newId, q.now);
      FreshIdsTail(reqs, db.challenges, c);
      if r.outcome.Created? {
        assert r.db.challenges == db.challenges[q.newId := c];
      }
      CreateRunBounded(r.db, userId, reqs[1..]);
    }
  }

  /**
   * As written, a user without a document stays without one, so every one
   * of their requests, whatever its title, friends and time, writes a
   * challenge: the limit never applies.
   */
  lemma {:induction false} CreateRunAsWrittenUnbounded(db: Db, userId: UserId, reqs: seq<CreateRequest>)
    requires userId !in db.users && FreshIds(reqs, db.challenges)
    ensures var after := CreateRunAsWritten(db, userId, reqs);
      && userId !in after.users
      && |CreatedBy(after.challenges, userId)| == |CreatedBy(db.challenges, userId)| + |reqs|
    decreases |reqs|
  {
    if reqs != [] {
      var q := reqs[0];
      var c := NewUserChallenge(q.title, userId, q.friends, q.now);
      var r := CreateStepAsWritten(db, q.title, userId, q.friends, q.newId, q.now);
      CreatedByAfterPut(db.challenges, q.newId, c, userId);
      FreshIdsTail(reqs, db.challenges, c);
      CreateRunAsWrittenUnbounded(r.db, userId, reqs[1..]);
    }
  }

  /**
   * From a store satisfying the invariant, four requests by a user without a
   * document leave four user challenges created by them, one more than the
   * basic limit of three.
   */
  lemma AsWrittenExceedsLimit(db: Db, userId: UserId, reqs: seq<CreateRequest>)
    requires Invariant(db) && userId !in db.users
    requires FreshIds(reqs, db.challenges) && |reqs| == 4
    ensures var after := CreateRunAsWritten(db, userId, reqs);
      |CreatedBy(after.challenges, userId)| == 4 > CreateLimit(UserOrDefault(after.users, userId).premium)
  {
    assert |CreatedBy(db.challenges, userId)| == UserOrDefault(db.users, userId).challengesCreated;
    CreateRunAsWrittenUnbounded(db, userId, reqs);
  }
}
