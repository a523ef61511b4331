/**
 * The participation rules of the challenge handlers as total decision
 * functions: the checks a join must pass, the creation limit, the shape of a
 * newly created challenge, which active challenges a user is shown, and the
 * profile view.
 */
module Rules {
  import opened Model

  // ---------------------------------------------------------------- join

  datatype JoinRejection = DeadlinePassed | PremiumRequired | JoinLimitExceeded

  /**
   * The join handler's three checks, applied in its order: the deadline,
   * then premium-only main challenges, then the join limit of non-premium
   * users. None means the join goes ahead.
   */
  function JoinCheck(challenge: Challenge, user: User, now: Millis): (r: Option<JoinRejection>)
    // the deadline is checked first and alone decides this outcome
    ensures r == Some(DeadlinePassed) <==> now > challenge.joinDeadline
    ensures r == Some(PremiumRequired) <==>
      now <= challenge.joinDeadline && challenge.kind == MainType && !user.premium
    ensures r == Some(JoinLimitExceeded) <==>
      now <= challenge.joinDeadline && challenge.kind != MainType && !user.premium && user.challengesJoined >= JoinLimit
    // a premium user can only miss the deadline
    ensures user.premium ==> (r.Some? <==> now > challenge.joinDeadline)
    // the closed form of acceptance
    ensures r == None <==>
      now <= challenge.joinDeadline && (user.premium || (challenge.kind != MainType && user.challengesJoined < JoinLimit))
  {
    if now > challenge.joinDeadline then Some(DeadlinePassed)
    else if challenge.kind == MainType && !user.premium then Some(PremiumRequired)
    else if !user.premium && user.challengesJoined >= JoinLimit then Some(JoinLimitExceeded)
    else None
  }

  /** The participant entry a successful join appends. */
  function JoinEntry(userId: UserId, now: Millis): Participant {
    Participant(userId, 0, Some(now))
  }

  /** The join record a successful join writes: fresh, with no progress. */
  function JoinRecord(userId: UserId, challengeId: ChallengeId): UserChallenge {
    UserChallenge(challengeId, userId, [], true)
  }

  /**
   * The document id under which the join record is stored:
   * the user id, an underscore, the challenge id.
   */
  function RecordKey(userId: UserId, challengeId: ChallengeId): string
  {
    userId + "_" + challengeId
  }

  /**
   * The record key names one (user, challenge) pair whenever challenge ids
   * contain no underscore, as the store's generated ids do not.
   */
  lemma RecordKeyInjective(u1: UserId, c1: ChallengeId, u2: UserId, c2: ChallengeId)
    requires '_' !in c1 && '_' !in c2
    requires RecordKey(u1, c1) == RecordKey(u2, c2)
    ensures u1 == u2 && c1 == c2
  {
    RecordKeyParts(u1, c1);
    RecordKeyParts(u2, c2);
  }

  lemma RecordKeyParts(u: UserId, c: ChallengeId)
    ensures var key := RecordKey(u, c);
      |key| == |u| + 1 + |c| && key[|u|] == '_' && key[..|u|] == u && key[|u| + 1..] == c
  {
  }

  /** Without that condition two pairs can share one record. */
  lemma RecordKeyCollision()
    ensures RecordKey("a_b", "c") == RecordKey("a", "b_c")
  {
  }

  // -------------------------------------------------------------- create

  /** How many challenges a user may create: 5 when premium, 3 otherwise. */
  function CreateLimit(premium: bool): (n: int)
    ensures n == (if premium then PremiumCreateLimit else BasicCreateLimit)
    ensures BasicCreateLimit <= n <= PremiumCreateLimit
  {
    if premium then PremiumCreateLimit else BasicCreateLimit
  }

  /** The create handler's only check: the user is below their limit. */
  predicate CreateAllowed(user: User)
  {
    user.challengesCreated < CreateLimit(user.premium)
  }

  /** Entries for the listed friends, in the given order, all at score 0. */
  function FriendEntries(friends: seq<UserId>): seq<Participant>
  {
    seq(|friends|, i requires 0 <= i < |friends| => Participant(friends[i], 0, None))
  }

  /** The challenge document a user creates. */
  function NewUserChallenge(title: string, creator: UserId, friends: seq<UserId>, now: Millis): (c: Challenge)
    ensures c.kind == UserType && c.createdBy == creator && c.title == title
    ensures c.days == ChallengeDays && c.currentDay == FirstDay && c.isActive
    ensures |c.participants| == 1 + |friends|
    ensures c.participants[0] == Participant(creator, 0, None)
    ensures forall i :: 0 <= i < |friends| ==> c.participants[i + 1] == Participant(friends[i], 0, None)
    ensures c.joinDeadline == now + 259200000 && c.endDate == now + 2592000000
    ensures now < c.joinDeadline < c.endDate
  {
    Challenge(title, ChallengeDays, UserType, FirstDay,
              [Participant(creator, 0, None)] + FriendEntries(friends),
              creator, now + JoinWindow, now + RunLength, true)
  }

  /**
   * The challenge document the admin creates: the shape of a user challenge
   * with no friends, except that it is 'main' and starts with nobody in it.
   */
  function NewMainChallenge(title: string, admin: UserId, now: Millis): (c: Challenge)
    ensures c == NewUserChallenge(title, admin, [], now).(kind := MainType, participants := [])
    ensures c.kind == MainType && c.participants == [] && c.createdBy == admin
    ensures c.joinDeadline == now + 259200000 && c.endDate == now + 2592000000
  {
    Challenge(title, ChallengeDays, MainType, FirstDay, [], admin,
              now + JoinWindow, now + RunLength, true)
  }

  // ---------------------------------------------------------- active list

  /** `a` is `b` with some elements left out, the rest in their order. */
  predicate IsSubsequence<T(==)>(a: seq<T>, b: seq<T>)
    decreases |b|
  {
    if a == [] then true
    else if b == [] then false
    else if a[0] == b[0] then IsSubsequence(a[1..], b[1..])
    else IsSubsequence(a, b[1..])
  }

  /** A challenge the active listing shows to this user. */
  predicate Listed(c: Challenge, user: User) {
    c.isActive && (c.kind != MainType || user.premium)
  }

  /**
   * The active listing: the active challenges in the collection's order,
   * without the main ones unless the user is premium.
   */
  function ListActive(docs: seq<(ChallengeId, Challenge)>, user: User): (r: seq<(ChallengeId, Challenge)>)
    ensures IsSubsequence(r, docs)
    ensures forall i :: 0 <= i < |r| ==> r[i].1.isActive
    ensures !user.premium ==> forall i :: 0 <= i < |r| ==> r[i].1.kind != MainType
    ensures forall i :: 0 <= i < |docs| && Listed(docs[i].1, user) ==> docs[i] in r
    ensures user.premium ==> forall i :: 0 <= i < |docs| && docs[i].1.isActive ==> docs[i] in r
    ensures forall i :: 0 <= i < |r| ==> r[i] in docs
  {
    if docs == [] then []
    else
      var rest := ListActive(docs[1..], user);
      assert forall i :: 1 <= i < |docs| ==> docs[i] == docs[1..][i - 1];
      if Listed(docs[0].1, user) then
        assert ([docs[0]] + rest)[1..] == rest;
        [docs[0]] + rest
      else
        assert rest == [] || rest[0] != docs[0];
        rest
  }

  // -------------------------------------------------------------- profile

  /** The profile response: the user document plus three derived numbers. */
  datatype ProfileView = ProfileView(user: User, friendCount: nat, subCount: nat, globalRank: int)

  /** The profile of a user, with defaults for a missing user or ranking entry. */
  function Profile(users: map<UserId, User>, ranking: map<UserId, int>, userId: UserId): (p: ProfileView)
    ensures p.user == UserOrDefault(users, userId)
    ensures p.friendCount == |p.user.friends| && p.subCount == |p.user.subscriptions|
    ensures userId !in users ==> p.friendCount == 0 && p.subCount == 0 && !p.user.premium
    ensures p.globalRank == (if userId in ranking then ranking[userId] else 0)
  {
    var user := UserOrDefault(users, userId);
    ProfileView(user, |user.friends|, |user.subscriptions|,
                if userId in ranking then ranking[userId] else 0)
  }
}
