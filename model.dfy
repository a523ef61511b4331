/**
 * The documents of the challenge application's store: users, challenges,
 * per-user join records and the externally maintained global ranking,
 * together with the fixed constants the request handlers use.
 */
module Model {

  type UserId = string
  type ChallengeId = string

  /** A point in time as milliseconds since the epoch (JavaScript's Date.getTime()). */
  type Millis = int

  const DayMillis: int := 24 * 60 * 60 * 1000
  /** A new challenge can be joined for 3 days (259200000 ms). */
  const JoinWindow: int := 3 * DayMillis
  /** A new challenge runs for 30 days (2592000000 ms). */
  const RunLength: int := 30 * DayMillis
  const ChallengeDays: int := 30
  const FirstDay: int := 1

  /** A non-premium user may have joined at most this many challenges. */
  const JoinLimit: int := 2
  const PremiumCreateLimit: int := 5
  const BasicCreateLimit: int := 3

  datatype Option<T> = None | Some(value: T)

  /**
   * A user document. A field the document lacks reads as the default given
   * by DefaultUser: `undefined` is falsy, compares false with `>=`, and a
   * store increment starts from 0.
   */
  datatype User = User(
    premium: bool,
    challengesJoined: int,
    challengesCreated: int,
    friends: seq<UserId>,
    subscriptions: seq<string>,
    totalScore: int)

  /** What every handler reads for a user that has no document. */
  const DefaultUser: User := User(false, 0, 0, [], [], 0)

  /** The user's document, or the default record when there is none. */
  function UserOrDefault(users: map<UserId, User>, id: UserId): (u: User)
    ensures id in users ==> u == users[id]
    ensures id !in users ==> !u.premium && u.challengesJoined == 0 && u.challengesCreated == 0
    ensures id !in users ==> u.friends == [] && u.subscriptions == [] && u.totalScore == 0
  {
    if id in users then users[id] else DefaultUser
  }

  /** The `type` field of a challenge: 'main' or 'user'. */
  datatype ChallengeType = MainType | UserType

  /** One entry of a challenge's participant list; only a join records the day. */
  datatype Participant = Participant(userId: UserId, score: int, joinedDay: Option<Millis>)

  datatype Challenge = Challenge(
    title: string,
    days: int,
    kind: ChallengeType,
    currentDay: int,
    participants: seq<Participant>,
    createdBy: UserId,
    joinDeadline: Millis,
    endDate: Millis,
    isActive: bool)

  /**
   * A join record. Entries of dailyProgress are written by code outside this
   * system; they are modelled as integers.
   */
  datatype UserChallenge = UserChallenge(
    challengeId: ChallengeId,
    userId: UserId,
    dailyProgress: seq<int>,
    joined: bool)

  /**
   * The whole store. `order` is the natural order in which the challenges
   * collection returns its documents; `globalRanking` maps a user to a score
   * and is only read.
   */
  datatype Db = Db(
    users: map<UserId, User>,
    challenges: map<ChallengeId, Challenge>,
    order: seq<ChallengeId>,
    userChallenges: map<(UserId, ChallengeId), UserChallenge>,
    globalRanking: map<UserId, int>)

  /** `order` lists every challenge document exactly once. */
  ghost predicate WellFormed(db: Db) {
    && (forall i :: 0 <= i < |db.order| ==> db.order[i] in db.challenges)
    && (forall id :: id in db.challenges ==> id in db.order)
    && (forall i, j :: 0 <= i < j < |db.order| ==> db.order[i] != db.order[j])
  }

  /** The challenges collection in its natural order, as a query returns it. */
  function Documents(order: seq<ChallengeId>, challenges: map<ChallengeId, Challenge>): (docs: seq<(ChallengeId, Challenge)>)
    requires forall i :: 0 <= i < |order| ==> order[i] in challenges
    ensures |docs| == |order|
    ensures forall i :: 0 <= i < |order| ==> docs[i].0 == order[i] && docs[i].1 == challenges[order[i]]
  {
    seq(|order|, i requires 0 <= i < |order| => (order[i], challenges[order[i]]))
  }
}
