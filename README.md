# Challenge participation rules

A model of the challenge backend's participation rules. The backend turns REST requests into reads and
writes on a document store. It has three collections:

- `users`: premium flag, join and create counters, friends, subscriptions, total score.
- `challenges`: typed `main` or `user`, with a participant list, a join deadline and an end date.
- `userChallenges`: one join record per (user, challenge) pair.

A fourth collection, `globalRanking`, is only read.

The model has four modules:

- `Model` (model.dfy): the documents and the store as finite maps. Missing user documents are handled
  with `UserOrDefault`, which gives a non-premium user with zero counters.
- `Rules` (rules.dfy): the handlers' decisions as total functions:
  - the three join checks, in the handler's order;
  - the creation limit (5 for premium users, 3 otherwise);
  - the exact document a new user or main challenge gets;
  - the active listing;
  - the profile view.
- `Operations` (operations.dfy): each state-changing handler as one atomic step on a store value.
  This module also holds the invariants that give the counters their meaning, and the lemmas that the
  steps preserve them.
- `Store` (store.dfy): class `ChallengeStore` with the collections as map fields. Each state-changing
  handler is a method that reads, decides, then makes its writes one at a time. The two read-only
  handlers are functions that read the fields. Each method's postcondition equates the
  resulting store with the step of `Operations`.

Time is an integer number of milliseconds passed in as `now`. The configured admin id is a parameter of
`CreateMain`. The id the store generates for a new challenge is a parameter `newId`. The store's
natural order of the challenges collection is an explicit sequence `order`.

Two details of the code that the model keeps:

- Only a join records a `joinedDay` on its participant entry. Entries made at creation have none.
- The create handler raises the counter with an `update`, which fails when the user has no document.
  See "Findings".

## Model

| member | source | states |
|---|---|---|
| Model.UserOrDefault | server.js:54-55 | a missing user reads as non-premium, with zero counters, no friends and no subscriptions; a present user reads as stored |
| Rules.JoinCheck | server.js:51-61 | rejected for the deadline iff now > joinDeadline, whatever the user; premium required iff the deadline holds, the challenge is main and the user is not premium; join limit iff a non-premium user with at least 2 joins asks for a non-main challenge; a premium user can only miss the deadline; accepted iff now <= joinDeadline and (premium, or non-main and fewer than 2 joins) |
| Rules.RecordKeyInjective | server.js:68 | the join record's document id `userId_challengeId` identifies the pair when challenge ids contain no underscore, which justifies keying the records by the pair |
| Rules.RecordKeyCollision | server.js:68 | without that condition two different pairs share one document id |
| Rules.CreateLimit | server.js:78 | the limit is 5 for premium users and 3 otherwise |
| Rules.NewUserChallenge | server.js:84-94 | type user, 30 days, day 1, active, created by the creator; participants are the creator and then the friends in order, all at score 0, so 1 + number of friends entries; deadlines now + 259200000 and now + 2592000000, so now < joinDeadline < endDate |
| Rules.NewMainChallenge | server.js:119-129 | the user-challenge shape with no friends, changed only to type main with an empty participant list, created by the admin, same two deadlines |
| Rules.ListActive | server.js:33-37 | the result is a subsequence of the collection in its order; every entry is active; no main entry for a non-premium user; every active entry the user may see is present; a premium user sees every active challenge |
| Rules.Profile | server.js:103-108 | the view holds the user or the default; friendCount and subCount are the list lengths, 0 for a missing user; globalRank is the ranking score, or 0 without an entry |
| Operations.JoinStep | server.js:47-72 | a missing challenge, a missed deadline or a failed check leaves the whole store unchanged; a failed check is answered with that check's own reason; a join appends exactly one entry {userId, score 0, joinedDay now} and nothing else to that challenge; it raises that user's counter by exactly 1, creating the document from the defaults when missing; it resets the pair's record to joined with no progress; no other challenge, user or record changes |
| Operations.NewUserJoinsAtMostTwo | server.js:54-61 | a user with no document joins two open non-main challenges in a row and the third join is rejected by the limit, with no writes |
| Operations.CreateStep | server.js:74-99 | rejected iff challengesCreated >= limit, and then nothing is written; otherwise exactly one new challenge of the creation shape is stored under the new id; the creator's counter rises by exactly 1; nothing else changes |
| Operations.CreateStepAsWritten | server.js:95-97 | for a user with a document it is CreateStep; for a user without one, the challenge is written and appended to the collection order, users, join records and ranking are untouched, and the request fails |
| Operations.AdminStep | server.js:112-131 | rejected iff the requester is not the admin, and then nothing is written; otherwise one main challenge with no participants is stored and a fresh id is appended to the collection order; users, join records and ranking are untouched; no limit is checked |
| Operations.CreatedWithinLimit | server.js:77-79 | under the invariant nobody has created more user challenges than their limit, and no non-premium user has more than 2 joins counted |
| Operations.JoinPreservesInvariant | server.js:59-67 | a join keeps every creation counter equal to the creator's number of user challenges and keeps every counter within its limit |
| Operations.CreatePreservesInvariant | server.js:77-97 | a create under a fresh id keeps the invariant: the creator's count and counter both rise by one, and only while below the limit |
| Operations.AdminPreservesInvariant | server.js:117-129 | a main challenge is not counted against anyone, so the invariant holds after it |
| Operations.CreateRunBounded | server.js:77-97 | any sequence of create requests by one user, each with its own title, friends, fresh id and time, with the counter raised as a merge, leaves the invariant in place and them within their creation limit |
| Operations.CreateRunAsWrittenUnbounded | server.js:95-97 | as written, every create request by a user without a document, whatever its title, friends and time, writes one more challenge and leaves the user without a document |
| Operations.AsWrittenExceedsLimit | server.js:76-97 | as written, four requests by a user without a document leave four user challenges by them, above the basic limit of 3 |
| Model.Documents | server.js:33-34 | the collection read in its natural order: one (id, document) pair per listed id, in that order, each the stored document |
| Store.ChallengeStore.Put | server.js:84 | the challenge document under the id is set to the given one, overwriting any document there; a new id is appended to the collection order; nothing else changes |
| Store.ChallengeStore.ActiveChallenges | server.js:31-39 | returns stored challenges the user may see, in the collection's order, and every one of them |
| Store.ChallengeStore.ProfileOf | server.js:101-110 | the profile view of the current store; it only reads |
| Store.ChallengeStore.Join | server.js:47-72 | the new store and the answer are those of JoinStep; a rejection changes nothing; the invariant is kept |
| Store.ChallengeStore.Create | server.js:74-99 | the new store and the answer are those of CreateStep; a rejection changes nothing; with a fresh id the invariant is kept |
| Store.ChallengeStore.CreateMain | server.js:112-131 | the new store and the answer are those of AdminStep; users and join records never change; a rejection changes nothing |

## Findings

| source | as written | input that shows it | evidently intended | confidence | as-written member | corrected member |
|---|---|---|---|---|---|---|
| server.js:95-97 | the creator's counter is raised with `update`. That call fails when the user has no document, and by then the challenge from line 84 is already written. The user stays without a document, so their counter keeps reading as 0 | a user id with no users document sends four create requests: four user challenges by that user exist, against a limit of 3 | raise the counter with a merging set, as the join handler does at lines 65-67, so that the limit also binds users without a document | medium, not executed | Operations.AsWrittenExceedsLimit | Operations.CreateRunBounded |

`Operations.CreateStepAsWritten` and `Operations.CreateRunAsWrittenUnbounded` model the code as written.
`Operations.CreateStep` is the corrected step. `Store.ChallengeStore.Create` uses it.

## Left out

- Express, CORS, the Telegram bot and its greeting, process start-up and the Firebase credentials (server.js:1-28, 133-136): framework and I/O plumbing.
- `/api/challenges/all` (server.js:41-45): it returns the collection unchanged and has no logic.
- HTTP status codes, JSON bodies and the Uzbek error messages: outcomes are datatypes with reason codes.
- Concurrency: each request is one atomic step. The race, in which two concurrent joins both pass the limit check before either increment lands, is not modelled.
- Partial failure of store calls in join and admin creation: the model's writes either all happen or none do. The one store failure in the code's own logic, `update` on a missing user, is modelled.
- Store library details: `arrayUnion` deduplication is modelled as an append; the join entry carries the current time, so in practice it differs from earlier entries. Id generation is a parameter `newId`; `set` on an id in use overwrites.
- The natural order of the challenges collection: the store orders query results by document id. The model keeps the order as a sequence and places a new document at its end.
- The wall clock and Date conversion: `now` and the deadlines are integer milliseconds. How stored timestamps convert back to dates is not modelled.
- Fields a document may hold with other JavaScript types (a non-boolean `premium`, a non-array `friends`): fields are typed, and a missing field reads as its default.
- An unset admin id in the environment, in which case a request without a user id would pass the admin check: the admin id is always a string parameter.
- The contents of `dailyProgress` entries: they are written by code outside this system and modelled as integers.
- `userChallenges` is keyed by the pair (userId, challengeId) rather than the string `userId_challengeId`. `Rules.RecordKeyInjective` gives the condition under which the two agree.
