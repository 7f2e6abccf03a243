# VibeVote-Live vote ledger in Dafny

This project models the in-memory vote ledger of the VibeVote-Live server
(`server/index.js`). The server holds two pieces of state:

- `programs`: the ordered list of competing programs, each with an id, a name,
  a category and a vote tally;
- `userVotes`: one map from voter identities to the id of the program voted
  for. A voter identity is either the composite key
  `fingerprint_ip_userAgent` or the user id the client sent. Both kinds share
  the one map.

Six HTTP handlers read or change this state: list, add, edit and delete a
program; reset all tallies and voters; and cast a vote. A socket connection
is also sent the current list. After each change the server pushes the whole
list to every connected client.

Every handler runs to completion on the event loop without waiting. So each
handler is modelled as one method of the class `Server.VoteServer`. Its
fields `programs`, `userVotes` and `events` are the two tables and the log of
socket events emitted so far. Each method's `ensures` gives the whole new
state in terms of the old one. The invariant `Valid()` is kept by every
method: program ids stay pairwise distinct, and only truthy values are ever
voter keys.

Modules:

- `Wrappers`: `Option`.
- `JsValues`: the JavaScript semantics the handlers depend on. A request-body
  value is a `Field` (`Missing` for undefined, `Null`, `Bool`, `Num`, `Text`).
  The module defines truthiness (`!x`), template-literal rendering (`${x}`)
  and `parseInt` for the `:id` route parameter. Its main lemma is the round
  trip: `parseInt` reads back a number rendered into a URL.
- `Catalog`: the `Program` record and the list operations the handlers use.
  These are `findIndex`/`find` by id, `filter` by id, the next id
  (`Math.max(...ids) + 1`) and the total of the tallies, with lemmas that
  ids stay distinct and that filtering keeps order.
- `Identity`: the composite key, the duplicate test and the voter-map update
  of an accepted vote, with lemmas on what the key does and does not
  separate.
- `Server`: the events, replies, initial table and the `VoteServer` class.
  `RepeatVoteScenario` replays the vote tests of `server/index.test.js`,
  extended with a user id, a missing program and a second device; its two
  halves are `FirstVote` and `RepeatedVotes`.

Behaviour of the code worth knowing:

- Deleting a program does not delete the voter records that point to it.
- Editing a program can overwrite its tally with any integer, even a
  negative one.
- There is no vote revocation and no vote-status lookup.
- There are no transactions.
- Ids are not reserved. The next id is one more than the largest id currently
  in the list, so deleting the newest program and adding another reuses its
  id, and voter records left from the deleted program then name the new one.
- The identity key is the fingerprint, address and user-agent string. The
  user id is checked as a separate key of the same map.

## Model

| member | source | states |
|---|---|---|
| `Server.VoteServer.Vote` | server/index.js:81-111 | 400 exactly when the program id or fingerprint is falsy. Otherwise 403 exactly when the composite key or the user id is already recorded, checked before any lookup. Otherwise 404 when no program has that id. On any refusal nothing changes and nothing is emitted. On success the matching program gains exactly 1 vote, every other entry and the list length stay as they were, and the total rises by exactly 1. The key, and a truthy user id, are recorded for the program. One `vote_update` with the full list is emitted. |
| `Server.VoteServer.Count` | server/index.js:98-106 | The accepted part of a vote: the found program gains exactly 1 vote and nothing else in the list changes, so the total rises by 1. The voter map becomes exactly the recorded map of the key and the truthy user id. One `vote_update` is emitted. Ids stay distinct and keys truthy. |
| `Server.VoteServer.AddProgram` | server/index.js:37-48 | Appends exactly one program at the end with the next id and 0 votes. Earlier entries are untouched. The new id differs from every id currently in the list; it can equal the id of a program deleted earlier (see `Catalog.NextIdReusedAfterDelete`). The voter map is unchanged. One `vote_update` is emitted and the reply is 201 with the new program. |
| `Server.VoteServer.EditProgram` | server/index.js:51-61 | When the parsed route id matches a program, the first match gets the new name and category and keeps its id. It gets the supplied tally, or keeps the old one when none is given. The total changes by the difference. One `vote_update` is emitted and the reply is 200 with the record. Otherwise the reply is 404 and nothing changes. |
| `Server.VoteServer.DeleteProgram` | server/index.js:64-69 | The list becomes the old list without every entry carrying the parsed id. It is unchanged when the id is NaN. The voter map is untouched. A `vote_update` is emitted and the reply is 200 even when nothing matched. |
| `Server.VoteServer.Reset` | server/index.js:72-78 | Every tally becomes 0 while ids, names, categories, order and length are kept, so the total is 0. The voter map is empty, so no identity counts as having voted. `vote_update` is emitted, then `reset_voted_status`. |
| `Server.VoteServer.ListPrograms` | server/index.js:31-33 | Replies 200 with the current list, changing nothing. |
| `Server.VoteServer.Connect` | server/index.js:116 | A new connection is sent `init_data` with the current list. The tables are unchanged. |
| `Server.VoteServer.constructor` | server/index.js:19-28 | Starts with the five initial programs and an empty voter map, with no events. |
| `Server.InitialPrograms` | server/index.js:19-25 | Five programs with ids 1 to 5, all with 0 votes, ids distinct. |
| `Server.IndexOfRouteId` | server/index.js:52-54 | `findIndex` on `parseInt(id)` finds a position exactly when the parameter parses and some program has that id. The position found holds that id. |
| `Server.RepeatVoteScenario` | server/index.test.js:93-120 | The first vote is accepted (200) and raises the first program's tally from 0 to 1. The same device is then refused (403) and the tally stays at 1. It is also refused for a program that does not exist. Another device with the same user id is refused (403). After a reset the first device is accepted again (200). |
| `Server.FirstVote` | server/index.test.js:93-107 | On a freshly started server the first vote for program 1 is accepted (200), its tally goes from 0 to 1, and the device's key and the user id are recorded. |
| `Server.RepeatedVotes` | server/index.test.js:110-120 | With that device and user id recorded, the same device is refused (403) for the same program and for a program that does not exist, another device sending the same user id is refused (403), and the program list does not change. |
| `Identity.CompositeKey` | server/index.js:92 | The composite key is never empty, so it is always a truthy map key. |
| `Identity.Recorded` | server/index.js:94-102 | After an accepted vote the voter map has exactly the old keys plus the composite key, plus the user id when truthy. Both map to the program id, and every other entry is kept. Every later request with the same composite key, or the same truthy user id, counts as a duplicate. Stored keys stay truthy. |
| `Identity.HasVoted` | server/index.js:94 | The duplicate test. While only truthy keys are stored, a falsy user id never matches, so only the composite key decides. |
| `Identity.KeySeparatesFingerprints` | server/index.js:92 | Same address and user agent but differently rendered fingerprints give different keys. |
| `Identity.KeySeparatesUserAgents` | server/index.js:92 | Same fingerprint and address but different user-agent strings give different keys. |
| `Identity.KeyIsNotInjective` | server/index.js:90-92 | The key is a heuristic. An underscore in the fingerprint lets two different fingerprint/address pairs share a key. A numeric fingerprint gives the same key as its digits sent as text. |
| `Catalog.FindIndex` | server/index.js:54 | Returns the first position holding the id, or none exactly when no entry has it. |
| `Catalog.Lookup` | server/index.js:98 | Under strict equality a program is found exactly when the request's program id is a number that some entry carries. The found entry carries it. |
| `Catalog.MaxId` | server/index.js:40 | The result is at least every id and equal to one of them. |
| `Catalog.NextId` | server/index.js:40 | The result is greater than every existing id. It is 1 for an empty list and one more than some existing id otherwise. |
| `Catalog.NextIdKeepsIdsDistinct` | server/index.js:39-45 | Appending a program with the next id keeps ids pairwise distinct. |
| `Catalog.Without` | server/index.js:66 | The filtered list holds exactly the entries whose id differs from the given one. |
| `Catalog.NextIdReusedAfterDelete` | server/index.js:40 | After a program with the next id is added and deleted again, the next id is that same id again: ids are computed from the current list, not reserved. |
| `Catalog.WithoutAppend` | server/index.js:66 | Filtering distributes over concatenation, so survivors keep their order. |
| `Catalog.WithoutAbsent` | server/index.js:66-68 | Filtering an id no entry carries returns the list unchanged. |
| `Catalog.WithoutKeepsIdsDistinct` | server/index.js:66 | Filtering keeps ids pairwise distinct. |
| `Catalog.TotalAfterReplacing` | server/index.js:99-100 | Replacing one entry changes the total of the tallies by exactly the difference between the two tallies. |
| `Catalog.TotalOfZeroTallies` | server/index.js:73 | A list whose tallies are all zero has total zero. |
| `JsValues.ParseIntReadsNumberToString` | server/index.js:54 | `parseInt` of an integer rendered as a string gives that integer back. This still holds when the rendering is followed by text that starts with neither a digit nor an `x`. So a URL built from a program's id reaches that program. |
| `JsValues.ParseIntWithoutLeadingDigit` | server/index.js:66 | A route parameter that starts with neither white space, a sign nor a digit parses to NaN, so it matches no program. |
| `JsValues.ParseInt` | server/index.js:54-66 | `parseInt(id)` without a radix: leading ECMAScript white space is skipped, one `+` or `-` sign is taken, a `0x`/`0X` prefix switches to hexadecimal, and the longest digit prefix is read. NaN (`None`) unless a digit comes first after the white space or right after the sign; a negative result only after `-`. |
| `JsValues.Truthy` | server/index.js:86-102 | JavaScript truthiness as `!programId \|\| !fingerprint` and `if (userId)` test it: undefined and null are falsy, a number is falsy exactly when it renders as `0`, a string exactly when it is empty. |
| `JsValues.TemplateString` | server/index.js:92 | How `${fingerprint}` renders a body value: a string as itself, undefined and null and booleans by name, a number as decimal digits that `parseInt` reads back to the same number. |
| `Identity.HeaderString` | server/index.js:92 | How `${userAgent}` renders the header: a present header as itself and an absent one as `undefined`, exactly as a body value would render. |
| `JsValues.Digits` | server/index.js:92 | The decimal rendering of a number is non-empty, all digits, and has no leading zero. |

## Left out

- HTTP and socket plumbing is not modelled: Express setup, CORS, the socket.io server, listening on a port and console logging. Emits are appends to `events`.
- Delivery to individual sockets is not modelled. `vote_update` and `reset_voted_status` go to every connected client and `init_data` only to the new one; the model records that only in the event kind.
- How the client address and user-agent header are obtained is not modelled. `ip` is an opaque string and `userAgent` an optional string, rendered `undefined` when absent.
- Request-body values that are fractional numbers, NaN, arrays or objects are not modelled. `Field` covers undefined, null, booleans, integers and strings.
- Numbers are unbounded integers: precision loss above 2^53 and the exponent notation `String(n)` uses from 1e21 up are not modelled.
- Server.VoteServer.EditProgram: its `votes` input is an optional integer. A non-numeric `votes` value is not modelled; the source would store it, and a later vote would then append to it as a string.
- Error-message texts are abstracted to the three `Failure` kinds.
- The reset reply's message text is abstracted to `ResetDone`.
- The program list is modelled as values. In the source the vote handler bumps the program object in place, but no reference to it escapes, so the difference cannot be observed.
- Concurrency is not modelled. Handlers are synchronous on one event loop and never interleave.
- The settings endpoints, admin login, and the 400 replies for an empty name or negative votes are not modelled. `server/index.test.js` expects them, but `server/index.js` does not implement them.
- The React client components are not modelled; they are presentation.
