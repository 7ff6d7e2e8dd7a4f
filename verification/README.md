# Poll voting core

A Dafny model of the vote-counting core of a small Express/MongoDB polling application.
A logged-in user creates a poll from a question and a list of option texts; every option
starts with no votes. Clients then send `vote` messages over a WebSocket. The server looks the
poll up and adds one vote to the first option whose text is exactly the submitted string. It
saves the poll and broadcasts a `pollUpdate` message with the updated poll to every connected
client. Any failure is answered with a single `error` message, `Error processing vote`, sent
only to the client that voted. The failures are: poll not found, no matching option, or save
rejected.

The model is functional. Polls and options are immutable datatypes and the store is a map
from poll id to poll. Each handler is a pure function. The vote handler returns the new store
together with the message produced and who receives it. The create-poll handler returns the
poll to be saved, or a redirect to login.

- `results.dfy` — `Option` and `Result`, standing in for `undefined`/`null` and thrown errors.
- `object_ids.dfy` — how a sent poll id converts to a stored ObjectId key.
- `polls.dfy` — the `Poll`/`PollOption` records, the tally `Total`, and poll creation.
- `voting.dfy` — `findIndex`, the increment, the lookup and the message handler.
- `voting_properties.dfy` — runs of votes handled one after another. It defines a reference
  tally (`Replay`, `Occurrences`) and connects the handler to it.

Behaviour of the program that the model keeps:

- There is no voter ledger. The stored `voters` field (index.js:42) is never read or written,
  so the same vote is counted every time it arrives (`RepeatedVotesAllCount`).
- An unknown option is rejected only because `findIndex` returns -1 and the increment then throws.
- The server sends only two kinds of message, `pollUpdate` and `error`.
- Every failure gives the same error text. The model's `VoteError` tag records why a vote failed,
  but the client cannot see it.
- Updates go to every connected client, whatever poll it shows.
- A poll id is found in any letter case. `findById` converts a 24-digit hexadecimal id to the stored
  ObjectId, so upper-case and lower-case spellings name the same poll. Any other string fails to
  convert (for current BSON versions; see Left out), and the vote gets the error reply.
- Duplicate option texts are allowed. Only the first of them can ever gain votes.

## Model

| member | source | states |
|---|---|---|
| Polls.NewOptions | index.js:152 | one option per submitted text, same order, each with that text and zero votes; the tally starts at 0 |
| Polls.CreatePoll | index.js:150-154 | the new poll keeps the question, records the creator and creation time, has an empty voter list, its option texts are exactly the submitted list, every count is 0 and the total is 0 |
| Polls.HandleCreatePoll | index.js:144-154 | a request without a session user is redirected to login (both directions); otherwise the poll is created by that user at the given time, with the given question and options, an empty voter list and a zero total |
| Voting.FindIndex | index.js:185 | -1 exactly when the submitted option is absent or equals no option text; otherwise the lowest position whose text equals it |
| Voting.IncrementAt | index.js:186 | succeeds exactly for an index inside the list; then only that option gains one vote and its text and every other option are unchanged; a -1 index fails |
| Voting.CountVote | index.js:185-186 | a vote on a found poll succeeds exactly when its text is among the options; then only the first option with that text gains one vote, and the texts, order and all other fields are unchanged; otherwise it fails with no-such-option |
| Voting.IncrementAddsOne | index.js:186 | incrementing an option inside the list raises the poll's total tally by exactly one |
| ObjectIds.Canon | index.js:184 | a sent id converts exactly when it is 24 hexadecimal digits; the key it gives is 24 lower-case digits naming the same value |
| ObjectIds.CanonFindsEveryCasing | index.js:184 | a key is reached from a sent id exactly when the id spells the same digits in either letter case |
| ObjectIds.UpperCaseIdExample | index.js:184 | the upper-case id 65A1F0C2E4B0A1B2C3D4E5F6 converts to the key 65a1f0c2e4b0a1b2c3d4e5f6 |
| Voting.SentKey | index.js:184 | an absent id gives no key; a sent id gives a key exactly when it converts, and that key is an ObjectId text spelling the same digits |
| Voting.Lookup | index.js:184 | an absent id finds nothing; a poll is found exactly when the sent id converts to a stored key, and it is the poll under that key |
| Voting.LookupFindsEveryCasing | index.js:184 | a stored poll is found by its id written in any letter case, and by no other spelling |
| Voting.ApplyVote | index.js:183-186 | a missing poll fails with poll-not-found; otherwise the vote is counted as above, and it succeeds exactly when the poll was found and the option text is present |
| Voting.HandleMessage | index.js:177-205 | a non-`vote` message changes nothing and gets no reply. A vote is broadcast to all clients exactly when the sent id converts to a stored key, the option is present and the save succeeds. Then only that poll changes, by one counted vote, and the `pollUpdate` carries the id as sent and the updated poll. Any other outcome leaves the store unchanged and sends `Error processing vote` to the sender alone |
| VotingProperties.ReplayKeepsShape | index.js:185-187 | however many votes are handled, a poll keeps its question, creator, creation time, voter list and option texts in order |
| VotingProperties.ReplayTotal | index.js:185-186 | after a run of votes the total has grown by exactly the number of votes that name an existing option |
| VotingProperties.ReplayTally | index.js:185-186 | after a run of votes, each option's count has grown by the number of votes naming its text if it is the first option with that text, and by nothing otherwise |
| VotingProperties.ArrivalOrderIrrelevant | index.js:180-187 | two runs containing the same votes in any order leave the poll identical |
| VotingProperties.RepeatedVotesAllCount | index.js:180-187 | a run of n votes that all name an option's text adds exactly n to the first option carrying it: there is no one-vote-per-voter limit |
| VotingProperties.ServeMatchesReplay | index.js:176-206 | handling a run of vote messages whose id names one stored poll in any letter case, with every save succeeding, leaves that poll as the reference tally predicts and every other poll untouched |
| VotingProperties.TwoOptionScenario | index.js:150-187 | a poll created with options A and B that receives votes A, A, B ends with A = 2 and B = 1 |

## Left out

- HTTP routing, views, static files and the session middleware (index.js:12-24, 57-142). They are plumbing with no computation. The session is reduced to an optional user id in `HandleCreatePoll`.
- Login, signup and logout (index.js:64-116). They depend on bcrypt and user lookups that cannot be seen.
- Database connection, schemas and `find` (index.js:30-54, 127). The store is a map from ObjectId key to poll. `findById` converts a string id as described above and then looks the key up. A missing id finds nothing.
- The outcome of `save` (index.js:187) is an input flag of `HandleMessage`. Schema validation on save, such as the required question, is not modelled. The create-poll save and its `Error creating poll` page (index.js:156-162) are left out. The created poll is taken to be what gets saved.
- Polls.HandleCreatePoll: takes the options as a list of strings. A request body whose `options` is missing or is a single string makes `options.map` throw outside any `try` (index.js:152). That crash path is not modelled. Option texts are modelled as strings only. A JSON body can carry other values: Mongoose casts numbers to strings, keeps `null`, and fails on save for objects. A `null` option text is kept and is later matched by a vote whose `option` is `null`, because `null === null`, so that vote is counted. The model cannot express this case.
- `JSON.parse` failure on a malformed frame (index.js:178), and a frame that parses to `null`, whose `data.type` (index.js:180) then throws. Both throw outside the `try` and crash the handler, so they are not modelled.
- Message fields that are absent or not strings are modelled as `None`.
- Voting.Lookup: only string ids are converted. A non-string `pollId` is treated as absent, but `findById` would handle it differently. An object such as `{"_id": "65a1…"}` converts through its `_id`, and a query object such as `{"$ne": null}` matches some stored poll. Those cases are not modelled. The 12-character binary string form of an ObjectId, accepted by some BSON library versions, is not modelled either.
- WebSocket server setup and `client.send` delivery (index.js:27, 176-177, 189-195). Only the message value and its audience (sender or everyone) are modelled. The `console.error` logging at index.js:160 and index.js:198 is not modelled either.
- The stored document's own `_id`, its version key `__v`, and the `_id` that Mongoose gives each option subdocument (index.js:39) are not part of the `Poll`/`PollOption` records. So the `updatedPoll` in a modelled `pollUpdate` (index.js:193) lacks them. No tally property depends on them.
- Concurrency. The real handler reads, modifies and writes across `await`, so two concurrent votes can lose an update. The model handles messages one at a time.
- Voting.IncrementAt: vote counts are unbounded naturals. The source's counts are JavaScript numbers (doubles), which stop incrementing exactly above 2^53.
- The creation timestamp is an input, standing in for the clock default at index.js:40.
- The empty `/profile` and `/vote` routes (index.js:166-173) have no behaviour.
- public/frontend.js is not part of this model. It is DOM and AJAX code. Its vote message carries the field `selectedOption` rather than `option`, so the handler would answer its votes with the error reply. The model covers this as an absent option. Also, as written, the WebSocket server at index.js:27 is attached to the Express app object rather than to the HTTP server that `app.listen` creates, and `expressWs(app)` (index.js:13) defines no `ws` route. So no client may ever reach the handler at index.js:176. This depends on library code that is not part of this model, and the handler is modelled as written.
