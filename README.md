# Game-session engine of the business-strategy game server

This project models the authoritative state engine of a live business-strategy
game. A facilitator drives rounds and phases. Twelve teams, four active per
round, submit their answers for phases A to D. An audience votes. After every
accepted event the server sends a public view of the session to everyone
connected.

The model covers these parts of the engine:

- the session record: twelve team records with ids 1..12, the current round,
  the active block of four teams, the phase, the event text and the last
  audience vote;
- the round/phase state machine: `setActiveTeamsByRound`,
  `facilitator:setPhase` and `facilitator:nextRound`;
- the visibility projection `getPublicState`, which blanks the answers of
  teams outside the active block;
- the Blue-Move keyword scorer `applyBlueMove`;
- the change each socket handler makes: joining and renaming a team, the four
  phase submissions (with truncation and scoring), the audience vote, the
  random card draw and the score adjustment.

Modules, one per component:

- `Text` (text.dfy): the JavaScript string operations the engine uses.
  These are `slice(0, n)`, `trim()`, `toLowerCase()` and `includes()`.
  `includes` is computed by `Contains` and proved equal to the reference
  predicate `Occurs`.
- `Decks` (decks.dfy): the customer, pain and event cards.
- `Records` (records.dfy): the team record, the we-help triple, the vote
  snapshot, the per-connection identity (`Conn`) and the initial team.
- `Rounds` (rounds.dfy): the active block of a round and the round advance.
- `Rules` (rules.dfy): how one event changes one team record, as pure
  functions. This includes the Blue-Move classifier, whose reference meaning
  is `KindOf`.
- `Projection` (projection.dfy): the public view, with two lemmas. Inactive
  answers never reach the view, and active answers always do.
- `Sessions` (session.dfy): the class `Session`. Its methods are the event
  handlers. Each one changes the team array in place and keeps the invariant
  `Valid()`:
  - the twelve team ids stay 1..12;
  - the round stays in 1..3, and its block is the active list;
  - no team's `competition` is ever below zero.

  Every handler requires and ensures `Valid()`, so the invariant holds after
  any sequence of events. Each handler's `broadcast` result says whether the
  source emits the new state to everyone.

The code has these properties, and the model keeps them:

- A team record can change while the team is inactive: `vote`,
  `adjustScore` and the rename in `joinTeam` reach any team. Only the four
  submissions check the active block (server.js:150, 161, 181, 191).
- No handler checks the current phase. A team of the active block can submit
  any phase at any time, and every phase-B or phase-D resubmission scores
  again.
- The phase is any string. `facilitator:setPhase` stores whatever it is
  given; it does not check for the values A, B, C, D or END.
- `facilitator:drawRandom` broadcasts even when the kind is neither
  "customer" nor "event".
- A non-numeric score delta gives NaN in the source (server.js:246-248):
  `Number("abc" || 0)` is NaN, not 0. The model takes deltas as integers
  (see "Left out").

## Model

| member | source | states |
|---|---|---|
| Text.Truncate | server.js:151-152 | `s.slice(0, n)` is the first `n` characters of `s`, or all of `s` when it is shorter; for `n > 0` the result is empty exactly when `s` is |
| Text.ContainsIsOccurs | server.js:115-118 | the computed `includes` is true exactly when the pattern stands at some position of the string |
| Text.Trim | server.js:133 | `trim()` yields the piece of the input that has only white space before and after it and neither starts nor ends with white space; it is empty exactly when the input is all white space |
| Text.StrippedUnique | server.js:133 | at most one piece of a string has only white space around it and no white space at either end, so the trimmed string is determined |
| Text.Lower | server.js:114 | `toLowerCase()` on ASCII: the length is kept, no capital A-Z remains, and a character changes only where it was a capital, which becomes its small letter |
| Text.TrimStart | server.js:133 | leading white space is dropped: the result is a suffix of the input, everything removed is white space, and the result does not start with white space |
| Text.TrimEnd | server.js:133 | trailing white space is dropped: the result is a prefix of the input, everything removed is white space, and the result does not end with white space |
| Decks.CardsNonEmpty | server.js:55-79 | the decks hold 6, 6 and 5 cards, and no card is empty |
| Records.Decimal | server.js:37 | the digits printed for `i + 1` in `Team ${i + 1}` are decimal digits that denote the number, with no leading zero unless the number is 0 |
| Records.InitialTeam | server.js:35-47 | a new team record is named "Team <id>", has all three scores at 0, all answers empty and no update time |
| Records.JoinAudience | server.js:139-143 | joining as audience sets only the connection's audience flag and keeps its team binding |
| Rounds.ActiveBlock | server.js:81-84 | the active list of round r is exactly [4r-3, 4r-2, 4r-1, 4r]: an id is in it iff 4r-3 <= id <= 4r |
| Rounds.BlocksPartitionTeams | server.js:81-84 | for rounds 1..3, an id is active in round r iff it is a team id 1..12 whose round is r, so each team is active in exactly one round |
| Rounds.NextRound | server.js:221 | `Math.min(3, round + 1)`: below round 3 the round goes up by one; at round 3 it stays 3 |
| Rounds.NextRoundInRange | server.js:221 | from a round in 1..3 the next round is in 1..3, never smaller, and equal only at round 3 |
| Rules.ApplyBlueMove | server.js:109-125 | value always rises by exactly 1; a move mentioning "eliminate" or "reduce" (any case) lowers competition by 1 but not below 0 and keeps diff; otherwise one mentioning "raise" or "create" raises diff by 1 and keeps competition; otherwise nothing else changes |
| Rules.ReducingExample | server.js:114-117 | "Eliminate the wait" is classified as a reducing move, so matching ignores case |
| Rules.FirstRuleWinsExample | server.js:115-120 | a move mentioning both "eliminate" and "create" takes only the first rule |
| Rules.RaisingExample | server.js:118-120 | "Create new demand" mentions neither reducing keyword and is a raising move |
| Rules.EmptyMoveExample | server.js:121-124 | the empty move matches no keyword and earns only the fallback value point |
| Rules.SubmitA | server.js:151-153 | phase A stores customer cut to 80 and pain cut to 120 characters, stamps the time, and changes nothing else of the team |
| Rules.SubmitB | server.js:163-173 | phase B stores who/problem/by cut to 60/80/80 characters; value rises by 1 exactly when all three given answers are non-empty; competition, diff and the other answers stay |
| Rules.SubmitC | server.js:182-183 | phase C stores the pivot cut to 140 characters, stamps the time, and changes nothing else of the team |
| Rules.SubmitD | server.js:193-196 | phase D stores the move cut to 60 characters and scores that cut move with the Blue-Move rules |
| Rules.SubmitDIgnoresTail | server.js:193-194 | when the first 60 characters mention no keyword, phase D earns only the plain point, whatever follows |
| Rules.SubmitDTailExample | server.js:193-194 | sixty x's followed by "eliminate" is a reducing move as a whole, yet phase D leaves competition unchanged |
| Rules.ResubmissionScoresAgain | server.js:157-198 | resubmitting a complete phase B, or any phase D, earns the value point again |
| Rules.Credit | server.js:205-210 | a vote gives a team +1 value if it is the value team, +1 diff if it is the diff team and +1 competition if it is the red-ocean team; nothing else changes |
| Rules.RepeatedVoteAddsAgain | server.js:201-212 | casting the same vote twice gives each named team its points twice |
| Rules.Adjust | server.js:246-248 | value and diff move by exactly the given deltas; competition moves by its delta, is clamped at 0, and is never negative afterwards |
| Rules.Fill | server.js:233-234 | the customer draw sets customer and pain to the drawn cards only where they were empty; a filled field is kept; nothing else changes |
| Rules.FillSettles | server.js:230-235 | after a draw with non-empty cards both fields are filled, so a second draw changes nothing |
| Rules.Rename | server.js:133 | a name that is all white space leaves the team unchanged; otherwise the new name is the trimmed name cut to 24 characters, non-empty; only the name changes |
| Projection.ProjectTeams | server.js:94-105 | one view entry per team, in order; id, name, value, competition and diff are copied; customer, pain, wehelp, pivot and blueMove are copied iff the id is active and blanked otherwise |
| Projection.InactiveAnswersInvisible | server.js:100-104 | two team lists that differ only in the answers of inactive teams give the same view |
| Projection.ActiveAnswersVisible | server.js:100-104 | two team lists with the same view have the same answers for every active team |
| Sessions.Session.constructor | server.js:29-53 | the session starts at round 1 with teams 1-4 active, phase "A", no event, no vote and twelve initial teams; the invariant holds |
| Sessions.Session.Find | server.js:131 | `teams.find` returns the first index whose id matches, or none when no id matches; under the invariant that is index id-1 for ids 1..12 |
| Sessions.Session.ActiveSlot | server.js:147-150 | the submission guard passes exactly when the connection's team exists and is in the active block |
| Sessions.Session.PublicState | server.js:86-107 | the view shows the game code, round, active list, phase and event as stored, and every team's id, name, value, competition and diff as stored; a team's answers appear iff the team belongs to the current round |
| Sessions.Session.SetActiveTeamsByRound | server.js:81-84 | the active list becomes the round's block; the other session fields stay |
| Sessions.Session.JoinTeam | server.js:130-137 | an unknown id changes nothing and sends nothing; otherwise the connection is bound to the team, the team gets the rename, and no other team changes |
| Sessions.Session.SubmitPhaseA | server.js:146-155 | nothing changes and nothing is sent unless the connection's team exists and is active; then only that team changes, by the phase-A rule |
| Sessions.Session.SubmitPhaseB | server.js:157-175 | nothing changes and nothing is sent unless the connection's team exists and is active; then only that team changes, by the phase-B rule |
| Sessions.Session.SubmitPhaseC | server.js:177-185 | nothing changes and nothing is sent unless the connection's team exists and is active; then only that team changes, by the phase-C rule |
| Sessions.Session.SubmitPhaseD | server.js:187-198 | nothing changes and nothing is sent unless the connection's team exists and is active; then only that team changes, by the phase-D rule; competition stays non-negative |
| Sessions.Session.Vote | server.js:201-212 | the three raw ids become the stored vote even if they name no team; every team gets exactly its vote credit; round, block, phase and event stay; always sent |
| Sessions.Session.VoteCredits | server.js:205-210 | the three successive point awards add up to each team's vote credit |
| Sessions.Session.Award | server.js:208-210 | an award changes only the team it resolved to, if any, by the given points, and keeps the invariant |
| Sessions.Session.SetPhase | server.js:215-218 | the phase becomes the given value, whatever it is; nothing else changes; always sent |
| Sessions.Session.NextRound | server.js:220-226 | the round rises by 1 up to 3 and stays 3 at round 3; the active list becomes the new round's block; the phase becomes "A" and the event ""; no team record changes |
| Sessions.Session.DrawRandom | server.js:228-241 | "customer" fills only the empty customer/pain fields of the four active teams with the drawn cards; no other team and no filled field changes; "event" sets the event to the drawn event card; any other kind changes nothing; always sent |
| Sessions.Session.DrawFor | server.js:232-234 | one pass of the draw loop fills the empty fields of that one team and changes no other team |
| Sessions.Session.AdjustScore | server.js:243-250 | an unknown id changes nothing and sends nothing; otherwise only that team changes, by the adjustment rule, and competition stays non-negative |

## Left out

- Web serving and transport are not modelled: the Express routes, static files, `server.listen` and the socket.io connection. Each emit to all observers is modelled as the handler's `broadcast` result. The replies to the sender only (`joined`, `joinedAudience`, the state sent on connection and after `joinAudience`) are not modelled, because they change no state.
- `Date.now()` is a clock read. It is the parameter `now`, and `lastUpdateAt` becomes `Some(now)`.
- `Math.random()` is not modelled. Each draw is an index parameter in the range of its deck. The model proves which deck a drawn card comes from, not how often each card is drawn.
- JavaScript coercions are not modelled: `Number(...)` on ids and deltas, `(x || "")` on absent text fields, and `(delta || 0)`. Ids are `Option<int>`, with `None` standing for an absent or non-numeric id, which matches no team. Text fields are strings, and an absent field is passed as "".
- Deltas are integers. In the source they are JavaScript doubles: a non-numeric delta gives NaN, a fractional delta such as "0.5" is accepted, and scores lose precision past 2^53. The integer model has none of these.
- Exceptions thrown by a handler are not modelled. A missing payload object throws at the destructuring (server.js:130, 146, 157, 177, 187, 201, 215, 228, 243). A truthy text field with no string methods (a number, say) makes `.trim` or `.slice` throw a TypeError (server.js:133, 151-152, 164-166, 182, 193). In `submitPhaseA` a non-string `pain` throws after `customer` has been written at server.js:151, leaving a partial update with no time stamp and no broadcast; the model's handlers always run to completion.
- Text.Lower: folds only the ASCII letters A-Z, and leaves every other character as it is. Full Unicode lower-casing also changes non-ASCII letters, but the only ones it turns into ASCII letters are U+0130 (into "i" followed by U+0307) and U+212A (into "k"). No keyword contains "k", and no keyword has an "i" followed by U+0307, so the Blue-Move classification is the same either way.
- Text.Truncate: counts Unicode scalar values. `slice` counts UTF-16 code units, so the two differ for characters outside the Basic Multilingual Plane.
- `applyBlueMove`'s `if (!team) return;` is not modelled: its only caller always passes a team it found.
- The game code is the constant `GameCode` rather than a session field: nothing ever changes it.
- Team records are values stored in the session's array. Each handler replaces a team's element rather than mutating a shared object. No team object is reachable other than through `state.teams`, so the observable state is the same.

