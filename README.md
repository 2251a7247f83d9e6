# Login handoff of the LAM mock server, in Dafny

`server.cjs` is a mock Express backend. It connects a prompt web client, which logs a user in, to an execution worker, which performs the real login. It holds three pieces of in-memory state:

- `loginSessions`: a map from a directory-issued token to a session `{status, startTime, userData}`;
- `commandQueue`: a FIFO array of `login` commands waiting for the worker;
- `currentCommand`: a slot holding at most one command handed to the worker.

It also keeps `executionWebState`, the worker's last report. This project models that state and the four handlers that use it:

- `POST /login` checks the credentials against the user directory. On a match it (re)creates a pending session under the user's token and queues a login command.
- `GET /login-status` maps the session to a 400, 404, success, failed or pending answer. A pending answer carries the elapsed seconds.
- `GET /command` moves the queue head into the slot only when the slot is empty. It then answers with the slot's command, or with `type: 'none'`.
- `POST /state` stores the report. If the report carries `loginSuccess`, it resolves the session named by the command in the slot and empties the slot.

Layout:

- `handoff.dfy` (module `Handoff`) holds the state as a value, `State`. Each handler is a function from the old state to the new state and the response, with a contract that says what the handler guarantees. The invariant `Valid` says two things: every session is filed under the token its user data carries, and every outstanding command names an existing session.
- `server.dfy` (module `MockServer`) holds the class `Server`. Its fields are `sessions`, `queue`, `current` and `lastState`, and its methods update them in place as the handlers do. Each method is proved to produce exactly the state and response of the matching `Handoff` function, and to keep `Valid`. `/login-status` only reads the state, so it is the function `Handoff.LoginStatus` applied to `Snapshot()`.
- `traces.dfy` (module `Traces`) covers whole runs, meaning any sequence of requests, each handled to completion. It proves that commands leave the queue in the order they were pushed. It proves that they are resolved in that same order. It proves that `Valid` holds throughout a run, and that repeated polls re-deliver the same command.
- `text.dfy` (module `Text`) models `String.prototype.replace` with a string pattern, which replaces only the first occurrence. The replacement is inserted literally. The status handler uses it to strip `Bearer ` from the Authorization header.

The user directory, the current time (`Date.now()`), the command id and the ISO timestamps are parameters. The JSON file the directory is read from is not modelled. A falsy token (an empty string or a missing value) is the empty string in the model. The slot is an `Option`, so "at most one command in flight" holds by construction.

The code does not keep session status monotone, although a lifecycle of pending, then success or failed, would suggest it. This model follows the code:

- A repeat login resets the session to `pending` (server.cjs:50).
- The relay writes `success` or `failed` without checking that the session was pending (server.cjs:205-210).

`Traces.TerminalStatusIsNotFinal` shows both from a fresh server. The session goes from success to failed after a second login by the same user, and then back to pending after a third.

A repeat login also restarts the elapsed count of a pending session, because it sets a new `startTime` (server.cjs:52). The elapsed seconds in the status answer therefore grow only between logins. `Handoff.PendingAnswerMonotone` proves that two queries on one state never go backwards. `Handoff.RepeatLoginRestartsElapsed` shows the answer dropping from 5 seconds to 1 across a repeat login.

## Model

| member | source | states |
|---|---|---|
| `Text.IndexOfFrom` | server.cjs:93 | the result is the first index at or after `from` where the pattern occurs; when there is none, the pattern occurs nowhere from `from` on |
| `Text.ReplaceFirst` | server.cjs:93 | `replace` with a string pattern: the first occurrence is replaced; a string without an occurrence is returned unchanged |
| `Text.ReplaceLeadingPattern` | server.cjs:93 | removing a pattern that the string starts with leaves exactly the rest of the string |
| `Handoff.FindFrom` | server.cjs:43-45 | the index found is the first record from `from` on whose student id and password both match exactly; none is found only if no record matches |
| `Handoff.FindUser` | server.cjs:43-45 | `find` returns a user exactly when some record matches, and the user it returns is the first matching record |
| `Handoff.FirstMatchUnique` | server.cjs:43-45 | the first matching record is unique |
| `Handoff.InitialValid` | server.cjs:22-33 | the start state (no sessions, empty queue, empty slot) satisfies the invariant and has nothing outstanding |
| `Handoff.LoginStep` | server.cjs:36-89 | accepted (200) iff some record matches; then the session under the first match's token is pending with `startTime = now` and userData {studentId, name, token}, other sessions are unchanged, the queue gains one login command with that token, id and password, and the slot is unchanged; otherwise 401 and the state is unchanged; keeps the invariant |
| `Handoff.LoginByFirstRecord` | server.cjs:43-71 | a login with the first record's credentials is accepted under that record's token, leaves its session pending, and appends its command |
| `Handoff.FailedLoginChangesNoAnswer` | server.cjs:81-88 | a login that matches no record answers 401 and leaves every later status answer exactly as before |
| `Handoff.RepeatLoginReusesSession` | server.cjs:49-71 | a second login by the same user returns the same token, keeps the same session key, resets that session to pending with the new start time, and appends a second command after the first |
| `Handoff.RequestToken` | server.cjs:93 | a non-empty query token takes precedence over the header; with no query token and no header the token is empty (a 400); otherwise it is the header with its first `Bearer ` occurrence removed, or the whole header when it has none |
| `Handoff.BearerHeaderToken` | server.cjs:93 | without a non-empty query token, an `Authorization: Bearer t` header yields the token t |
| `Handoff.ElapsedSeconds` | server.cjs:131-136 | the elapsed value is the floor of (now - startTime) / 1000: `r*1000 <= now - startTime < r*1000 + 1000` |
| `Handoff.ElapsedMonotone` | server.cjs:131-136 | for one session start time, a later `now` never yields fewer elapsed seconds |
| `Handoff.LoginStatus` | server.cjs:92-139 | 400 iff the token is missing or empty; 404 iff the token is not a session key; success with the session's userData iff the status is success; `success == false` (failed) iff the status is failed; pending with floor-seconds elapsed iff the status is pending; `success` is true exactly for the success and pending answers |
| `Handoff.PendingAnswerMonotone` | server.cjs:129-137 | two status queries on one state, the second no earlier: a pending answer stays pending, with no fewer elapsed seconds |
| `Handoff.DispenseStep` | server.cjs:170-186 | the answer is the slot's command after the step, which is the oldest outstanding command, or none when nothing is outstanding; the outstanding sequence (slot, then queue), sessions and worker state are unchanged; an occupied slot or an empty queue leaves the state unchanged; keeps the invariant |
| `Handoff.ReportStep` | server.cjs:189-222 | the report is stored with its timestamp and the queue is unchanged; without `loginSuccess`, sessions and slot are unchanged; with it, the slot is emptied unconditionally, only the session named by the slot's command (if its token is non-empty and a key) changes, and its status becomes success or failed accordingly, with start time and user data kept; keeps the invariant |
| `Handoff.RelayResolvesCurrent` | server.cjs:199-216 | in a valid state, a report with `loginSuccess` always finds and resolves the session of the command in the slot when that command's token is non-empty |
| `Handoff.RepeatLoginRestartsElapsed` | server.cjs:50-52 | a repeat login restarts the elapsed count: pending for 5 seconds at 5000 after a login at 0, then 1 second at 6000 after a repeat login at 5000 |
| `Handoff.LoginRoundTrip` | server.cjs:36-222 | with nothing outstanding, a matching login, a poll and a successful report make the poll dispense that login command, and a later status query with the token answers success with the login's user data |
| `Traces.StepQueue` | server.cjs:171-173 | for each request, what leaves the queue, followed by the new queue, is the old queue followed by what was pushed |
| `Traces.StepOutstanding` | server.cjs:199-215 | for each request, what is resolved, followed by what is then outstanding, is what was outstanding followed by what was pushed |
| `Traces.QueueIsFifo` | server.cjs:171-173 | over any run, the dispatched commands followed by the final queue are the initial queue followed by all pushed commands, so commands leave the queue in push order |
| `Traces.ResolutionIsFifo` | server.cjs:199-215 | over any run, the resolved commands followed by the final outstanding ones are the initial outstanding ones followed by all pushed commands |
| `Traces.FreshServerIsFifo` | server.cjs:26-27 | from a fresh server, the dispatched commands and the resolved commands are prefixes of the pushed commands, and the resolved ones are a prefix of the dispatched ones |
| `Traces.RunKeepsValid` | server.cjs:22-27 | every state that a run reaches from a valid state is valid |
| `Traces.PollsKeepState` | server.cjs:171-178 | with the slot occupied or the queue empty, any number of polls leave the state unchanged |
| `Traces.PollsAreStable` | server.cjs:171-178 | after the first poll, further polls change nothing and answer the same command as the first |
| `Traces.TwoLogins` | server.cjs:49-71 | two logins by the same user on a fresh server leave a valid state with an empty slot and two identical commands queued |
| `Traces.SuccessWithSecondLoginQueued` | server.cjs:199-215 | after those two logins, a poll and a successful report, the session is at success, the slot is empty and the second command is still queued |
| `Traces.PollThenFailure` | server.cjs:171-215 | with one command queued for a session and an empty slot, a poll and a failed report set that session to failed |
| `Traces.TerminalStatusIsNotFinal` | server.cjs:205-210 | from a fresh server, a session can go from success to failed, and a later login returns it to pending |
| `MockServer.Server.constructor` | server.cjs:22-33 | the new server holds the start state and is valid |
| `MockServer.Server.Login` | server.cjs:36-89 | the fields become exactly `LoginStep`'s state and the method returns its response; slot and worker state are unchanged; on 401 sessions and queue are unchanged; on acceptance the token's session is pending and one command is appended |
| `MockServer.Server.NextCommand` | server.cjs:170-186 | the fields become exactly `DispenseStep`'s state and the method returns its answer, which is the slot; with an empty slot and a non-empty queue the head moves into the slot; otherwise queue and slot are unchanged |
| `MockServer.Server.ReportState` | server.cjs:189-222 | the fields become exactly `ReportStep`'s state; the report is stored; without `loginSuccess` sessions and slot are unchanged; with it the slot is empty afterwards |
| `MockServer.LoginFlow` | server.cjs:36-222 | the round trip through one `Server` object: the login is accepted under the user's token, the first two polls both deliver its command, after a successful report the status query answers success with the login's user data, and a last poll answers `none` |

## Left out

- Express and CORS wiring, JSON body parsing, `app.listen`, `console.log` output, and the message texts of the responses. For `/login` and `/login-status` the model keeps the status code, the `success` field and the data of each response. For `/command` it keeps the command or `none`. The constant `/state` acknowledgement (200 `{success: true}`) is not returned by the model.
- Reading `db.json` (`getDb`) and its failures. The directory is a parameter, a sequence of records.
- `Date.now()` and `new Date().toISOString()`. These are the parameters `now`, `commandId` and `timestamp`. The two `Date.now()` calls of a login are separate parameters (`now`, `commandId`) because they may differ.
- `POST /prompt` and `GET /action`. They answer with a mock echo and a constant and touch no state.
- `Text.ReplaceFirst`: the replacement string is inserted literally. JavaScript's `$&`, `$$`, `` $` `` and `$'` replacement patterns are not expanded. The server only replaces with the empty string, where the two agree.
- `Handoff.ReportStep`: `loginSuccess` is `Option<bool>`. A non-boolean JSON value is judged by JavaScript truthiness, which is not modelled. Under that rule `null` or `0` would count as a failed login and a non-empty string as a successful one.
- `Handoff.LoginStep`: request fields and directory fields are strings. A request without `student_id` or `password`, which would match a record lacking the same field (`undefined === undefined`), is not modelled. Neither is a directory record without a `token`.
- `Handoff.RequestToken` takes the query token and the Authorization header as optional strings. Repeated query parameters, which Express turns into an array, are not modelled.
- A `/state` body without `data`, which makes the handler throw before it answers.
- Concurrency. Each request runs to completion on the event loop, so a run is a sequence of whole handler steps.
