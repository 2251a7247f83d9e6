/**
 * The login-session store, the command queue and the one-command slot of the
 * mock server, as values, and the four handlers that read or change them
 * (`/login`, `/login-status`, `/command`, `/state`) as functions from the old
 * state to the new state and the response. The class in server.dfy performs
 * the same steps in place and is proved equal to these functions.
 */
module Handoff {
  import opened Wrappers
  import Text

  /** A session key: the token the user directory issued to the user. */
  type Token = string

  /** One record of the user directory (the `users` array of the JSON store). */
  datatype User = User(studentId: string, password: string, name: string, token: Token)

  datatype Status = Pending | Success | Failed

  datatype UserData = UserData(studentId: string, name: string, token: Token)

  datatype Session = Session(status: Status, startTime: int, userData: UserData)

  /** The only command type the server queues: `type: 'login'`, with the credentials to replay. */
  datatype Command = LoginCommand(id: int, studentId: string, password: string, token: Token, timestamp: string)

  /** The `data` of a worker report: `loginSuccess` when present, every other field kept opaque. */
  datatype Report = Report(loginSuccess: Option<bool>, fields: map<string, string>)

  /** `executionWebState`: when the worker last reported and what it sent. */
  datatype WorkerState = WorkerState(lastUpdate: Option<string>, data: Report)

  /** `loginSessions`, `commandQueue`, `currentCommand` and `executionWebState`. */
  datatype State = State(
    sessions: map<Token, Session>,
    queue: seq<Command>,
    current: Option<Command>,
    lastState: WorkerState)

  /** The state when the process starts. */
  const Initial := State(map[], [], None, WorkerState(None, Report(None, map[])))

  /** The response to `POST /login`. */
  datatype LoginResponse = Accepted(token: Token) | Unauthorized {
    function Code(): int {
      if Accepted? then 200 else 401
    }

    /** The `success` field of the response body. */
    function Success(): bool {
      Accepted?
    }
  }

  /** The response to `GET /login-status`. */
  datatype StatusResponse =
    | MissingToken
    | UnknownToken
    | LoggedIn(userData: UserData)
    | LoginFailed
    | InProgress(elapsed: int)
  {
    function Code(): int {
      match this
      case MissingToken => 400
      case UnknownToken => 404
      case _ => 200
    }

    /** The `success` field of the response body. */
    function Success(): bool {
      LoggedIn? || InProgress?
    }
  }

  // ----- the user directory -----

  predicate Matches(u: User, studentId: string, password: string) {
    u.studentId == studentId && u.password == password
  }

  /** `i` is the first record of the directory whose credentials match exactly. */
  predicate FirstMatch(users: seq<User>, studentId: string, password: string, i: nat) {
    i < |users| && Matches(users[i], studentId, password)
    && forall j: nat :: j < i ==> !Matches(users[j], studentId, password)
  }

  /** The index of the first matching record at or after `from`. */
  function FindFrom(users: seq<User>, studentId: string, password: string, from: nat): (r: Option<nat>)
    requires from <= |users|
    ensures r.Some? ==> from <= r.value < |users| && Matches(users[r.value], studentId, password)
    ensures r.Some? ==> forall j: nat :: from <= j < r.value ==> !Matches(users[j], studentId, password)
    ensures r.None? ==> forall j: nat :: from <= j < |users| ==> !Matches(users[j], studentId, password)
    decreases |users| - from
  {
    if from == |users| then None
    else if Matches(users[from], studentId, password) then Some(from)
    else FindFrom(users, studentId, password, from + 1)
  }

  /** `db.users.find(u => u.student_id === student_id && u.password === password)`. */
  function FindUser(users: seq<User>, studentId: string, password: string): (r: Option<User>)
    ensures r.None? <==> forall j: nat :: j < |users| ==> !Matches(users[j], studentId, password)
    ensures r.Some? ==> exists i: nat :: FirstMatch(users, studentId, password, i) && users[i] == r.value
  {
    match FindFrom(users, studentId, password, 0)
    case None => None
    case Some(i) =>
      assert FirstMatch(users, studentId, password, i);
      Some(users[i])
  }

  /** The directory has one first match, so `find` is determined. */
  lemma FirstMatchUnique(users: seq<User>, studentId: string, password: string, i: nat, k: nat)
    requires FirstMatch(users, studentId, password, i) && FirstMatch(users, studentId, password, k)
    ensures i == k
  {
  }

  // ----- the commands not yet resolved -----

  /** The commands handed over but not yet resolved, oldest first: the slot, then the queue. */
  function Outstanding(s: State): seq<Command> {
    (if s.current.Some? then [s.current.value] else []) + s.queue
  }

  /**
   * What every reachable state satisfies: each session is filed under the
   * token its user data carries, and every outstanding command names a session.
   */
  predicate Valid(s: State) {
    && (forall t :: t in s.sessions ==> s.sessions[t].userData.token == t)
    && (forall c :: c in Outstanding(s) ==> c.token in s.sessions)
  }

  lemma InitialValid()
    ensures Valid(Initial) && Outstanding(Initial) == []
  {
  }

  // ----- POST /login -----

  /**
   * The login handler: on an exact credential match, the session under the
   * user's directory token is (re)set to pending and a login command is
   * appended to the queue; otherwise nothing changes and the answer is 401.
   */
  function LoginStep(s: State, users: seq<User>, studentId: string, password: string,
                     now: int, commandId: int, timestamp: string): (r: (State, LoginResponse))
    ensures r.0.current == s.current && r.0.lastState == s.lastState
    ensures r.1.Accepted? <==> exists j: nat :: j < |users| && Matches(users[j], studentId, password)
    ensures r.1.Unauthorized? ==> r.0 == s && r.1.Code() == 401
    ensures r.1.Accepted? ==>
      var t := r.1.token;
      && r.1.Code() == 200
      && r.0.sessions.Keys == s.sessions.Keys + {t}
      && (exists i: nat :: FirstMatch(users, studentId, password, i) && users[i].token == t
            && r.0.sessions[t] == Session(Pending, now, UserData(studentId, users[i].name, t)))
      && (forall k :: k in s.sessions && k != t ==> r.0.sessions[k] == s.sessions[k])
      && r.0.queue == s.queue + [LoginCommand(commandId, studentId, password, t, timestamp)]
      && Outstanding(r.0) == Outstanding(s) + [LoginCommand(commandId, studentId, password, t, timestamp)]
    ensures Valid(s) ==> Valid(r.0)
  {
    match FindUser(users, studentId, password)
    case None => (s, Unauthorized)
    case Some(u) =>
      var session := Session(Pending, now, UserData(studentId, u.name, u.token));
      var command := LoginCommand(commandId, studentId, password, u.token, timestamp);
      (s.(sessions := s.sessions[u.token := session], queue := s.queue + [command]), Accepted(u.token))
  }

  // ----- GET /login-status -----

  const BearerPrefix := "Bearer "

  /**
   * `req.query.token || req.headers.authorization?.replace('Bearer ', '')`:
   * a non-empty query token wins; otherwise the Authorization header with its
   * first "Bearer " removed; otherwise nothing. The empty string stands for a
   * missing (falsy) token.
   */
  function RequestToken(query: Option<string>, authorization: Option<string>): (t: string)
    ensures query.Some? && query.value != "" ==> t == query.value
    ensures (query.None? || query.value == "") && authorization.None? ==> t == ""
    ensures (query.None? || query.value == "") && authorization.Some? ==>
      var h := authorization.value;
      && ((forall j: nat :: !Text.OccursAt(h, BearerPrefix, j)) ==> t == h)
      && (forall i: nat :: Text.FirstOccurrence(h, BearerPrefix, i) ==> t == h[..i] + h[i + |BearerPrefix|..])
  {
    if query.Some? && query.value != "" then query.value
    else if authorization.Some? then Text.ReplaceFirst(authorization.value, BearerPrefix, "")
    else ""
  }

  /** A bearer header carries its token: "Bearer t" is read as t. */
  lemma BearerHeaderToken(query: Option<string>, t: string)
    requires query.None? || query.value == ""
    ensures RequestToken(query, Some(BearerPrefix + t)) == t
  {
    Text.ReplaceLeadingPattern(BearerPrefix, t);
  }

  /** `Math.floor((now - startTime) / 1000)`: whole seconds elapsed, rounded down. */
  function ElapsedSeconds(startTime: int, now: int): (r: int)
    ensures r * 1000 <= now - startTime < r * 1000 + 1000
  {
    (now - startTime) / 1000
  }

  /**
   * For one session start time, a later `now` never yields fewer elapsed
   * seconds. (A repeat login in between restarts the count: see
   * RepeatLoginRestartsElapsed.)
   */
  lemma ElapsedMonotone(startTime: int, now1: int, now2: int)
    requires now1 <= now2
    ensures ElapsedSeconds(startTime, now1) <= ElapsedSeconds(startTime, now2)
  {
    var e1, e2 := ElapsedSeconds(startTime, now1), ElapsedSeconds(startTime, now2);
    assert e1 * 1000 < e2 * 1000 + 1000;
  }

  /** The status handler: it only reads the session store. */
  function LoginStatus(s: State, query: Option<string>, authorization: Option<string>, now: int): (r: StatusResponse)
    ensures var t := RequestToken(query, authorization);
      && (r.Code() == 400 <==> t == "")
      && (r.Code() == 404 <==> t != "" && t !in s.sessions)
      && (r.LoggedIn? <==> t != "" && t in s.sessions && s.sessions[t].status == Success)
      && (r.LoggedIn? ==> r.userData == s.sessions[t].userData)
      && (r.LoginFailed? <==> t != "" && t in s.sessions && s.sessions[t].status == Failed)
      && (r.InProgress? <==> t != "" && t in s.sessions && s.sessions[t].status == Pending)
      && (r.InProgress? ==>
            r.elapsed * 1000 <= now - s.sessions[t].startTime < r.elapsed * 1000 + 1000)
      && (r.Success() <==> r.LoggedIn? || r.InProgress?)
  {
    var t := RequestToken(query, authorization);
    if t == "" then MissingToken
    else if t !in s.sessions then UnknownToken
    else
      var session := s.sessions[t];
      match session.status
      case Success => LoggedIn(session.userData)
      case Failed => LoginFailed
      case Pending => InProgress(ElapsedSeconds(session.startTime, now))
  }

  /**
   * Two status queries on one state, the second no earlier than the first:
   * a pending answer stays pending, with no fewer elapsed seconds.
   */
  lemma PendingAnswerMonotone(s: State, query: Option<string>, authorization: Option<string>, now1: int, now2: int)
    requires now1 <= now2
    requires LoginStatus(s, query, authorization, now1).InProgress?
    ensures LoginStatus(s, query, authorization, now2).InProgress?
    ensures LoginStatus(s, query, authorization, now1).elapsed <= LoginStatus(s, query, authorization, now2).elapsed
  {
    var t := RequestToken(query, authorization);
    ElapsedMonotone(s.sessions[t].startTime, now1, now2);
  }

  // ----- GET /command -----

  /**
   * The dispenser: the queue head moves into the slot only when the slot is
   * empty; the answer is the slot's command, `None` standing for `type: 'none'`.
   */
  function DispenseStep(s: State): (r: (State, Option<Command>))
    ensures r.0.sessions == s.sessions && r.0.lastState == s.lastState
    ensures Outstanding(r.0) == Outstanding(s)
    ensures r.1 == r.0.current
    ensures r.1 == if Outstanding(s) == [] then None else Some(Outstanding(s)[0])
    ensures s.current.Some? || s.queue == [] ==> r.0 == s
    ensures Valid(s) ==> Valid(r.0)
  {
    if |s.queue| > 0 && s.current.None? then
      var s' := s.(current := Some(s.queue[0]), queue := s.queue[1..]);
      assert Outstanding(s') == s.queue;
      (s', s'.current)
    else
      (s, s.current)
  }

  // ----- POST /state -----

  /** The session a report resolves: the token of the slot's command, if non-empty and a session key. */
  function ResolvedToken(s: State): Option<Token> {
    if s.current.Some? && s.current.value.token != "" && s.current.value.token in s.sessions
    then Some(s.current.value.token)
    else None
  }

  function Outcome(loginSuccess: bool): Status {
    if loginSuccess then Success else Failed
  }

  /**
   * The relay: the report is stored; if it carries `loginSuccess`, the session
   * named by the slot's command (not by the report) takes the outcome, and the
   * slot is emptied whether or not a session was found.
   */
  function ReportStep(s: State, data: Report, timestamp: string): (r: State)
    ensures r.lastState == WorkerState(Some(timestamp), data)
    ensures r.queue == s.queue && r.sessions.Keys == s.sessions.Keys
    ensures data.loginSuccess.None? ==> r.sessions == s.sessions && r.current == s.current
    ensures data.loginSuccess.Some? ==>
      && r.current == None
      && Outstanding(r) == if s.current.Some? then Outstanding(s)[1..] else Outstanding(s)
    ensures forall t :: t in s.sessions && (data.loginSuccess.None? || ResolvedToken(s) != Some(t))
                        ==> r.sessions[t] == s.sessions[t]
    ensures data.loginSuccess.Some? && ResolvedToken(s).Some? ==>
      var t := ResolvedToken(s).value;
      r.sessions[t] == s.sessions[t].(status := Outcome(data.loginSuccess.value))
    ensures Valid(s) ==> Valid(r)
  {
    var stored := s.(lastState := WorkerState(Some(timestamp), data));
    if data.loginSuccess.None? then stored
    else
      var sessions :=
        if ResolvedToken(s).Some? then
          var t := ResolvedToken(s).value;
          s.sessions[t := s.sessions[t].(status := Outcome(data.loginSuccess.value))]
        else s.sessions;
      stored.(sessions := sessions, current := None)
  }

  // ----- properties relating several handlers -----

  /**
   * In a valid state a report with `loginSuccess` always finds the session of
   * the command in the slot (when its token is non-empty) and resolves it.
   */
  lemma RelayResolvesCurrent(s: State, data: Report, timestamp: string)
    requires Valid(s) && s.current.Some? && s.current.value.token != ""
    requires data.loginSuccess.Some?
    ensures var t := s.current.value.token;
      && t in ReportStep(s, data, timestamp).sessions
      && ReportStep(s, data, timestamp).sessions[t].status == Outcome(data.loginSuccess.value)
  {
    assert s.current.value in Outstanding(s);
  }

  /** A failed login leaves every status answer as it was. */
  lemma FailedLoginChangesNoAnswer(s: State, users: seq<User>, studentId: string, password: string,
                                   now: int, commandId: int, timestamp: string,
                                   query: Option<string>, authorization: Option<string>, later: int)
    requires forall j: nat :: j < |users| ==> !Matches(users[j], studentId, password)
    ensures var r := LoginStep(s, users, studentId, password, now, commandId, timestamp);
      && r.1 == Unauthorized
      && LoginStatus(r.0, query, authorization, later) == LoginStatus(s, query, authorization, later)
  {
  }

  /** A login whose credentials match the first directory record is accepted under that record's token. */
  lemma LoginByFirstRecord(s: State, users: seq<User>, now: int, commandId: int, timestamp: string)
    requires |users| > 0
    ensures var u := users[0];
      var r := LoginStep(s, users, u.studentId, u.password, now, commandId, timestamp);
      && r.1 == Accepted(u.token)
      && r.0.sessions[u.token].status == Pending
      && r.0.queue == s.queue + [LoginCommand(commandId, u.studentId, u.password, u.token, timestamp)]
  {
    var u := users[0];
    var r := LoginStep(s, users, u.studentId, u.password, now, commandId, timestamp);
    assert Matches(users[0], u.studentId, u.password);
    var i: nat :| FirstMatch(users, u.studentId, u.password, i) && users[i].token == r.1.token;
    FirstMatchUnique(users, u.studentId, u.password, i, 0);
  }

  /**
   * Two logins by the same user with the same directory use the same token:
   * the second overwrites the one session (back to pending, with the later
   * start time, whatever the first had become) and a second command follows
   * the first in the queue.
   */
  lemma RepeatLoginReusesSession(s: State, users: seq<User>, studentId: string, password: string,
                                 now1: int, id1: int, ts1: string, now2: int, id2: int, ts2: string)
    requires exists j: nat :: j < |users| && Matches(users[j], studentId, password)
    ensures var r1 := LoginStep(s, users, studentId, password, now1, id1, ts1);
      var r2 := LoginStep(r1.0, users, studentId, password, now2, id2, ts2);
      && r1.1.Accepted? && r2.1 == r1.1
      && r2.0.sessions.Keys == r1.0.sessions.Keys
      && r2.0.sessions[r1.1.token] == r1.0.sessions[r1.1.token].(startTime := now2)
      && r2.0.sessions[r1.1.token].status == Pending
      && Outstanding(r2.0) == Outstanding(s) + [LoginCommand(id1, studentId, password, r1.1.token, ts1),
                                               LoginCommand(id2, studentId, password, r1.1.token, ts2)]
  {
    var r1 := LoginStep(s, users, studentId, password, now1, id1, ts1);
    var u := FindUser(users, studentId, password).value;
    assert r1.1.token == u.token;
  }

  /**
   * A repeat login restarts the elapsed count: a user logged in at 0 is
   * pending for 5 seconds at 5000; after logging in again at 5000, the answer
   * at 6000 is 1 second. Elapsed seconds are monotone only between logins.
   */
  lemma RepeatLoginRestartsElapsed(s: State, users: seq<User>)
    requires |users| > 0 && users[0].token != ""
    ensures var u := users[0];
      var s1 := LoginStep(s, users, u.studentId, u.password, 0, 0, "").0;
      var s2 := LoginStep(s1, users, u.studentId, u.password, 5000, 1, "").0;
      && LoginStatus(s1, Some(u.token), None, 5000) == InProgress(5)
      && LoginStatus(s2, Some(u.token), None, 6000) == InProgress(1)
  {
    var u := users[0];
    LoginByFirstRecord(s, users, 0, 0, "");
    var s1 := LoginStep(s, users, u.studentId, u.password, 0, 0, "").0;
    LoginByFirstRecord(s1, users, 5000, 1, "");
  }

  /**
   * Login, dispatch, report and poll, as in the intended flow: a user found
   * in the directory, with a non-empty token, on a server with nothing
   * outstanding, is reported logged in with the user data of the login.
   */
  lemma LoginRoundTrip(s: State, users: seq<User>, studentId: string, password: string,
                       now: int, commandId: int, timestamp: string,
                       fields: map<string, string>, reportedAt: string, later: int)
    requires Outstanding(s) == []
    requires FindUser(users, studentId, password).Some?
    requires FindUser(users, studentId, password).value.token != ""
    ensures var u := FindUser(users, studentId, password).value;
      var r1 := LoginStep(s, users, studentId, password, now, commandId, timestamp);
      var r2 := DispenseStep(r1.0);
      var s3 := ReportStep(r2.0, Report(Some(true), fields), reportedAt);
      && r1.1 == Accepted(u.token)
      && r2.1 == Some(LoginCommand(commandId, studentId, password, u.token, timestamp))
      && LoginStatus(s3, Some(u.token), None, later) == LoggedIn(UserData(studentId, u.name, u.token))
  {
    var u := FindUser(users, studentId, password).value;
    var r1 := LoginStep(s, users, studentId, password, now, commandId, timestamp);
    assert r1.1 == Accepted(u.token);
    var i: nat :| FirstMatch(users, studentId, password, i) && users[i].token == u.token
                  && r1.0.sessions[u.token] == Session(Pending, now, UserData(studentId, users[i].name, u.token));
    var i': nat :| FirstMatch(users, studentId, password, i') && users[i'] == u;
    FirstMatchUnique(users, studentId, password, i, i');
    var r2 := DispenseStep(r1.0);
    assert ResolvedToken(r2.0) == Some(u.token);
  }
}
