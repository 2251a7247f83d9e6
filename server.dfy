/**
 * The mock server's module-level state as one object: the session map, the
 * command queue, the one-command slot and the last worker report, updated in
 * place by the handlers of `/login`, `/command` and `/state`. Each method
 * performs the handler's steps on the fields and is proved to produce the
 * state and response that the corresponding function of Handoff specifies;
 * `/login-status` only reads, and is `Handoff.LoginStatus(Snapshot(), ...)`.
 */
module MockServer {
  import opened Wrappers
  import opened Handoff

  class Server {
    var sessions: map<Token, Session>
    var queue: seq<Command>
    var current: Option<Command>
    var lastState: WorkerState

    /** The fields as a value of Handoff. */
    function Snapshot(): State
      reads this
    {
      State(sessions, queue, current, lastState)
    }

    ghost predicate Valid()
      reads this
    {
      Handoff.Valid(Snapshot())
    }

    constructor ()
      ensures Snapshot() == Initial && Valid()
    {
      sessions := map[];
      queue := [];
      current := None;
      lastState := WorkerState(None, Report(None, map[]));
    }

    /** `POST /login`. */
    method Login(users: seq<User>, studentId: string, password: string,
                 now: int, commandId: int, timestamp: string) returns (r: LoginResponse)
      requires Valid()
      modifies this
      ensures Valid()
      ensures (Snapshot(), r) == LoginStep(old(Snapshot()), users, studentId, password, now, commandId, timestamp)
      ensures current == old(current) && lastState == old(lastState)
      ensures r.Unauthorized? ==> sessions == old(sessions) && queue == old(queue)
      ensures r.Accepted? ==> sessions.Keys == old(sessions.Keys) + {r.token} && sessions[r.token].status == Pending
      ensures r.Accepted? ==> queue == old(queue) + [LoginCommand(commandId, studentId, password, r.token, timestamp)]
    {
      var user := FindUser(users, studentId, password);
      if user.Some? {
        var token := user.value.token;
        sessions := sessions[token := Session(Pending, now, UserData(studentId, user.value.name, token))];
        queue := queue + [LoginCommand(commandId, studentId, password, token, timestamp)];
        r := Accepted(token);
      } else {
        r := Unauthorized;
      }
    }

    /** `GET /command`: `None` is the `type: 'none'` answer. */
    method NextCommand() returns (r: Option<Command>)
      requires Valid()
      modifies this
      ensures Valid()
      ensures (Snapshot(), r) == DispenseStep(old(Snapshot()))
      ensures r == current
      ensures sessions == old(sessions) && lastState == old(lastState)
      ensures old(current).None? && old(queue) != [] ==> current == Some(old(queue)[0]) && queue == old(queue)[1..]
      ensures old(current).Some? || old(queue) == [] ==> current == old(current) && queue == old(queue)
    {
      if |queue| > 0 && current.None? {
        current := Some(queue[0]);
        queue := queue[1..];
      }
      r := current;
    }

    /** `POST /state`: the report is stored; a `loginSuccess` resolves the slot's session and empties the slot. */
    method ReportState(data: Report, timestamp: string)
      requires Valid()
      modifies this
      ensures Valid()
      ensures Snapshot() == ReportStep(old(Snapshot()), data, timestamp)
      ensures lastState == WorkerState(Some(timestamp), data) && queue == old(queue)
      ensures data.loginSuccess.None? ==> sessions == old(sessions) && current == old(current)
      ensures data.loginSuccess.Some? ==> current == None
    {
      lastState := WorkerState(Some(timestamp), data);
      if data.loginSuccess.Some? {
        if current.Some? && current.value.token != "" && current.value.token in sessions {
          var token := current.value.token;
          var session := sessions[token];
          sessions := sessions[token := session.(status := Outcome(data.loginSuccess.value))];
        }
        current := None;
      }
    }
  }

  /**
   * The intended login flow through one object: a login by a directory user
   * with a non-empty token, two polls, a successful report, a status query and
   * a last poll, on a fresh server.
   */
  method LoginFlow(users: seq<User>, studentId: string, password: string, now: int, later: int)
    returns (accepted: LoginResponse, command: Option<Command>, again: Option<Command>,
             status: StatusResponse, none: Option<Command>)
    requires FindUser(users, studentId, password).Some?
    requires FindUser(users, studentId, password).value.token != ""
    ensures var u := FindUser(users, studentId, password).value;
      && accepted == Accepted(u.token)
      && command == Some(LoginCommand(now, studentId, password, u.token, ""))
      && again == command
      && status == LoggedIn(UserData(studentId, u.name, u.token))
      && none == None
  {
    var u := FindUser(users, studentId, password).value;
    var server := new Server();
    LoginRoundTrip(Initial, users, studentId, password, now, now, "", map[], "", later);
    accepted := server.Login(users, studentId, password, now, now, "");
    command := server.NextCommand();
    again := server.NextCommand();
    server.ReportState(Report(Some(true), map[]), "");
    status := LoginStatus(server.Snapshot(), Some(u.token), None, later);
    none := server.NextCommand();
  }
}
