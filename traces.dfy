/**
 * Runs of the server: any sequence of requests to the three handlers that
 * change state, each run to completion before the next (the event loop never
 * interleaves two handlers). What holds over whole runs: commands leave the
 * queue and are resolved in the order they were pushed, the state invariant
 * holds throughout, and repeated polls re-deliver one command.
 */
module Traces {
  import opened Wrappers
  import opened Handoff

  /** A request that can change the state. */
  datatype Event =
    | LoginRequest(users: seq<User>, studentId: string, password: string,
                   now: int, commandId: int, timestamp: string)
    | CommandPoll
    | StateReport(data: Report, timestamp: string)

  function Step(s: State, e: Event): State {
    match e
    case LoginRequest(users, studentId, password, now, commandId, timestamp) =>
      LoginStep(s, users, studentId, password, now, commandId, timestamp).0
    case CommandPoll => DispenseStep(s).0
    case StateReport(data, timestamp) => ReportStep(s, data, timestamp)
  }

  function Run(s: State, events: seq<Event>): State
    decreases |events|
  {
    if events == [] then s else Run(Step(s, events[0]), events[1..])
  }

  /** The command an event pushes onto the queue, if any. */
  function Pushed(s: State, e: Event): seq<Command> {
    match e
    case LoginRequest(users, studentId, password, now, commandId, timestamp) =>
      var r := LoginStep(s, users, studentId, password, now, commandId, timestamp);
      if r.1.Accepted? then [LoginCommand(commandId, studentId, password, r.1.token, timestamp)] else []
    case _ => []
  }

  /** The command an event moves from the queue into the slot, if any. */
  function Dispatched(s: State, e: Event): seq<Command> {
    if e.CommandPoll? && s.current.None? && s.queue != [] then [s.queue[0]] else []
  }

  /** The command an event takes out of the slot, if any. */
  function Resolved(s: State, e: Event): seq<Command> {
    if e.StateReport? && e.data.loginSuccess.Some? && s.current.Some? then [s.current.value] else []
  }

  function PushedIn(s: State, events: seq<Event>): seq<Command>
    decreases |events|
  {
    if events == [] then [] else Pushed(s, events[0]) + PushedIn(Step(s, events[0]), events[1..])
  }

  function DispatchedIn(s: State, events: seq<Event>): seq<Command>
    decreases |events|
  {
    if events == [] then [] else Dispatched(s, events[0]) + DispatchedIn(Step(s, events[0]), events[1..])
  }

  function ResolvedIn(s: State, events: seq<Event>): seq<Command>
    decreases |events|
  {
    if events == [] then [] else Resolved(s, events[0]) + ResolvedIn(Step(s, events[0]), events[1..])
  }

  /** One step: what leaves the queue, followed by the new queue, is the old queue followed by what was pushed. */
  lemma StepQueue(s: State, e: Event)
    ensures Dispatched(s, e) + Step(s, e).queue == s.queue + Pushed(s, e)
  {
    match e
    case LoginRequest(_, _, _, _, _, _) =>
    case CommandPoll =>
      if s.current.None? && s.queue != [] {
        assert DispenseStep(s).0.queue == s.queue[1..];
      }
    case StateReport(data, timestamp) =>
  }

  /** One step: what is resolved, followed by what is outstanding afterwards, is what was outstanding plus what was pushed. */
  lemma StepOutstanding(s: State, e: Event)
    ensures Resolved(s, e) + Outstanding(Step(s, e)) == Outstanding(s) + Pushed(s, e)
  {
    match e
    case LoginRequest(_, _, _, _, _, _) =>
    case CommandPoll =>
    case StateReport(data, timestamp) =>
  }

  /**
   * Commands leave the queue in the order they were pushed: over any run,
   * the dispatched commands followed by the final queue are the initial queue
   * followed by the pushed commands.
   */
  lemma {:induction false} QueueIsFifo(s: State, events: seq<Event>)
    ensures DispatchedIn(s, events) + Run(s, events).queue == s.queue + PushedIn(s, events)
    decreases |events|
  {
    if events != [] {
      var e, rest := events[0], events[1..];
      var s' := Step(s, e);
      StepQueue(s, e);
      QueueIsFifo(s', rest);
      Splice(Dispatched(s, e), s'.queue, s.queue, Pushed(s, e),
             DispatchedIn(s', rest), Run(s', rest).queue, PushedIn(s', rest));
    }
  }

  /**
   * Commands are resolved in the order they were pushed: over any run, the
   * resolved commands followed by those still outstanding are those
   * outstanding at the start followed by the pushed commands.
   */
  lemma {:induction false} ResolutionIsFifo(s: State, events: seq<Event>)
    ensures ResolvedIn(s, events) + Outstanding(Run(s, events)) == Outstanding(s) + PushedIn(s, events)
    decreases |events|
  {
    if events != [] {
      var e, rest := events[0], events[1..];
      var s' := Step(s, e);
      StepOutstanding(s, e);
      ResolutionIsFifo(s', rest);
      Splice(Resolved(s, e), Outstanding(s'), Outstanding(s), Pushed(s, e),
             ResolvedIn(s', rest), Outstanding(Run(s', rest)), PushedIn(s', rest));
    }
  }

  /** Chains one step's conservation equation with the rest of the run's. */
  lemma Splice<T>(out: seq<T>, mid: seq<T>, start: seq<T>, added: seq<T>,
                  outRest: seq<T>, final: seq<T>, addedRest: seq<T>)
    requires out + mid == start + added
    requires outRest + final == mid + addedRest
    ensures (out + outRest) + final == start + (added + addedRest)
  {
    calc {
      (out + outRest) + final;
      out + (outRest + final);
      (out + mid) + addedRest;
      (start + added) + addedRest;
    }
  }

  /** From a fresh server, dispatched and resolved commands are both prefixes of the pushed ones. */
  lemma FreshServerIsFifo(events: seq<Event>)
    ensures DispatchedIn(Initial, events) <= PushedIn(Initial, events)
    ensures ResolvedIn(Initial, events) <= PushedIn(Initial, events)
    ensures ResolvedIn(Initial, events) <= DispatchedIn(Initial, events)
  {
    var dispatched, resolved, pushed := DispatchedIn(Initial, events), ResolvedIn(Initial, events), PushedIn(Initial, events);
    var final := Run(Initial, events);
    QueueIsFifo(Initial, events);
    ResolutionIsFifo(Initial, events);
    assert Initial.queue == [] && Outstanding(Initial) == [];
    PrefixOfSum(dispatched, final.queue);
    PrefixOfSum(resolved, Outstanding(final));
    PrefixesAreOrdered(resolved, dispatched, pushed);
  }

  lemma PrefixOfSum<T>(a: seq<T>, b: seq<T>)
    ensures a <= a + b
  {
    assert (a + b)[..|a|] == a;
  }

  /** Of two prefixes of one sequence, the shorter is a prefix of the longer. */
  lemma PrefixesAreOrdered<T>(a: seq<T>, b: seq<T>, c: seq<T>)
    requires a <= c && b <= c && |a| <= |b|
    ensures a <= b
  {
    assert b[..|a|] == c[..|a|];
  }

  /** The invariant of Handoff holds in every state a run reaches from a valid one. */
  lemma {:induction false} RunKeepsValid(s: State, events: seq<Event>)
    requires Valid(s)
    ensures Valid(Run(s, events))
    decreases |events|
  {
    if events != [] {
      RunKeepsValid(Step(s, events[0]), events[1..]);
    }
  }

  function Polls(n: nat): (r: seq<Event>)
    ensures |r| == n && forall i :: 0 <= i < n ==> r[i] == CommandPoll
  {
    if n == 0 then [] else [CommandPoll] + Polls(n - 1)
  }

  /**
   * Re-delivery: after the first poll, any number of further polls change
   * nothing and each returns the same command as the first.
   */
  lemma {:induction false} PollsAreStable(s: State, n: nat)
    ensures Run(s, Polls(n + 1)) == DispenseStep(s).0
    ensures DispenseStep(Run(s, Polls(n + 1))).1 == DispenseStep(s).1
  {
    var s1 := DispenseStep(s).0;
    assert Polls(n + 1)[1..] == Polls(n);
    assert Run(s, Polls(n + 1)) == Run(s1, Polls(n));
    PollsKeepState(s1, n);
  }

  lemma {:induction false} PollsKeepState(s: State, n: nat)
    requires s.current.Some? || s.queue == []
    ensures Run(s, Polls(n)) == s
  {
    if n > 0 {
      assert Polls(n)[1..] == Polls(n - 1);
      PollsKeepState(s, n - 1);
    }
  }

  lemma RunCons(s: State, e: Event, rest: seq<Event>)
    ensures Run(s, [e] + rest) == Run(Step(s, e), rest)
  {
    assert ([e] + rest)[1..] == rest;
  }

  /** Two logins by the first directory user on a fresh server queue two identical commands. */
  lemma TwoLogins(users: seq<User>)
    requires |users| > 0
    ensures var u := users[0];
      var login := LoginRequest(users, u.studentId, u.password, 0, 0, "");
      var s2 := Step(Step(Initial, login), login);
      && Valid(s2) && s2.current == None
      && s2.queue == [LoginCommand(0, u.studentId, u.password, u.token, ""), LoginCommand(0, u.studentId, u.password, u.token, "")]
  {
    var u := users[0];
    var login := LoginRequest(users, u.studentId, u.password, 0, 0, "");
    InitialValid();
    var s1 := Step(Initial, login);
    LoginByFirstRecord(Initial, users, 0, 0, "");
    LoginByFirstRecord(s1, users, 0, 0, "");
  }

  /** Two logins by the first directory user, a poll and a successful report, from a fresh server. */
  lemma SuccessWithSecondLoginQueued(users: seq<User>)
    requires |users| > 0 && users[0].token != ""
    ensures var u := users[0];
      var login := LoginRequest(users, u.studentId, u.password, 0, 0, "");
      var s4 := Run(Initial, [login, login, CommandPoll, StateReport(Report(Some(true), map[]), "")]);
      && Valid(s4) && s4.current == None
      && s4.queue == [LoginCommand(0, u.studentId, u.password, u.token, "")]
      && u.token in s4.sessions && s4.sessions[u.token].status == Success
  {
    var u := users[0];
    var login := LoginRequest(users, u.studentId, u.password, 0, 0, "");
    var yes := StateReport(Report(Some(true), map[]), "");
    var cmd := LoginCommand(0, u.studentId, u.password, u.token, "");
    var s1 := Step(Initial, login);
    var s2 := Step(s1, login);
    TwoLogins(users);
    var s3 := Step(s2, CommandPoll);
    assert s3.current == Some(cmd) && s3.queue == [cmd];
    var s4 := Step(s3, yes);
    RelayResolvesCurrent(s3, yes.data, "");
    RunCons(s3, yes, []);
    RunCons(s2, CommandPoll, [yes]);
    RunCons(s1, login, [CommandPoll, yes]);
    RunCons(Initial, login, [login, CommandPoll, yes]);
  }

  /** With one command queued for a valid session and an empty slot, a poll and a failed report fail that session. */
  lemma PollThenFailure(s: State, c: Command)
    requires Valid(s) && s.current == None && s.queue == [c] && c.token != ""
    ensures var s6 := Run(s, [CommandPoll, StateReport(Report(Some(false), map[]), "")]);
      c.token in s6.sessions && s6.sessions[c.token].status == Failed
  {
    var no := StateReport(Report(Some(false), map[]), "");
    var s5 := Step(s, CommandPoll);
    assert s5.current == Some(c);
    RelayResolvesCurrent(s5, no.data, "");
    RunCons(s5, no, []);
    RunCons(s, CommandPoll, [no]);
  }

  /**
   * A session's status is not final: from a fresh server, two logins by one
   * user, then a poll and a successful report, leave the session at success
   * with the second command still queued; a further poll and a failed report
   * take it to failed, and another login takes it back to pending.
   */
  lemma TerminalStatusIsNotFinal(users: seq<User>)
    requires |users| > 0 && users[0].token != ""
    ensures var u := users[0];
      var login := LoginRequest(users, u.studentId, u.password, 0, 0, "");
      var s4 := Run(Initial, [login, login, CommandPoll, StateReport(Report(Some(true), map[]), "")]);
      var s6 := Run(s4, [CommandPoll, StateReport(Report(Some(false), map[]), "")]);
      var s7 := Run(s6, [login]);
      && u.token in s4.sessions && s4.sessions[u.token].status == Success
      && u.token in s6.sessions && s6.sessions[u.token].status == Failed
      && u.token in s7.sessions && s7.sessions[u.token].status == Pending
  {
    var u := users[0];
    var login := LoginRequest(users, u.studentId, u.password, 0, 0, "");
    var s4 := Run(Initial, [login, login, CommandPoll, StateReport(Report(Some(true), map[]), "")]);
    SuccessWithSecondLoginQueued(users);
    PollThenFailure(s4, LoginCommand(0, u.studentId, u.password, u.token, ""));
    var s6 := Run(s4, [CommandPoll, StateReport(Report(Some(false), map[]), "")]);
    LoginByFirstRecord(s6, users, 0, 0, "");
    RunCons(s6, login, []);
  }
}
