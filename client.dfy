/** main() (main.py:93-159) as the loops it is: an outer loop that opens a
    connection while `connection_retry` holds, and per connection a login
    handshake followed by a receive loop.  Each method is proved equal to the
    function of module Protocol that gives its meaning, and states outright
    what the source promises about the messages it sends. */
module Client {
  import opened Wrappers
  import opened Values
  import opened Protocol

  /** One connection (main.py:102-157): the login, the one reply it waits
      for, and the receive loop if that reply is `auth_ok`.  `ids0` and
      `calls0` are what earlier connections left. */
  method RunSession(cfg: Config, exec: Executor, events: seq<Event>, ids0: Ids, calls0: seq<Request>)
    returns (sent: seq<Outbound>, ids: Ids, calls: seq<Request>, outcome: Outcome)
    ensures Session(State(sent, ids, calls), outcome) == Connection(cfg, exec, events, ids0, calls0)
    ensures |sent| >= 1 && sent[0] == Login(cfg.token, cfg.accounts.Keys)
    ensures forall j :: 1 <= j < |sent| ==> !sent[j].Login?
    ensures |calls0| <= |calls| && calls[..|calls0|] == calls0
    ensures |calls| - |calls0| <= |sent| - 1 < |events| || |sent| == 1
    ensures Bound(ids0) ==> Bound(ids)
    ensures Bound(ids0) && outcome == Crash ==> LoginReplyFails(events) && |sent| == 1 && calls == calls0
    ensures LoginReplyFails(events) ==> sent == [Login(cfg.token, cfg.accounts.Keys)] && outcome == Crash
  {
    // main.py:104-106: the login message goes first
    var login := Login(cfg.token, cfg.accounts.Keys);
    sent, ids, calls := [login], ids0, calls0;
    // main.py:108-110: one reply, read outside any try block
    if |events| == 0 {
      outcome := Awaiting;
      return;
    }
    if !events[0].Frame? || !events[0].data.Msg? {
      outcome := Crash;
      return;
    }
    var code := Field(events[0].data.body, "code");
    if code.Err? {
      outcome := Crash;
      return;
    }
    if code.value != Str("auth_ok") {
      // main.py:155-157
      outcome := Stop;
      return;
    }
    var last;
    last, outcome := ReceiveLoop(cfg, exec, events, State([login], ids0, calls0));
    sent, ids, calls := last.sent, last.ids, last.calls;
  }

  /** The receive loop (main.py:112-154) over events[1..], starting from
      state `s`: the state it leaves and why it stopped. */
  method ReceiveLoop(cfg: Config, exec: Executor, events: seq<Event>, s: State)
    returns (last: State, outcome: Outcome)
    requires |events| >= 1
    ensures Session(last, outcome) == Receive(cfg, exec, events, 1, s)
    ensures |s.sent| <= |last.sent| < |s.sent| + |events| && last.sent[..|s.sent|] == s.sent
    ensures forall j :: |s.sent| <= j < |last.sent| ==> !last.sent[j].Login?
    ensures |s.calls| <= |last.calls| && last.calls[..|s.calls|] == s.calls
    ensures |last.calls| - |s.calls| <= |last.sent| - |s.sent|
    ensures Bound(s.ids) ==> Bound(last.ids) && outcome != Crash
  {
    last := s;
    var ended := false;
    var i := 1;
    outcome := Awaiting;
    while !ended && i < |events|
      invariant 1 <= i <= |events|
      invariant !ended ==> outcome == Awaiting
      invariant Receive(cfg, exec, events, 1, s) ==
        if ended then Session(last, outcome) else Receive(cfg, exec, events, i, last)
      decreases |events| - i
    {
      last, ended, outcome := HandleEvent(cfg, exec, last, events[i]);
      i := i + 1;
    }
  }

  /** One pass of the receive loop (main.py:116-154): what the event does
      to the state, and whether (and why) the loop ends.  It is the body of
      ReceiveLoop, kept apart so that the loop's proof stays small. */
  method HandleEvent(cfg: Config, exec: Executor, s: State, e: Event)
    returns (next: State, ended: bool, outcome: Outcome)
    ensures Step(cfg, exec, s, e) == if ended then Ended(next, outcome) else Continue(next)
    ensures !ended ==> outcome == Awaiting
  {
    next, ended, outcome := s, false, Awaiting;
    match e {
      case ClosedOK =>
        // main.py:150-151: connection_retry = False
        outcome, ended := Stop, true;
      case ClosedError =>
        // main.py:153-154: connection_retry stays true
        outcome, ended := Reconnect, true;
      case Frame(p) =>
        var h := HandleFrame(cfg, exec, |s.calls|, s.ids, p);
        next := next.(ids := h.ids);
        if h.call.Some? {
          next := next.(calls := s.calls + [h.call.value]);
        }
        match h.verdict {
          case Exit =>
            // main.py:120-122: fl_exit, connection_retry untouched
            outcome, ended := Reconnect, true;
          case Ignore =>
          case Reply(m) =>
            next := next.(sent := s.sent + [m]);
          case Raise(f) =>
            // main.py:144-149
            var reply := ErrorReply(h.ids, f);
            if reply.Some? {
              next := next.(sent := s.sent + [reply.value]);
            } else {
              outcome, ended := Crash, true;
            }
        }
    }
  }

  /** One pass of main()'s outer loop (main.py:102-157): connect and, if that
      succeeds, run the connection.  It is the body of RunClient, kept apart
      so that the loop's proof stays small. */
  method RunAttempt(cfg: Config, exec: Executor, a: Attempt, ids0: Ids, calls0: seq<Request>)
    returns (sent: seq<Outbound>, ids: Ids, calls: seq<Request>, outcome: Outcome)
    ensures Session(State(sent, ids, calls), outcome) == Attempted(cfg, exec, a, ids0, calls0)
  {
    match a {
      case Refused =>
        // websockets.connect raised
        sent, ids, calls, outcome := [], ids0, calls0, Crash;
      case Opened(events) =>
        sent, ids, calls, outcome := RunSession(cfg, exec, events, ids0, calls0);
    }
  }

  /** main() (main.py:93-159): connect, run the connection, and connect again
      while `connection_retry` holds.  The correlation ids are locals of
      main() and survive a reconnection. */
  method RunClient(cfg: Config, exec: Executor, attempts: seq<Attempt>) returns (run: Run)
    ensures run == RunFrom(Connect(cfg, exec), attempts, 0, Fresh)
    ensures |run.outcomes| == |run.sent| <= |attempts|
    ensures |attempts| > 0 ==> |run.outcomes| > 0
    ensures forall j :: 0 <= j < |run.outcomes| - 1 ==> run.outcomes[j] == Reconnect
    ensures 0 < |run.outcomes| < |attempts| ==> run.outcomes[|run.outcomes| - 1] != Reconnect
    ensures forall j :: 0 <= j < |run.sent| && attempts[j].Opened? ==>
      run.sent[j] != [] && run.sent[j][0] == LoginMessage(cfg)
  {
    var connectionRetry := true;
    var sent: seq<seq<Outbound>> := [];
    var outcomes: seq<Outcome> := [];
    var ids := Ids(None, None);
    var calls: seq<Request> := [];
    var i := 0;
    while connectionRetry && i < |attempts|
      invariant 0 <= i <= |attempts|
      invariant |outcomes| == |sent| == i
      invariant RunFrom(Connect(cfg, exec), attempts, 0, Fresh) ==
        if connectionRetry then RunFrom(Connect(cfg, exec), attempts, i, Run(sent, outcomes, ids, calls))
        else Run(sent, outcomes, ids, calls)
      decreases |attempts| - i
    {
      var out, outcome;
      out, ids, calls, outcome := RunAttempt(cfg, exec, attempts[i], ids, calls);
      sent := sent + [out];
      outcomes := outcomes + [outcome];
      // main.py:158-159 and 101: sleep(10), then test connection_retry
      connectionRetry := Retry(outcome);
      i := i + 1;
    }
    run := Run(sent, outcomes, ids, calls);
    assert |Fresh.sent| == |Fresh.outcomes| == 0;
    ConnectObeys(cfg, exec);
    OpenedAttemptsLogIn(Connect(cfg, exec), LoginMessage(cfg), attempts, 0, Fresh);
  }
}
