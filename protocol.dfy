/** The command channel of main() (main.py:93-159) with the transport taken
    out: what one connection receives is a sequence of events, what it sends
    is a sequence of outbound messages, and the trade executor is an oracle.
    This module gives the meaning of one inbound message, of the receive loop
    and of a whole connection as functions; module Client runs them as loops. */
module Protocol {
  import opened Wrappers
  import opened Values

  /** An account of the configuration: name, address and private key. */
  datatype Account = Account(name: string, address: string, pkey: string)

  /** What the client is configured with: the login token, the accounts by
      name, the Ethereum provider handed to the executor, and the text
      HexBytes.hex() gives. */
  datatype Config = Config(token: string, accounts: map<string, Account>, provider: string, hex: HexText)

  /** The arguments of uniswap_buy_input (main.py:134-136). */
  datatype Request = Request(
    inputToken: Value, outputToken: Value, inputQuantity: Value,
    maxSlippage: Value, maxGas: Value, account: Account, provider: string)

  /** A transaction receipt, before `to_dict`. */
  type Receipt = map<string, Value>

  /** The trade executor (uniswap_buy_input up to the receipt, main.py:39-52).
      Its first argument is the number of trades executed before this one,
      so that equal requests may have different fates. */
  type Executor = (nat, Request) -> Result<Receipt, string>

  /** The exceptions the try block of main.py:118-143 can raise.  The reply
      carries the exception itself; the text Python's str(e) gives for it is
      not modelled. */
  datatype Fault =
    | Malformed(reason: string)       // json.loads rejected the frame
    | NotSubscriptable(body: Value)   // the frame is JSON but not an object
    | MissingKey(key: string)         // KeyError on a field of the message
    | UnknownAccount(name: Value)     // accounts[account_name] failed
    | ExecutionFailed(reason: string) // the executor raised

  /** Messages the client sends. */
  datatype Outbound =
    | Login(token: string, accounts: set<string>)
    | Done(tx: map<string, Value>, tradingConfigId: Value, strategyType: Value)
    | Error(tradingConfigId: Value, strategyType: Value, message: Fault)

  /** A frame as json.loads leaves it. */
  datatype Payload = Msg(body: Value) | DecodeFail(reason: string)

  /** What one `recv` on the connection yields. */
  datatype Event = Frame(data: Payload) | ClosedOK | ClosedError

  /** The locals trading_config_id and strategy_type of main(): unbound until
      main.py:130-131 first runs, then kept across messages and reconnections. */
  datatype Ids = Ids(tradingConfigId: Option<Value>, strategyType: Option<Value>)

  predicate Bound(ids: Ids) {
    ids.tradingConfigId.Some? && ids.strategyType.Some?
  }

  /** How the try block ends for one frame. */
  datatype Verdict = Exit | Ignore | Reply(msg: Outbound) | Raise(fault: Fault)

  /** The try block's effect: the correlation ids afterwards, the executor
      call it made (if any), and how it ended. */
  datatype Handled = Handled(ids: Ids, call: Option<Request>, verdict: Verdict)

  /** How a connection ends.  `Reconnect`: main() leaves connection_retry true.
      `Stop`: connection_retry set to false.  `Crash`: an exception escapes
      main().  `Awaiting`: the connection has delivered nothing more, so the
      client is still blocked in `recv`. */
  datatype Outcome = Reconnect | Stop | Crash | Awaiting

  /** What the client has done so far on the current connection. */
  datatype State = State(sent: seq<Outbound>, ids: Ids, calls: seq<Request>)

  datatype Stepped = Continue(state: State) | Ended(state: State, outcome: Outcome)

  datatype Session = Session(state: State, outcome: Outcome)

  /** The eight fields a trade message must hold (main.py:125-132). */
  predicate HasTradeFields(m: map<string, Value>) {
    && "input_token" in m && "output_token" in m && "input_quantity" in m && "max_slippage" in m
    && "max_gas" in m && "trading_config_id" in m && "strategy_type" in m && "account" in m
  }

  /** `value[key]` on a decoded frame. */
  function Field(body: Value, key: string): (r: Result<Value, Fault>)
    ensures r.Ok? <==> body.Dict? && key in body.fields
    ensures r.Ok? ==> r.value == body.fields[key]
  {
    if !body.Dict? then Err(NotSubscriptable(body))
    else if key in body.fields then Ok(body.fields[key])
    else Err(MissingKey(key))
  }

  /** `accounts[account_name]`: only a string that names an account resolves. */
  function ResolveAccount(accounts: map<string, Account>, name: Value): (r: Option<Account>)
    ensures r.Some? <==> name.Str? && name.s in accounts
    ensures r.Some? ==> r.value == accounts[name.s]
  {
    if name.Str? && name.s in accounts then Some(accounts[name.s]) else None
  }

  /** A trade message the executor is called for: all eight fields present
      and the account known. */
  predicate ExecutableTrade(cfg: Config, m: map<string, Value>) {
    && HasTradeFields(m)
    && ResolveAccount(cfg.accounts, m["account"]).Some?
  }

  /** The request an executable trade message yields. */
  function RequestOf(cfg: Config, m: map<string, Value>): Request
    requires ExecutableTrade(cfg, m)
  {
    Request(m["input_token"], m["output_token"], m["input_quantity"], m["max_slippage"],
            m["max_gas"], ResolveAccount(cfg.accounts, m["account"]).value, cfg.provider)
  }

  function Raised(ids: Ids, f: Fault): Handled {
    Handled(ids, None, Raise(f))
  }

  /** The `trade` branch (main.py:123-141): fields are read in order, the
      two correlation ids are assigned as they are read, the account is
      resolved, the executor runs once, and the receipt is normalised into
      a `done` reply (which has no input_quantity).  A failure at any step
      raises, keeping the ids assigned before it. */
  function Trade(cfg: Config, exec: Executor, k: nat, ids: Ids, m: map<string, Value>): (h: Handled)
    ensures h.verdict.Reply? || h.verdict.Raise?
    ensures h.call.Some? <==> ExecutableTrade(cfg, m)
    ensures h.call.Some? ==> h.call.value == RequestOf(cfg, m)
    ensures h.call.Some? ==> h.ids == Ids(Some(m["trading_config_id"]), Some(m["strategy_type"]))
    ensures h.call.None? ==> h.verdict.Raise?
    ensures h.verdict.Reply? ==>
      h.call.Some? && exec(k, h.call.value).Ok? &&
      h.verdict.msg == Done(DictSpec(cfg.hex, exec(k, h.call.value).value),
                            m["trading_config_id"], m["strategy_type"])
    ensures h.call.Some? && h.verdict.Raise? ==>
      exec(k, h.call.value).Err? && h.verdict.fault == ExecutionFailed(exec(k, h.call.value).error)
    ensures
      var upToTcid := && "input_token" in m && "output_token" in m && "input_quantity" in m
                      && "max_slippage" in m && "max_gas" in m && "trading_config_id" in m;
      && h.ids.tradingConfigId == (if upToTcid then Some(m["trading_config_id"]) else ids.tradingConfigId)
      && h.ids.strategyType ==
         (if upToTcid && "strategy_type" in m then Some(m["strategy_type"]) else ids.strategyType)
  {
    if "input_token" !in m then Raised(ids, MissingKey("input_token"))
    else if "output_token" !in m then Raised(ids, MissingKey("output_token"))
    else if "input_quantity" !in m then Raised(ids, MissingKey("input_quantity"))
    else if "max_slippage" !in m then Raised(ids, MissingKey("max_slippage"))
    else if "max_gas" !in m then Raised(ids, MissingKey("max_gas"))
    else if "trading_config_id" !in m then Raised(ids, MissingKey("trading_config_id"))
    else
      var ids1 := ids.(tradingConfigId := Some(m["trading_config_id"]));
      if "strategy_type" !in m then Raised(ids1, MissingKey("strategy_type"))
      else
        var ids2 := ids1.(strategyType := Some(m["strategy_type"]));
        if "account" !in m then Raised(ids2, MissingKey("account"))
        else
          match ResolveAccount(cfg.accounts, m["account"])
          case None => Raised(ids2, UnknownAccount(m["account"]))
          case Some(account) =>
            var req := Request(m["input_token"], m["output_token"], m["input_quantity"],
                               m["max_slippage"], m["max_gas"], account, cfg.provider);
            match exec(k, req)
            case Ok(receipt) =>
              Handled(ids2, Some(req), Reply(Done(DictSpec(cfg.hex, receipt), m["trading_config_id"], m["strategy_type"])))
            case Err(e) =>
              Handled(ids2, Some(req), Raise(ExecutionFailed(e)))
  }

  /** The try block of main.py:118-143 for one frame: decode, read `code`,
      then `close` exits, `trade` trades, and any other code is ignored. */
  function HandleFrame(cfg: Config, exec: Executor, k: nat, ids: Ids, p: Payload): (h: Handled)
    ensures h.call.Some? ==> p.Msg? && Field(p.body, "code") == Ok(Str("trade"))
    ensures !h.verdict.Raise? ==> p.Msg? && Field(p.body, "code").Ok?
    ensures h.verdict.Exit? <==> p.Msg? && Field(p.body, "code") == Ok(Str("close"))
    ensures h.verdict.Ignore? <==>
      p.Msg? && Field(p.body, "code").Ok? && Field(p.body, "code").value !in {Str("close"), Str("trade")}
    ensures h.verdict.Exit? || h.verdict.Ignore? ==> h.ids == ids && h.call.None?
    ensures !(p.Msg? && Field(p.body, "code") == Ok(Str("trade"))) ==> h.ids == ids && h.call.None?
  {
    match p
    case DecodeFail(reason) => Raised(ids, Malformed(reason))
    case Msg(body) =>
      match Field(body, "code")
      case Err(f) => Raised(ids, f)
      case Ok(code) =>
        if code == Str("close") then Handled(ids, None, Exit)
        else if code == Str("trade") then Trade(cfg, exec, k, ids, body.fields)
        else Handled(ids, None, Ignore)
  }

  /** The except clause (main.py:144-149): the error reply names the ids last
      assigned; if either was never assigned, building the reply itself
      raises and there is none. */
  function ErrorReply(ids: Ids, f: Fault): (r: Option<Outbound>)
    ensures r.Some? <==> Bound(ids)
    ensures r.Some? ==> r.value.Error? && r.value.message == f
    ensures r.Some? ==> Some(r.value.tradingConfigId) == ids.tradingConfigId
    ensures r.Some? ==> Some(r.value.strategyType) == ids.strategyType
  {
    if Bound(ids) then Some(Error(ids.tradingConfigId.value, ids.strategyType.value, f)) else None
  }

  /** One pass of the receive loop (main.py:116-154). */
  function Step(cfg: Config, exec: Executor, s: State, e: Event): (r: Stepped)
    ensures |s.sent| <= |r.state.sent| <= |s.sent| + 1 && r.state.sent[..|s.sent|] == s.sent
    ensures |s.calls| <= |r.state.calls| <= |s.calls| + 1 && r.state.calls[..|s.calls|] == s.calls
    ensures |r.state.calls| - |s.calls| <= |r.state.sent| - |s.sent|
    ensures forall j :: |s.sent| <= j < |r.state.sent| ==> !r.state.sent[j].Login?
    ensures Bound(s.ids) ==> Bound(r.state.ids)
    ensures r.Ended? && r.outcome == Crash ==> !Bound(r.state.ids)
  {
    match e
    case ClosedOK => Ended(s, Stop)
    case ClosedError => Ended(s, Reconnect)
    case Frame(p) =>
      var h := HandleFrame(cfg, exec, |s.calls|, s.ids, p);
      var calls := if h.call.Some? then s.calls + [h.call.value] else s.calls;
      match h.verdict
      case Exit => Ended(State(s.sent, h.ids, calls), Reconnect)
      case Ignore => Continue(State(s.sent, h.ids, calls))
      case Reply(m) => Continue(State(s.sent + [m], h.ids, calls))
      case Raise(f) =>
        match ErrorReply(h.ids, f)
        case Some(m) => Continue(State(s.sent + [m], h.ids, calls))
        case None => Ended(State(s.sent, h.ids, calls), Crash)
  }

  /** The receive loop (main.py:114-154) from the i-th event on. */
  function Receive(cfg: Config, exec: Executor, events: seq<Event>, i: nat, s: State): (r: Session)
    requires i <= |events|
    ensures s.sent <= r.state.sent && |r.state.sent| <= |s.sent| + (|events| - i)
    ensures forall j :: |s.sent| <= j < |r.state.sent| ==> !r.state.sent[j].Login?
    ensures s.calls <= r.state.calls
    ensures |r.state.calls| - |s.calls| <= |r.state.sent| - |s.sent|
    ensures Bound(s.ids) ==> Bound(r.state.ids) && r.outcome != Crash
    decreases |events| - i
  {
    if i == |events| then Session(s, Awaiting)
    else
      match Step(cfg, exec, s, events[i])
      case Continue(next) => Receive(cfg, exec, events, i + 1, next)
      case Ended(last, outcome) => Session(last, outcome)
  }

  /** The login message (main.py:104-106): the configured token and the
      names of the configured accounts. */
  function LoginMessage(cfg: Config): (login: Outbound)
    ensures login.Login? && login.token == cfg.token
    ensures forall name :: name in login.accounts <==> name in cfg.accounts
  {
    Login(cfg.token, cfg.accounts.Keys)
  }

  /** The login exchange raises out of main() (main.py:108-110): the first
      event is a closure, a frame that does not decode, or an object with no
      `code`. */
  predicate LoginReplyFails(events: seq<Event>) {
    events != [] && !(events[0].Frame? && events[0].data.Msg? && Field(events[0].data.body, "code").Ok?)
  }

  /** One connection (main.py:102-157): send the login, read one reply, and
      run the receive loop only if its code is `auth_ok`.  A reply with any
      other code stops the client; a reply that fails to decode, lacks a
      code or does not arrive because the connection closed raises out of
      main(). */
  function Connection(cfg: Config, exec: Executor, events: seq<Event>, ids: Ids, calls: seq<Request>): (r: Session)
    ensures |r.state.sent| >= 1 && r.state.sent[0] == LoginMessage(cfg)
    ensures forall j :: 1 <= j < |r.state.sent| ==> !r.state.sent[j].Login?
    ensures |r.state.sent| <= |events| || |r.state.sent| == 1
    ensures |calls| <= |r.state.calls| && r.state.calls[..|calls|] == calls
    ensures |r.state.calls| - |calls| <= |r.state.sent| - 1
    ensures Bound(ids) ==> Bound(r.state.ids)
    ensures Bound(ids) && r.outcome == Crash ==>
      LoginReplyFails(events) && r.state.sent == [LoginMessage(cfg)] && r.state.calls == calls
    ensures LoginReplyFails(events) ==> r == Session(State([LoginMessage(cfg)], ids, calls), Crash)
  {
    var start := State([LoginMessage(cfg)], ids, calls);
    if events == [] then Session(start, Awaiting)
    else if !events[0].Frame? || !events[0].data.Msg? then Session(start, Crash)
    else
      match Field(events[0].data.body, "code")
      case Err(_) => Session(start, Crash)
      case Ok(code) =>
        if code == Str("auth_ok") then Receive(cfg, exec, events, 1, start)
        else Session(start, Stop)
  }

  /** The reconnect policy of main.py:99-101 and 158-159: another connection
      is opened exactly when connection_retry is still true, which is when
      the connection ended for a reason other than the two that clear it. */
  function Retry(o: Outcome): (again: bool)
    ensures again <==> o == Reconnect
  {
    match o
    case Reconnect => true
    case Stop => false
    case Crash => false
    case Awaiting => false
  }

  /** One try at `websockets.connect(uri)`: it fails (an exception that
      escapes main()), or opens a connection whose events are given. */
  datatype Attempt = Refused | Opened(events: seq<Event>)

  /** What a run of main() has done: the messages sent on each connection,
      how each connection ended, and the state carried between connections. */
  datatype Run = Run(sent: seq<seq<Outbound>>, outcomes: seq<Outcome>, ids: Ids, calls: seq<Request>)

  /** One pass of the outer loop (main.py:102): a refused connection raises
      out of main() having sent nothing; an opened one is a `Connection`. */
  function Attempted(cfg: Config, exec: Executor, a: Attempt, ids: Ids, calls: seq<Request>): (r: Session)
    ensures a.Refused? ==> r == Session(State([], ids, calls), Crash)
    ensures a.Opened? ==> |r.state.sent| >= 1 && r.state.sent[0] == LoginMessage(cfg)
    ensures calls <= r.state.calls
    ensures Bound(ids) ==> Bound(r.state.ids)
    ensures Bound(ids) && r.outcome == Crash ==> (a.Refused? || LoginReplyFails(a.events)) && |r.state.sent| <= 1
  {
    match a
    case Refused => Session(State([], ids, calls), Crash)
    case Opened(events) => Connection(cfg, exec, events, ids, calls)
  }

  /** What one pass of the outer loop does with an attempt, given the ids and
      executor calls carried into it.  The reconnect policy is the same
      whatever a connection does, so the outer loop is stated over any
      Connector; `Connect` is the client's own. */
  type Connector = (Attempt, Ids, seq<Request>) -> Session

  function Connect(cfg: Config, exec: Executor): Connector {
    (a: Attempt, ids: Ids, calls: seq<Request>) => Attempted(cfg, exec, a, ids, calls)
  }

  /** The outer loop of main() (main.py:99-159) from the i-th attempt on: a
      connection is opened for as long as the previous one asked for a retry. */
  function RunFrom(connect: Connector, attempts: seq<Attempt>, i: nat, acc: Run): (r: Run)
    requires i <= |attempts|
    ensures acc.sent <= r.sent && acc.outcomes <= r.outcomes
    ensures |r.outcomes| - |acc.outcomes| == |r.sent| - |acc.sent| <= |attempts| - i
    ensures i < |attempts| ==> |r.outcomes| > |acc.outcomes|
    ensures forall j :: |acc.outcomes| <= j < |r.outcomes| - 1 ==> r.outcomes[j] == Reconnect
    ensures |acc.outcomes| < |r.outcomes| < |acc.outcomes| + (|attempts| - i) ==>
      r.outcomes[|r.outcomes| - 1] != Reconnect
    decreases |attempts| - i
  {
    if i == |attempts| then acc
    else
      var s := connect(attempts[i], acc.ids, acc.calls);
      var next := Run(acc.sent + [s.state.sent], acc.outcomes + [s.outcome], s.state.ids, s.state.calls);
      if Retry(s.outcome) then RunFrom(connect, attempts, i + 1, next) else next
  }

  const Fresh: Run := Run([], [], Ids(None, None), [])

  /** A connector that never forgets an executor call and never unbinds an id. */
  ghost predicate KeepsHistory(connect: Connector) {
    forall a: Attempt, ids: Ids, calls: seq<Request> ::
      && calls <= connect(a, ids, calls).state.calls
      && (Bound(ids) ==> Bound(connect(a, ids, calls).state.ids))
  }

  /** A connector whose connections, once both ids are bound, crash only when
      the connection is refused or the login exchange fails, having sent at
      most the login. */
  ghost predicate CrashesEarlyWhenBound(connect: Connector) {
    forall a: Attempt, ids: Ids, calls: seq<Request> ::
      Bound(ids) && connect(a, ids, calls).outcome == Crash ==>
        && (a.Refused? || LoginReplyFails(a.events))
        && |connect(a, ids, calls).state.sent| <= 1
  }

  /** A connector whose opened connections start with `login`. */
  ghost predicate OpensWithLogin(connect: Connector, login: Outbound) {
    forall a: Attempt, ids: Ids, calls: seq<Request> :: a.Opened? ==>
      |connect(a, ids, calls).state.sent| >= 1 && connect(a, ids, calls).state.sent[0] == login
  }

  /** The client's own connector has all three properties. */
  lemma ConnectObeys(cfg: Config, exec: Executor)
    ensures KeepsHistory(Connect(cfg, exec))
    ensures CrashesEarlyWhenBound(Connect(cfg, exec))
    ensures OpensWithLogin(Connect(cfg, exec), LoginMessage(cfg))
  {
    var connect := Connect(cfg, exec);
    forall a, ids, calls
      ensures calls <= connect(a, ids, calls).state.calls
      ensures Bound(ids) ==> Bound(connect(a, ids, calls).state.ids)
      ensures Bound(ids) && connect(a, ids, calls).outcome == Crash ==>
        (a.Refused? || LoginReplyFails(a.events)) && |connect(a, ids, calls).state.sent| <= 1
      ensures a.Opened? ==> |connect(a, ids, calls).state.sent| >= 1 && connect(a, ids, calls).state.sent[0] == LoginMessage(cfg)
    {
      assert connect(a, ids, calls) == Attempted(cfg, exec, a, ids, calls);
    }
  }

  /** Over a run, executor calls are only appended and bound ids stay bound
      across reconnections: they are locals of main(). */
  lemma {:induction false} RunKeepsHistory(connect: Connector, attempts: seq<Attempt>, i: nat, acc: Run)
    requires i <= |attempts|
    requires KeepsHistory(connect)
    ensures acc.calls <= RunFrom(connect, attempts, i, acc).calls
    ensures Bound(acc.ids) ==> Bound(RunFrom(connect, attempts, i, acc).ids)
    decreases |attempts| - i
  {
    if i < |attempts| {
      var s := connect(attempts[i], acc.ids, acc.calls);
      var next := Run(acc.sent + [s.state.sent], acc.outcomes + [s.outcome], s.state.ids, s.state.calls);
      if Retry(s.outcome) {
        RunKeepsHistory(connect, attempts, i + 1, next);
      }
    }
  }

  /** Every connection that the run opens from the i-th attempt on starts
      with the login (main.py:102-106). */
  lemma {:induction false} OpenedAttemptsLogIn(connect: Connector, login: Outbound, attempts: seq<Attempt>, i: nat, acc: Run)
    requires i == |acc.sent| <= |attempts|
    requires OpensWithLogin(connect, login)
    ensures var r := RunFrom(connect, attempts, i, acc);
      forall j :: i <= j < |r.sent| && attempts[j].Opened? ==> r.sent[j] != [] && r.sent[j][0] == login
    decreases |attempts| - i
  {
    if i < |attempts| {
      var s := connect(attempts[i], acc.ids, acc.calls);
      var next := Run(acc.sent + [s.state.sent], acc.outcomes + [s.outcome], s.state.ids, s.state.calls);
      if Retry(s.outcome) {
        OpenedAttemptsLogIn(connect, login, attempts, i + 1, next);
        var r := RunFrom(connect, attempts, i + 1, next);
        assert r.sent[i] == next.sent[i] == s.state.sent;
      }
    }
  }
}
