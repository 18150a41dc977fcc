/** What the client promises about the messages it answers, stated over the
    functions of module Protocol: one pass of the receive loop for each kind
    of inbound message, the login gate, and why a connection ends. */
module Properties {
  import opened Wrappers
  import opened Values
  import opened Protocol

  /** An inbound `close` command. */
  predicate IsCloseCommand(e: Event) {
    e.Frame? && e.data.Msg? && Field(e.data.body, "code") == Ok(Str("close"))
  }

  /** A frame whose handling fails before `code` is known: it did not decode,
      is not a JSON object, or has no `code`. */
  predicate Unreadable(p: Payload) {
    p.DecodeFail? || Field(p.body, "code").Err?
  }

  function FaultOf(p: Payload): Fault
    requires Unreadable(p)
  {
    if p.DecodeFail? then Malformed(p.reason) else Field(p.body, "code").error
  }

  /** The reply to an executable trade, given what the executor returned. */
  function TradeReply(cfg: Config, result: Result<Receipt, string>, tcid: Value, st: Value): Outbound {
    match result
    case Ok(receipt) => Done(DictSpec(cfg.hex, receipt), tcid, st)
    case Err(e) => Error(tcid, st, ExecutionFailed(e))
  }

  /** main.py:120-122 and 158-159: `close` ends the loop without a reply and
      leaves connection_retry true, so the client reconnects. */
  lemma CloseCommandReconnects(cfg: Config, exec: Executor, s: State, body: Value)
    requires Field(body, "code") == Ok(Str("close"))
    ensures Step(cfg, exec, s, Frame(Msg(body))) == Ended(s, Reconnect)
    ensures Retry(Reconnect)
  {
  }

  /** main.py:142-143: a code other than `close` and `trade` changes nothing
      and sends nothing; the loop goes on. */
  lemma UnknownCodeIgnored(cfg: Config, exec: Executor, s: State, body: Value)
    requires Field(body, "code").Ok?
    requires Field(body, "code").value != Str("close") && Field(body, "code").value != Str("trade")
    ensures Step(cfg, exec, s, Frame(Msg(body))) == Continue(s)
  {
  }

  /** main.py:123-141: a trade with all eight fields and a known account
      calls the executor exactly once, with the message's values and the
      resolved account, binds both correlation ids, and sends exactly one
      reply: `done` with the normalised receipt, or `error` with the
      executor's failure. */
  lemma ExecutableTradeRepliesOnce(cfg: Config, exec: Executor, s: State, body: Value)
    requires Field(body, "code") == Ok(Str("trade"))
    requires ExecutableTrade(cfg, body.fields)
    ensures
      var m := body.fields;
      var req := RequestOf(cfg, m);
      && req.account == cfg.accounts[m["account"].s]
      && req.inputQuantity == m["input_quantity"] && req.maxGas == m["max_gas"]
      && Step(cfg, exec, s, Frame(Msg(body))) ==
         Continue(State(s.sent + [TradeReply(cfg, exec(|s.calls|, req), m["trading_config_id"], m["strategy_type"])],
                        Ids(Some(m["trading_config_id"]), Some(m["strategy_type"])),
                        s.calls + [req]))
  {
    var m := body.fields;
    var h := HandleFrame(cfg, exec, |s.calls|, s.ids, Frame(Msg(body)).data);
    assert h == Trade(cfg, exec, |s.calls|, s.ids, m);
  }

  /** main.py:144-149: a frame that cannot be read is answered with one
      `error` reply naming the ids last assigned, possibly by an earlier
      trade; nothing else changes. */
  lemma UnreadableFrameReusesIds(cfg: Config, exec: Executor, s: State, p: Payload)
    requires Unreadable(p)
    requires Bound(s.ids)
    ensures Step(cfg, exec, s, Frame(p)) ==
      Continue(State(s.sent + [Error(s.ids.tradingConfigId.value, s.ids.strategyType.value, FaultOf(p))],
                     s.ids, s.calls))
  {
  }

  /** main.py:144-149 for any exception of the try block (a frame that cannot
      be read, a missing field, an unknown account, a failed trade): exactly
      one `error` reply, carrying the fault and the ids as they stand after
      the failed attempt, and the loop goes on.  If either id is still
      unbound, nothing is sent and the client crashes. */
  lemma EveryFaultAnsweredOnce(cfg: Config, exec: Executor, s: State, p: Payload)
    requires HandleFrame(cfg, exec, |s.calls|, s.ids, p).verdict.Raise?
    ensures
      var h := HandleFrame(cfg, exec, |s.calls|, s.ids, p);
      var calls := if h.call.Some? then s.calls + [h.call.value] else s.calls;
      && (Bound(h.ids) ==>
            Step(cfg, exec, s, Frame(p)) ==
            Continue(State(s.sent + [Error(h.ids.tradingConfigId.value, h.ids.strategyType.value, h.verdict.fault)],
                           h.ids, calls)))
      && (!Bound(h.ids) ==> Step(cfg, exec, s, Frame(p)) == Ended(State(s.sent, h.ids, calls), Crash))
      && (h.call.Some? ==> Bound(h.ids))
  {
  }

  /** main.py:146: before any trade has reached main.py:131 the except clause
      itself fails on an unbound id, and the client crashes without a reply. */
  lemma UnreadableFrameWithoutIdsCrashes(cfg: Config, exec: Executor, s: State, p: Payload)
    requires Unreadable(p)
    requires !Bound(s.ids)
    ensures Step(cfg, exec, s, Frame(p)) == Ended(s, Crash)
    ensures !Retry(Crash)
  {
  }

  /** main.py:130-131 and 146-147: a trade that has `trading_config_id` but
      lacks `strategy_type` is reported with the new trading_config_id and
      the strategy_type of an earlier trade. */
  lemma MissingStrategyTypeMixesIds(cfg: Config, exec: Executor, s: State, body: Value)
    requires Field(body, "code") == Ok(Str("trade"))
    requires "input_token" in body.fields && "output_token" in body.fields
    requires "input_quantity" in body.fields && "max_slippage" in body.fields
    requires "max_gas" in body.fields && "trading_config_id" in body.fields
    requires "strategy_type" !in body.fields
    requires Bound(s.ids)
    ensures
      var tcid := body.fields["trading_config_id"];
      Step(cfg, exec, s, Frame(Msg(body))) ==
        Continue(State(s.sent + [Error(tcid, s.ids.strategyType.value, MissingKey("strategy_type"))],
                       s.ids.(tradingConfigId := Some(tcid)), s.calls))
  {
  }

  /** main.py:150-154 and 158-159: a clean closure stops the client, an
      abnormal one makes it reconnect; neither sends anything. */
  lemma ClosuresDecideRetry(cfg: Config, exec: Executor, s: State)
    ensures Step(cfg, exec, s, ClosedOK) == Ended(s, Stop) && !Retry(Stop)
    ensures Step(cfg, exec, s, ClosedError) == Ended(s, Reconnect) && Retry(Reconnect)
  {
  }

  /** The receive loop ends only for a reason in its input: `Stop` only after
      a clean closure, `Reconnect` only after an abnormal closure or a `close`
      command, `Crash` only on a failure while an id is unbound, and it keeps
      waiting only if no closure or `close` came at all. */
  lemma {:induction false} ReceiveEndsForACause(cfg: Config, exec: Executor, events: seq<Event>, i: nat, s: State)
    requires i <= |events|
    ensures var r := Receive(cfg, exec, events, i, s);
      && (r.outcome == Stop ==> exists j :: i <= j < |events| && events[j] == ClosedOK)
      && (r.outcome == Reconnect ==>
            exists j :: i <= j < |events| && (events[j] == ClosedError || IsCloseCommand(events[j])))
      && (r.outcome == Crash ==> !Bound(r.state.ids))
      && (r.outcome == Awaiting ==>
            forall j :: i <= j < |events| ==> events[j].Frame? && !IsCloseCommand(events[j]))
    decreases |events| - i
  {
    if i < |events| {
      match Step(cfg, exec, s, events[i])
      case Continue(next) =>
        ReceiveEndsForACause(cfg, exec, events, i + 1, next);
        var e := events[i];
        assert e.Frame? && !IsCloseCommand(e);
      case Ended(last, outcome) =>
        var e := events[i];
        if e.Frame? && outcome == Reconnect {
          assert IsCloseCommand(e);
        }
    }
  }

  /** main.py:108-110 and 155-157: a login reply whose code is not
      `auth_ok` stops the client after the login, with nothing else sent and
      no trade executed. */
  lemma AuthRejectedStops(cfg: Config, exec: Executor, events: seq<Event>, ids: Ids, calls: seq<Request>)
    requires |events| > 0 && events[0].Frame? && events[0].data.Msg?
    requires Field(events[0].data.body, "code").Ok?
    requires Field(events[0].data.body, "code").value != Str("auth_ok")
    ensures Connection(cfg, exec, events, ids, calls) == Session(State([LoginMessage(cfg)], ids, calls), Stop)
    ensures !Retry(Stop)
  {
  }

  /** No command is served before authentication: unless the first reply
      carries `auth_ok`, the login is the only message sent, no trade runs,
      and the client does not reconnect. */
  lemma NoCommandWithoutAuth(cfg: Config, exec: Executor, events: seq<Event>, ids: Ids, calls: seq<Request>)
    requires !(|events| > 0 && events[0].Frame? && events[0].data.Msg?
               && Field(events[0].data.body, "code") == Ok(Str("auth_ok")))
    ensures Connection(cfg, exec, events, ids, calls).state == State([LoginMessage(cfg)], ids, calls)
    ensures !Retry(Connection(cfg, exec, events, ids, calls).outcome)
  {
  }

  /** Every connection of `r` from the `from`-th on that crashed was refused
      or failed its login exchange, having sent at most the login; the j-th
      connection is the one opened for `attempts[j]`. */
  predicate CrashesBeforeTheLoop(r: Run, attempts: seq<Attempt>, from: nat) {
    forall j :: from <= j < |r.outcomes| && j < |r.sent| && j < |attempts| && r.outcomes[j] == Crash ==>
      && (attempts[j].Refused? || LoginReplyFails(attempts[j].events))
      && |r.sent[j]| <= 1
  }

  /** The correlation ids are never unassigned again: once a trade has bound
      both, every later connection of the run that crashes does so before
      its receive loop (a refused connection or a failed login exchange),
      having sent at most the login, so the `error` reply never fails again.
      It holds for any connector with the two properties, and
      `ConnectObeys` gives them for the client's own. */
  lemma {:induction false} BoundIdsCrashOnlyBeforeTheLoop(connect: Connector, attempts: seq<Attempt>, i: nat, acc: Run)
    requires i <= |attempts|
    requires KeepsHistory(connect) && CrashesEarlyWhenBound(connect)
    requires i == |acc.sent| == |acc.outcomes|
    requires Bound(acc.ids)
    ensures CrashesBeforeTheLoop(RunFrom(connect, attempts, i, acc), attempts, i)
    decreases |attempts| - i
  {
    if i < |attempts| {
      var s := connect(attempts[i], acc.ids, acc.calls);
      var next := Run(acc.sent + [s.state.sent], acc.outcomes + [s.outcome], s.state.ids, s.state.calls);
      if Retry(s.outcome) {
        BoundIdsCrashOnlyBeforeTheLoop(connect, attempts, i + 1, next);
        var r := RunFrom(connect, attempts, i + 1, next);
        assert r.outcomes[i] == next.outcomes[i] == Reconnect;
      }
    }
  }

  const AuthOk: Value := Dict(map["code" := Str("auth_ok")])

  /** The correlation ids are locals of main(), not of a connection: after a
      trade on one connection and an abnormal closure, an unreadable frame
      on the next connection is answered with that trade's ids. */
  lemma {:induction false} IdsOutliveReconnection(cfg: Config, exec: Executor, trade: Value, garbled: string)
    requires Field(trade, "code") == Ok(Str("trade"))
    requires ExecutableTrade(cfg, trade.fields)
    ensures
      var first := [Frame(Msg(AuthOk)), Frame(Msg(trade)), ClosedError];
      var second := [Frame(Msg(AuthOk)), Frame(DecodeFail(garbled)), ClosedOK];
      var run := RunFrom(Connect(cfg, exec), [Opened(first), Opened(second)], 0, Fresh);
      && run.outcomes == [Reconnect, Stop] && |run.sent| == 2
      && run.sent[1] == [LoginMessage(cfg),
                         Error(trade.fields["trading_config_id"], trade.fields["strategy_type"], Malformed(garbled))]
  {
    var first := [Frame(Msg(AuthOk)), Frame(Msg(trade)), ClosedError];
    var second := [Frame(Msg(AuthOk)), Frame(DecodeFail(garbled)), ClosedOK];
    var m := trade.fields;
    var ids := Ids(Some(m["trading_config_id"]), Some(m["strategy_type"]));
    var req := RequestOf(cfg, m);
    var login := State([LoginMessage(cfg)], Ids(None, None), []);
    var afterTrade := State([LoginMessage(cfg), TradeReply(cfg, exec(0, req), m["trading_config_id"], m["strategy_type"])], ids, [req]);
    ExecutableTradeRepliesOnce(cfg, exec, login, trade);
    assert Receive(cfg, exec, first, 1, login) == Receive(cfg, exec, first, 2, afterTrade);
    assert Connection(cfg, exec, first, Ids(None, None), []) == Session(afterTrade, Reconnect);
    var relogin := State([LoginMessage(cfg)], ids, [req]);
    UnreadableFrameReusesIds(cfg, exec, relogin, DecodeFail(garbled));
    var afterError := State([LoginMessage(cfg), Error(m["trading_config_id"], m["strategy_type"], Malformed(garbled))], ids, [req]);
    assert Receive(cfg, exec, second, 1, relogin) == Receive(cfg, exec, second, 2, afterError);
    assert Connection(cfg, exec, second, ids, [req]) == Session(afterError, Stop);
  }
}
