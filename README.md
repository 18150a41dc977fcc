# Command-channel client, modelled in Dafny

The client keeps an authenticated WebSocket command channel open to a
control server and runs the trades the server asks for (`main.py`). This
project models its deterministic core with the transport, JSON codec and
trade executor abstracted:

- **Connection and dispatch** (`main()`). A connection sends a login
  `{code: "login", token, accounts}` and waits for one reply. Only if that
  reply's `code` is `auth_ok` does it enter the receive loop. Each inbound
  frame is then classified: `close` ends the loop, `trade` runs the trade
  executor once and sends a `done` reply, any other code is ignored, and any
  exception yields an `error` reply. Closures end the loop too. How the
  connection ended decides whether `connection_retry` stays true.
- **Reconnect policy**: the outer `while connection_retry` loop.
- **Result normalisation** (`to_dict` / `parse_value`): byte values of a
  transaction receipt become hex text, and nested dictionaries are converted.
- **Channel address** (`get_connection_uri`): `wss://<host>/api/v1/users/subscribe/<user>`.

A connection is a sequence of `Event`s: a decoded frame `Msg(value)`, a frame
that failed to decode `DecodeFail(reason)`, and `ClosedOK` or `ClosedError`
closures. What the client sends on it is a sequence of `Outbound` messages.
The trade executor is an oracle `(nat, Request) -> Result<Receipt, string>`.
Its first argument counts the trades already executed in the run.

Files:

- `wrappers.dfy`: `Option`, `Result`.
- `values.dfy`: the JSON-like value tree and `to_dict` / `parse_value`.
  `ToDict` is the imperative loop of `to_dict`. `DictSpec`, `ParseEntry`
  and `ParseValue` are the functions it is proved equal to.
- `uri.dfy`: `get_connection_uri` and a parser that recovers host and user
  from the address.
- `protocol.dfy`: the meaning of one frame (`HandleFrame`, `Trade`,
  `ErrorReply`), of one pass of the receive loop (`Step`), of the loop
  (`Receive`), of a connection (`Connection`) and of a whole run (`RunFrom`).
  The outer loop `RunFrom` is stated over any `Connector` (what a connection
  does with an attempt); `Connect` is the client's own, and `ConnectObeys`
  proves the properties of it that the run-level lemmas assume.
- `client.dfy`: `main()`'s loops as methods (`RunClient`, `RunAttempt`,
  `RunSession`, `ReceiveLoop`, `HandleEvent`). Each is proved equal to its function.
- `properties.dfy`: lemmas about the behaviour per kind of message, the
  login gate, why a connection ends, and ids carried across reconnections.

The model follows the code as written; in particular:

- A `close` command sets only `fl_exit` and leaves `connection_retry` true,
  so the client reconnects.
- The `done` reply has no `input_quantity`.
- A frame that does not decode, is not a JSON object or has no `code` raises
  inside the `try` block, so it gets an `error` reply.
- The `error` reply uses the `trading_config_id` and `strategy_type` last
  assigned. They may come from an earlier trade, even one on an earlier
  connection, since they are locals of `main()`. If either was never
  assigned, building the reply raises and the client crashes.
- `trading_config_id` is assigned before `strategy_type` is read. So a trade
  without `strategy_type` is reported with the new `trading_config_id` and an
  older `strategy_type`.
- During the login exchange, a reply that does not decode, has no `code`, or
  does not arrive because the connection closed raises out of `main()`
  (outcome `Crash`). A reply with a `code` other than `auth_ok` stops the
  client (`connection_retry = False`).

## Model

| member | source | states |
|---|---|---|
| `Values.ParseValue` | main.py:30-36 | the result has no bytes left where `to_dict` looks; a dictionary stays a dictionary with the same keys; bytes become their hex text; anything else, lists included, is returned unchanged |
| `Values.ParseEntry` | main.py:22-26 | a dictionary entry's new value: a list stays a list of the same length with each element normalised, anything else goes through `parse_value` |
| `Values.DictSpec` | main.py:20-27 | `to_dict` keeps exactly the input's keys and leaves every value normalised |
| `Values.ToDict` | main.py:20-27 | the copy-then-overwrite loop returns the same key set, each key's value converted by the list or `parse_value` rule, which is `DictSpec` |
| `Values.NormalisedIsFixed` | main.py:30-36 | `parse_value` leaves a value with no bytes to convert unchanged |
| `Values.NormalisedEntryIsFixed` | main.py:22-26 | the per-key rule of `to_dict` leaves an already-normalised entry unchanged |
| `Values.ParseValueIdempotent` | main.py:30-36 | normalising twice equals normalising once |
| `Values.DictSpecIdempotent` | main.py:20-27 | applying `to_dict` to its own result changes nothing |
| `Uri.ConnectionUri` | main.py:89-90 | the address starts with the `wss://` scheme, then holds the host, then the subscription path, and ends with the user name, with nothing escaped |
| `Uri.SplitUri` | main.py:89-90 | reading an address back yields a host without '/' |
| `Uri.ConnectionUriSplits` | main.py:89-90 | a host without '/' and any user name are recovered exactly from the address built from them |
| `Uri.SplitUriBuilds` | main.py:89-90 | every address that splits is the address built from its parts |
| `Uri.ConnectionUriAmbiguous` | main.py:89-90 | without escaping, two different host/user pairs can give one address |
| `Protocol.Field` | main.py:120-132 | a field read succeeds exactly when the frame is an object holding the key, and yields that key's value |
| `Protocol.ResolveAccount` | main.py:133 | an account resolves exactly when the name is a string naming a configured account |
| `Protocol.Trade` | main.py:123-141 | the executor is called exactly when all eight fields are present and the account is known, with those values; then both ids are bound and the reply is `done` with the normalised receipt, or the executor's failure is raised; otherwise a fault is raised; `trading_config_id` is taken from the message exactly when the five fields before it and itself are present, `strategy_type` exactly when in addition it is present, and each id otherwise keeps its earlier value |
| `Protocol.HandleFrame` | main.py:118-143 | the executor runs only for code `trade`; the loop exits exactly for code `close`; it ignores exactly the other readable codes; a frame that is not a `trade` changes no ids and calls nothing |
| `Protocol.ErrorReply` | main.py:144-149 | an error reply exists exactly when both ids are bound, and it carries those ids and the fault |
| `Protocol.Step` | main.py:114-154 | one pass sends at most one message, never a login, only appends to the log of messages and of executor calls, answers every executor call, keeps bound ids bound, and crashes only with an unbound id |
| `Protocol.Receive` | main.py:114-154 | the loop from one event on only appends to the logs, at most one message per event and never a login, answers every executor call, keeps bound ids bound and then never crashes; `Client.ReceiveLoop` is proved equal to it and `Properties.ReceiveEndsForACause` gives the cause of each ending |
| `Protocol.LoginMessage` | main.py:104-106 | the login carries the configured token and exactly the names of the configured accounts |
| `Protocol.Connection` | main.py:102-157 | a connection sends the login first and no other login, at most one message per later event, only appends executor calls, each answered, keeps bound ids bound, and with bound ids crashes only when the login reply is a closure, does not decode or has no `code`, having sent the login alone; such a reply always crashes it; `Client.RunSession` is proved equal to it and `Properties.AuthRejectedStops` and `Properties.NoCommandWithoutAuth` state the login gate |
| `Protocol.Attempted` | main.py:102 | a refused connection ends the run with `Crash`, having sent nothing and changed nothing; an opened one starts with the login; bound ids stay bound and then a crash means the connection was refused or its login exchange failed, after at most the login |
| `Protocol.RunFrom` | main.py:99-159 | whatever a connection does, the run only appends to the per-connection logs, one connection per attempt at most and at least one if any attempt is left; every added connection but the last ended with `Reconnect`; if the run stops before the attempts run out, the last connection did not end with `Reconnect`; `Client.RunClient` is proved equal to it |
| `Protocol.ConnectObeys` | main.py:102-157 | the client's connection never drops an executor call, never unbinds an id, with bound ids crashes only when refused or when the login exchange fails, having sent at most the login, and starts every opened connection with the login |
| `Protocol.RunKeepsHistory` | main.py:99-159 | across reconnections executor calls are only appended and bound ids stay bound, since both live in main() rather than in a connection |
| `Protocol.OpenedAttemptsLogIn` | main.py:102-106 | every connection the run opens starts with the login |
| `Protocol.Retry` | main.py:150-159 | a new connection is opened exactly after the outcome `Reconnect` |
| `Client.HandleEvent` | main.py:116-154 | the state after one event and whether the loop ends agree with `Step` |
| `Client.ReceiveLoop` | main.py:112-154 | the loop's final state and outcome agree with `Receive`; fewer replies than events; no login among them; at most one executor call per reply; no crash once both ids are bound |
| `Client.RunSession` | main.py:102-157 | the connection agrees with `Connection`; its first message is the login with the token and the configured account names; it sends no other login; once both ids are bound it can crash only when the login reply is a closure, does not decode or has no `code`, and such a reply always crashes it after the login alone |
| `Client.RunAttempt` | main.py:102-157 | one pass of the outer loop agrees with `Attempted`: a refused connection sends nothing and crashes, an opened one runs `RunSession` |
| `Client.RunClient` | main.py:93-159 | the run agrees with `RunFrom` over the client's connector; at most one connection per attempt; every connection but the last ended with `Reconnect`; the run stops early only after an outcome other than `Reconnect`; every opened connection starts with the login |
| `Properties.CloseCommandReconnects` | main.py:120-122 | `close` ends the loop with no reply and no state change, and the client reconnects |
| `Properties.UnknownCodeIgnored` | main.py:142-143 | a code other than `close` or `trade` sends nothing and changes nothing |
| `Properties.ExecutableTradeRepliesOnce` | main.py:123-141 | a well-formed trade with a known account makes exactly one executor call with the message's values and the resolved account, binds the ids, and sends exactly one `done` or `error` reply |
| `Properties.UnreadableFrameReusesIds` | main.py:144-149 | a frame that cannot be read gets exactly one `error` reply carrying the ids last assigned |
| `Properties.EveryFaultAnsweredOnce` | main.py:118-149 | any exception while handling a frame yields exactly one `error` reply with the fault and the ids as they stand after the failed attempt, or a crash with nothing sent if an id is unbound; an executor call always leaves both ids bound (which ids a failed trade leaves is stated by `Protocol.Trade`) |
| `Properties.UnreadableFrameWithoutIdsCrashes` | main.py:144-149 | before any trade bound the ids, such a frame crashes the client with no reply and no retry |
| `Properties.MissingStrategyTypeMixesIds` | main.py:130-147 | a trade lacking `strategy_type` is reported with its own `trading_config_id` and an earlier `strategy_type` |
| `Properties.ClosuresDecideRetry` | main.py:150-154 | a clean closure stops the client, an abnormal one makes it reconnect, and neither sends anything |
| `Properties.ReceiveEndsForACause` | main.py:114-154 | `Stop` only after a clean closure, `Reconnect` only after an abnormal closure or `close`, `Crash` only with an unbound id, still waiting only if no closure or `close` arrived |
| `Properties.AuthRejectedStops` | main.py:155-157 | a login reply with a code other than `auth_ok` stops the client after the login alone |
| `Properties.NoCommandWithoutAuth` | main.py:104-110 | unless the login reply is `auth_ok`, only the login is sent, no trade runs, and no reconnection follows |
| `Properties.BoundIdsCrashOnlyBeforeTheLoop` | main.py:99-159 | once both ids are bound, every later connection of the run that crashes was refused or failed its login exchange, having sent at most the login; no receive loop crashes, so the `error` reply never fails again (for any connector with the properties `Protocol.ConnectObeys` proves of the client's) |
| `Properties.IdsOutliveReconnection` | main.py:99-159 | after a trade and an abnormal closure, an unreadable frame on the next connection is answered with that trade's ids |

## Left out

- WebSocket transport: `websockets.connect`, `send`, `recv` and the exception classes. They are replaced by a sequence of events per connection and a log of sent messages. Sends are taken to succeed. A failed `connect` is an `Attempt` of kind `Refused`, which ends the run with `Crash`.
- JSON encoding and decoding (`json.dumps`, `json.loads`). A frame arrives already decoded or as `DecodeFail`. The case of `json.dumps` failing on a reply is not modelled.
- The text of `str(e)` in the `error` reply: the reply carries the exception as a `Fault` value.
- The trade executor's internals (`uniswap_buy_input` up to the receipt, main.py:39-52): Web3/Uniswap calls, the global `gas_in_gwei`, gas pricing, waiting for the receipt. They are an oracle. `to_dict` on the receipt (main.py:55) is modelled.
- `HexBytes.hex()`: its exact text depends on the library version and is a parameter `hex`.
- Configuration loading (`read_data_from_env`, `read_accounts_from_env`, `load_dotenv`, `os.environ`). The token, provider and accounts map are given in `Config`.
- Client.RunSession: the login's `accounts` field is the set of configured names; the order of Python's `list(accounts.keys())` is not modelled.
- Protocol.LoginMessage: builds that set, as `Protocol.Outbound`'s `Login` carries `accounts: set<string>`; the order of the names in the login is not modelled.
- `sleep(10)`, logging and the asyncio bootstrap (main.py:162): only the retry decision is modelled.
- Values.Value: JSON numbers are integers; floating-point values are not modelled.
