# pumpcli trade relay, modelled in Dafny

This project models the trade-feed relay of pumpcli. The relay keeps one
connection to the upstream trade feed of a token-launch platform. It keeps a
single-token subscription on that feed and filters and normalises each
inbound trade message. It either relays the trades to browser clients with a
running buy/sell counter (`server.js`) or prints one line per trade to the
console (`monitorServer.js`).

Modules, one file each:

- `wrappers.dfy`, module `Wrappers`: the `Option` type. `None` stands for
  a missing property (`undefined`), an empty token slot (`undefined` or
  `null`) and `NaN`. A JSON `null` inside a decoded message is present:
  `Some(JNull)`, and it passes the `solAmount !== undefined` test.
- `js.dfy`, module `Js`: the JavaScript values a decoded feed message can
  hold, plus the three JavaScript behaviours the handlers rely on:
  - truthiness;
  - `toUpperCase` on strings, ASCII letters only;
  - `slice(-4)` on strings and arrays;
  - whether converting a value to a primitive throws (`ToPrimitiveThrows`),
    as `parseFloat`, `Number` and a template literal do on an object whose
    own `toString` key shadows the inherited method, or on an array holding
    one.

  Calling either method on any other value is a `TypeError`, modelled as `None`.
- `feed.dfy`, module `Feed`: what both handlers share.
  - The subscription protocol: the `subscribeTokenTrade`/`unsubscribeTokenTrade`
    control messages and the swap one `subscribeToToken` call sends.
  - `Live`, a reference reading of a control log: the set of keys the feed
    was asked to stream. `SingleSlot` is the invariant that the only real
    token streamed is the one in the slot.
  - The three-field filter and the normaliser: the last four characters of
    the trader key, the numeric coercion of the amount (only whether it
    throws), the upper-cased type.
  - The console line.
- `server.dfy`, module `Server`, covering `server.js`:
  - the counter as a pure state with its specification functions: `Apply`
    is one `addTransaction`, `Step` one feed message, `Replay` a whole
    history;
  - the `tradeCounter` object as class `TradeCounter`, its fields updated in
    place;
  - the relay's module state as class `Relay`. Its logs record what was sent
    upstream, broadcast to clients and printed, plus a ghost history of the
    feed messages received.

  `Relay.Valid` ties the live counter to `Replay` of that history. It also
  ties the last broadcast counter update to the live totals, so a client
  that saw every broadcast agrees with a late joiner's replay.
- `monitor.dfy`, module `Monitor`, covering `monitorServer.js`: class
  `Monitor` has the same slot and no counter. `Startup` is the call order of
  `index.js`.

The model follows what the code does, which differs from what a reader of
the relay would expect in these places:

- Totals are not monotone. The code adds whatever `parseFloat` returns,
  negative amounts included (`NegativeBuyLowersBought`). The totals grow only
  over a history whose accepted amounts are all non-negative
  (`NonNegativeAmountsOnlyGrow`, `ReplayMonotone`).
- The filter does not protect the code from `TypeError`s, and what one costs
  depends on where it is thrown. An amount such as `{"toString":0}` passes the
  filter, but its coercion throws before anything is sent, so the message is
  dropped (`OwnToStringAmountDropped`). A trader key such as
  `[{"toString":0}]` throws only in the console template, after the
  transaction and the counter update are out: the relay broadcasts and counts
  the trade but logs no line (`ThrowingWalletBroadcastNotLogged`), and the
  monitor prints nothing.
- A `NaN` amount does not reject the trade. The `transaction` event is
  broadcast and the line is logged; only the counter update is skipped.
- A type other than `BUY` or `SELL` is kept as upper-cased. It changes no
  total but still triggers a counter broadcast. It is "like SELL" only in
  the red style of its console line.
- A client that joins while no token is active gets no counter state at
  all, even when the totals are non-zero (`Relay.OnClientConnect`).
- Re-subscribing to the active token is not skipped: the pair is resent
  (`RepeatedTokenResent`).
- The relay's `subscribeToToken` refuses when the feed is not open by logging
  and returning, with no error raised. The monitor's version has no such
  check.

Inputs from outside the program become parameters:

- JavaScript's `parseFloat` (relay) and `Number` (monitor) are functions
  `JsValue -> Option<real>`. They are applied only to values whose conversion
  does not throw; whether it throws follows from the value
  (`Js.ToPrimitiveThrows`), not from the parameter;
- `Date.now()` is the `now` argument of `Relay.OnMessage`;
- the address returned by token creation is the `created` argument of
  `Monitor.Startup`.

## Model

| member | source | states |
|---|---|---|
| `Js.Truthy` | server.js:72 | JavaScript truthiness of a property read: false for a missing property, `null`, `false`, `0` and the empty string, true for everything else |
| `Js.ToPrimitiveThrows` | server.js:74 | converting a value to a primitive throws exactly for an object with an own `toString` key and for an array with an element that throws; no string, number, boolean or `null` throws |
| `Js.Last4Throws` | server.js:95 | the wallet `slice(-4)` gives throws on conversion exactly when one of the key's last four elements does |
| `Js.UpperChar` | server.js:75 | a lower-case ASCII letter maps to its capital 32 code points lower, anything else is unchanged, and no result is lower-case |
| `Js.ToUpper` | server.js:75 | the result has the input's length and is `UpperChar` of each character in place |
| `Js.ToUpperIdempotent` | server.js:44-46 | upper-casing twice is upper-casing once, so `addTransaction`'s own `toUpperCase` of the already upper-cased type changes nothing |
| `Js.CaseInsensitiveMatch` | monitorServer.js:31-32 | for an all-capitals word, a string upper-cases to it exactly when it has its length and each character is that capital or its lower-case letter |
| `Js.Last4` | server.js:73 | `slice(-4)` keeps the last four elements, or all when fewer, and is a suffix of the input |
| `Js.SliceLast4` | server.js:73 | `slice(-4)` succeeds exactly on strings and arrays and gives their last four; on any other value it is a TypeError |
| `Js.UpperCase` | server.js:75 | `toUpperCase` succeeds exactly on strings, with `ToUpper` of the string |
| `Feed.IsSet` | server.js:119 | the slot or a token counts as set exactly when its value is JavaScript-truthy, that is a non-empty string |
| `Feed.Swap` | server.js:119-130 | one subscribe call sends an unsubscribe for the slot's token exactly when the slot is set, then one subscribe for the new token, and nothing else |
| `Feed.SwapKeepsSingleSlot` | server.js:119-131 | after a swap the only set token the feed streams is the new one, and a set new token is streamed |
| `Feed.SubscribeAllKeepsSingleSlot` | monitorServer.js:53-66 | any sequence of subscribe calls keeps the single-slot invariant, with the last token in the slot |
| `Feed.OneSubscribePerCall` | monitorServer.js:54-66 | there is no de-duplication: n calls send exactly n subscribes |
| `Feed.RepeatedTokenResent` | monitorServer.js:54-66 | subscribing twice to the same set token makes the second call send unsubscribe then subscribe for that token |
| `Feed.FalsyTokenNotUnsubscribed` | monitorServer.js:54-66 | after a falsy token is stored, the next call sends its subscribe with no unsubscribe |
| `Feed.PassesFilter` | server.js:72 | the three-field test: the message decodes, its type and trader key are truthy, and its amount is present |
| `Feed.Normalise` | server.js:72-75 | the filter, then `slice(-4)` of the trader key, the coercion of the amount and `toUpperCase` of the type, a `TypeError` from any of them dropping the message |
| `Feed.NormaliseAccepts` | server.js:72-75 | a message is accepted exactly when it decodes, has a non-empty string type, a non-empty string or array trader key, and an amount present whose conversion does not throw; the trade is the upper-cased type, the key's last four and the amount as received, and acceptance implies the filter |
| `Feed.FilterIsNotSufficient` | server.js:72-75 | a numeric type passes the filter but the message is dropped, since `toUpperCase` throws |
| `Feed.OwnToStringAmountDropped` | server.js:72-74 | a buy whose amount is an object with an own `toString` passes the filter and is still dropped |
| `Feed.Render` | monitorServer.js:32-36 | green exactly for `BUY`, red otherwise, carrying the wallet, the type and the amount of the trade |
| `Feed.WalletLine` | server.js:92-95 | the template gives no line exactly when the wallet's conversion throws, and otherwise the rendered line of the trade |
| `Feed.TradeLines` | monitorServer.js:28-36 | the lines one message logs: none for a dropped one, otherwise `WalletLine` of its trade with its amount coerced |
| `Feed.GreenOnlyForBuy` | monitorServer.js:28-36 | at most one line is printed, and one exactly for an accepted message whose wallet converts; it is green exactly when the original type spells `buy` in some mix of cases, so `SELL` and unknown types are red |
| `Server.AggregateState.NetAmount` | server.js:37-39 | the net amount is derived from the two totals, never stored |
| `Server.Apply` | server.js:40-48 | `addTransaction` on the pure state: `NaN` changes nothing, an upper-cased `BUY` adds to the bought total, `SELL` to the sold total, anything else to neither |
| `Server.Step` | server.js:72-89 | one feed message: a dropped one changes nothing, an accepted one is `Apply` of its type and parsed amount |
| `Server.Replay` | server.js:69-89 | the counter after a history of feed messages, from zero totals, in arrival order |
| `Server.StepByDirection` | server.js:41-48 | a dropped message or a `NaN` amount changes nothing; `BUY` adds to the bought total only, `SELL` to the sold total only, any other type to neither |
| `Server.StepAddsAmountOf` | server.js:44-48 | one message adds exactly its buy amount to the bought total and its sell amount to the sold total |
| `Server.ReplayIsSum` | server.js:34-48 | after any history the bought total is the sum of the accepted buy amounts, the sold total that of the sell amounts, and the net amount their difference |
| `Server.NonNegativeAmountsOnlyGrow` | server.js:44-48 | a message whose own accepted amount is not negative (or is `NaN`) lowers neither total |
| `Server.ReplayMonotone` | server.js:44-48 | in a history whose accepted amounts are all non-negative, neither total of any prefix exceeds that of the whole history |
| `Server.NegativeBuyLowersBought` | server.js:44-45 | a buy of `"-1"` lowers the bought total, so the totals are not monotone in general |
| `Server.ExampleBuyStep` | server.js:72-89 | a `buy` of `"1.5"` from zero gives totals 1.5 and 0 |
| `Server.ExampleSellStep` | server.js:72-89 | a `sell` of 2 after that gives totals 1.5 and 2 |
| `Server.BuyThenSellExample` | server.js:69-100 | the two-message history ends at totals 1.5 and 2 with net -0.5 |
| `Server.Snapshot` | server.js:51-55 | the `counterUpdate` payload: both totals and the net amount read at that moment |
| `Server.TradeEvents` | server.js:86-89 | the events of an accepted trade: the transaction, then the counter update unless the amount is `NaN` |
| `Server.Broadcasts` | server.js:72-89 | the events of one feed message: nothing for a dropped one, `TradeEvents` for an accepted one |
| `Server.BroadcastOrder` | server.js:73-89 | a dropped message broadcasts nothing and keeps the counter; an accepted one broadcasts the transaction first, with the upper-cased type, the key's last four, the parsed amount and the clock, then the totals after it exactly when the amount is not `NaN` |
| `Server.TradeEventsKeepClientsInStep` | server.js:86-89 | an accepted trade's events keep every counter update consistent and leave the last one carrying the totals after `Apply` |
| `Server.BroadcastKeepsClientsInStep` | server.js:51-55 | broadcasting a message's events keeps every counter update's net equal to its totals' difference and makes the last one carry the new totals |
| `Server.ThrowingWalletBroadcastNotLogged` | server.js:86-95 | a buy of `"1"` whose key is `[{"toString":0}]` broadcasts the transaction and the update and is counted, but logs no line |
| `Server.TradeCounter.constructor` | server.js:34-36 | both totals start at zero |
| `Server.TradeCounter.NetAmount` | server.js:37-39 | the net is recomputed on read as bought minus sold, the derived value of the state |
| `Server.TradeCounter.AddTransaction` | server.js:40-56 | the new totals are `Apply` of the old; a `NaN` amount returns with no update, any other returns the update with the new totals, whatever the type |
| `Server.Relay.constructor` | server.js:30-36 | start-up: feed not open, slot empty, zero totals, empty logs, invariant established |
| `Server.Relay.Opened` | server.js:64-67 | the feed's open event marks the connection open |
| `Server.Relay.Closed` | server.js:106-108 | the feed's close event marks the connection closed |
| `Server.Relay.SubscribeToToken` | server.js:113-137 | when the feed is not open, nothing is sent, stored or broadcast; when it is, the swap is sent, the token stored and `tokenSubscription` broadcast; the invariant is kept |
| `Server.Relay.OnMessage` | server.js:69-100 | the counter becomes `Step` of the message, the broadcast log grows by `Broadcasts`, the console by at most one line, the slot and the control log are untouched, and the invariant is kept |
| `Server.Relay.Accept` | server.js:78-95 | an accepted trade broadcasts its transaction, applies `addTransaction` (whose update is broadcast unless the amount is `NaN`) and logs its line unless the wallet's conversion throws |
| `Server.Relay.OnClientConnect` | server.js:140-153 | a joining client gets nothing when the slot is empty, else the token and the current totals, which equal `Replay` of the history and the last broadcast counter update |
| `Monitor.Monitor.constructor` | monitorServer.js:3-4 | at load the slot is empty and nothing is sent |
| `Monitor.Monitor.SubscribeToToken` | monitorServer.js:53-69 | the swap is sent, with no readiness check, and the token stored; the single-slot invariant is kept |
| `Monitor.Monitor.OnOpen` | monitorServer.js:17-23 | the open handler subscribes with `startMonitor`'s argument, set or not |
| `Monitor.Monitor.OnMessage` | monitorServer.js:25-41 | the console grows by exactly `TradeLines` of the message, so by nothing when the coercion at line 30 or the template at line 36 throws; the slot and the control log are untouched and the invariant is kept |
| `Monitor.Startup` | index.js:10-21 | `startMonitor()` without an argument subscribes with no key; a falsy created token exits; otherwise the second subscribe follows with no unsubscribe, so only subscribes are sent |

## Left out

- `launcher.js`, `sellTokens.js` and `sellViaJito.js`: file reads, HTTP and
  IPFS calls, key decoding, signing and bundle submission are I/O and
  foreign-library calls. Token creation is the `created` parameter of
  `Monitor.Startup`.
- The transport lifecycle, beyond `open` and `close` setting a flag:
  - socket construction, the `error` handler, the promise `startMonitor`
    returns;
  - Express static serving, the socket.io server and `server.listen`.
- Per-client delivery. Broadcasts go to one log shared by every client.
  Connecting and disconnecting clients, and the isolation of one client's
  failure from the others, are not modelled.
- Floating point. Amounts are reals and `+=` is exact. The difference
  between `parseFloat` and `Number` prefix parsing lives inside the two
  function parameters.
- The second `parseFloat` inside `addTransaction` is taken as the identity.
  It is applied to a number that is already parsed.
- Presentation: emoji, ANSI colour codes, the text of log lines and
  `toFixed(2)` formatting. A line keeps only its style, the wallet, the type
  and the amount.
- Diagnostics written with `console.error` (parse errors, "not open"), and
  the informational `console.log` lines.
- Js.UpperChar: maps only ASCII `a`-`z`. JavaScript's `toUpperCase` maps
  every Unicode letter, some onto ASCII capitals: `"ſell".toUpperCase()` is
  `"SELL"` (U+017F becomes `S`), so the code adds that amount to the sold
  total, while the model's `Apply` leaves both totals unchanged. No non-ASCII
  letter upper-cases to `B`, `U` or `Y`, so buys are unaffected.
- Js.ToUpper: the same ASCII-only restriction; it also keeps the length,
  whereas JavaScript's can lengthen a string (`ß` becomes `SS`).
- Js.UpperCase: inherits the restriction of `Js.ToUpper`, so a type spelled
  with such letters is matched against `BUY` and `SELL` differently.
- Js.SliceLast4: Dafny strings count Unicode scalar values, JavaScript's
  `slice` counts UTF-16 code units. For `"abc😀😀"` the code keeps `"😀😀"` and
  the model `"bc😀😀"`; a suffix that splits a surrogate pair cannot be
  represented. The two agree on keys without astral characters, such as the
  base58 ASCII keys of the feed. `Feed.NormaliseAccepts` and
  `Server.BroadcastOrder` state the wallet through this function and carry
  the same difference.
- The JSON encoding of control messages. An undefined key travels as `null`
  in `keys`. Both are the `None` token here.
- The order between the control log and the broadcast log is not recorded.
  Within each log the order is kept.
- Monitor.Monitor.SubscribeToToken: sending before the monitor's socket
  exists or is open throws in the code. That path is not modelled; the
  monitor is always used after its `open` event.
