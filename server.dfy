/** The browser-facing relay: one upstream feed connection, the buy/sell
    counter, and the broadcast of every trade and counter change to all
    connected clients, with current state replayed to a client that joins late. */
module Server {
  import opened Wrappers
  import opened Js
  import opened Feed

  // ---------------------------------------------------------------------------
  // Aggregate state and its specification
  // ---------------------------------------------------------------------------

  /** The two running totals; the net amount is derived, never stored. */
  datatype AggregateState = AggregateState(totalBought: real, totalSold: real)
  {
    function NetAmount(): real
    {
      totalBought - totalSold
    }
  }

  /** The counter before any trade. */
  const ZERO := AggregateState(0.0, 0.0)

  /** `addTransaction(type, amount)` on state `s`; `None` is a `NaN` amount. */
  function Apply(s: AggregateState, txType: string, amount: Option<real>): AggregateState
  {
    if amount.None? then s
    else if ToUpper(txType) == "BUY" then s.(totalBought := s.totalBought + amount.value)
    else if ToUpper(txType) == "SELL" then s.(totalSold := s.totalSold + amount.value)
    else s
  }

  /** The effect of one feed message on the counter. */
  function Step(s: AggregateState, m: RawMsg, parseFloat: JsValue -> Option<real>): AggregateState
  {
    match Normalise(m)
    case None => s
    case Some(t) => Apply(s, t.txType, parseFloat(t.amount))
  }

  /** The counter after the messages `ms`, in arrival order. */
  function Replay(ms: seq<RawMsg>, parseFloat: JsValue -> Option<real>): AggregateState
  {
    if ms == [] then ZERO
    else Step(Replay(ms[..|ms| - 1], parseFloat), ms[|ms| - 1], parseFloat)
  }

  /** What one message does to the counter, stated in terms of the message: a
      dropped message or a `NaN` amount changes nothing; a buy adds to the bought
      total only, a sell to the sold total only; any other type changes neither. */
  lemma StepByDirection(s: AggregateState, m: RawMsg, parseFloat: JsValue -> Option<real>)
    ensures Normalise(m).None? ==> Step(s, m, parseFloat) == s
    ensures Normalise(m).Some? ==>
      var t := Normalise(m).value;
      var amount := parseFloat(t.amount);
      && (amount.None? ==> Step(s, m, parseFloat) == s)
      && (amount.Some? && t.txType == "BUY" ==>
            Step(s, m, parseFloat) == AggregateState(s.totalBought + amount.value, s.totalSold))
      && (amount.Some? && t.txType == "SELL" ==>
            Step(s, m, parseFloat) == AggregateState(s.totalBought, s.totalSold + amount.value))
      && (t.txType != "BUY" && t.txType != "SELL" ==> Step(s, m, parseFloat) == s)
  {
    if Normalise(m).Some? {
      ToUpperIdempotent(m.txType.value.s);
    }
  }

  function Sum(xs: seq<real>): real
  {
    if xs == [] then 0.0 else xs[0] + Sum(xs[1..])
  }

  lemma {:induction false} SumConcat(xs: seq<real>, ys: seq<real>)
    ensures Sum(xs + ys) == Sum(xs) + Sum(ys)
  {
    if xs == [] {
      assert [] + ys == ys;
    } else {
      assert (xs + ys)[1..] == xs[1..] + ys;
      SumConcat(xs[1..], ys);
    }
  }

  /** The amount a message contributes to the `direction` total, as a list of
      zero or one numbers. */
  function AmountOf(m: RawMsg, direction: string, parseFloat: JsValue -> Option<real>): seq<real>
  {
    match Normalise(m)
    case None => []
    case Some(t) =>
      if t.txType == direction && parseFloat(t.amount).Some? then [parseFloat(t.amount).value] else []
  }

  /** Reference definition: the amounts of the accepted `direction` trades in
      `ms`, in arrival order. */
  function Amounts(ms: seq<RawMsg>, direction: string, parseFloat: JsValue -> Option<real>): seq<real>
  {
    if ms == [] then []
    else Amounts(ms[..|ms| - 1], direction, parseFloat) + AmountOf(ms[|ms| - 1], direction, parseFloat)
  }

  /** One message adds exactly its buy amount to the bought total and its
      sell amount to the sold total. */
  lemma StepAddsAmountOf(s: AggregateState, m: RawMsg, parseFloat: JsValue -> Option<real>)
    ensures Step(s, m, parseFloat).totalBought == s.totalBought + Sum(AmountOf(m, "BUY", parseFloat))
    ensures Step(s, m, parseFloat).totalSold == s.totalSold + Sum(AmountOf(m, "SELL", parseFloat))
  {
    StepByDirection(s, m, parseFloat);
    if Normalise(m).Some? {
      var t := Normalise(m).value;
      var amount := parseFloat(t.amount);
      if amount.Some? {
        var x := amount.value;
        assert [x][1..] == [];
      }
    }
  }

  /** After any sequence of messages the bought total is the sum of all buy
      amounts, the sold total the sum of all sell amounts, and the net amount
      their difference. */
  lemma {:induction false} ReplayIsSum(ms: seq<RawMsg>, parseFloat: JsValue -> Option<real>)
    ensures Replay(ms, parseFloat).totalBought == Sum(Amounts(ms, "BUY", parseFloat))
    ensures Replay(ms, parseFloat).totalSold == Sum(Amounts(ms, "SELL", parseFloat))
    ensures Replay(ms, parseFloat).NetAmount() ==
            Sum(Amounts(ms, "BUY", parseFloat)) - Sum(Amounts(ms, "SELL", parseFloat))
  {
    if ms != [] {
      var init, m := ms[..|ms| - 1], ms[|ms| - 1];
      ReplayIsSum(init, parseFloat);
      StepAddsAmountOf(Replay(init, parseFloat), m, parseFloat);
      SumConcat(Amounts(init, "BUY", parseFloat), AmountOf(m, "BUY", parseFloat));
      SumConcat(Amounts(init, "SELL", parseFloat), AmountOf(m, "SELL", parseFloat));
    }
  }

  /** The amount of `m`, if `m` is accepted and its amount is a number, is not
      negative: the condition under which `m` cannot lower a total. */
  predicate NonNegativeAmount(m: RawMsg, parseFloat: JsValue -> Option<real>)
  {
    Normalise(m).Some? && parseFloat(Normalise(m).value.amount).Some? ==>
      parseFloat(Normalise(m).value.amount).value >= 0.0
  }

  /** A message with a non-negative amount never lowers a total; the code adds
      whatever `parseFloat` returns, so this is the most that holds. */
  lemma NonNegativeAmountsOnlyGrow(s: AggregateState, m: RawMsg, parseFloat: JsValue -> Option<real>)
    requires NonNegativeAmount(m, parseFloat)
    ensures Step(s, m, parseFloat).totalBought >= s.totalBought
    ensures Step(s, m, parseFloat).totalSold >= s.totalSold
  {
  }

  /** In a history whose accepted amounts are all non-negative, neither total of
      any prefix exceeds that of the whole history. */
  lemma {:induction false} ReplayMonotone(ms: seq<RawMsg>, k: nat, parseFloat: JsValue -> Option<real>)
    requires k <= |ms|
    requires forall i :: 0 <= i < |ms| ==> NonNegativeAmount(ms[i], parseFloat)
    ensures Replay(ms[..k], parseFloat).totalBought <= Replay(ms, parseFloat).totalBought
    ensures Replay(ms[..k], parseFloat).totalSold <= Replay(ms, parseFloat).totalSold
    decreases |ms|
  {
    if k == |ms| {
      assert ms[..k] == ms;
    } else {
      var init := ms[..|ms| - 1];
      assert init[..k] == ms[..k];
      assert forall i :: 0 <= i < |init| ==> init[i] == ms[i];
      ReplayMonotone(init, k, parseFloat);
      NonNegativeAmountsOnlyGrow(Replay(init, parseFloat), ms[|ms| - 1], parseFloat);
    }
  }

  /** A negative amount lowers the bought total. */
  lemma NegativeBuyLowersBought(parseFloat: JsValue -> Option<real>)
    requires parseFloat(JStr("-1")) == Some(-1.0)
    ensures var m := Decoded(Some(JStr("buy")), Some(JStr("wallet")), Some(JStr("-1")));
            Step(ZERO, m, parseFloat).totalBought == -1.0
  {
  }

  /** A buy of "1.5" from zero totals gives totals 1.5 and 0. */
  lemma ExampleBuyStep(parseFloat: JsValue -> Option<real>)
    requires parseFloat(JStr("1.5")) == Some(1.5)
    ensures Step(ZERO, Decoded(Some(JStr("buy")), Some(JStr("WALLETabcd1234")), Some(JStr("1.5"))), parseFloat)
            == AggregateState(1.5, 0.0)
  {
  }

  /** A sell of 2 after that gives totals 1.5 and 2. */
  lemma ExampleSellStep(parseFloat: JsValue -> Option<real>)
    requires parseFloat(JNum(2.0)) == Some(2.0)
    ensures Step(AggregateState(1.5, 0.0), Decoded(Some(JStr("sell")), Some(JStr("WALLETzzzz9999")), Some(JNum(2.0))), parseFloat)
            == AggregateState(1.5, 2.0)
  {
  }

  /** A history of a buy of "1.5" then a sell of 2 ends at totals 1.5 and 2
      with net amount -0.5. */
  lemma BuyThenSellExample(parseFloat: JsValue -> Option<real>)
    requires parseFloat(JStr("1.5")) == Some(1.5) && parseFloat(JNum(2.0)) == Some(2.0)
    ensures var ms := [Decoded(Some(JStr("buy")), Some(JStr("WALLETabcd1234")), Some(JStr("1.5"))),
                       Decoded(Some(JStr("sell")), Some(JStr("WALLETzzzz9999")), Some(JNum(2.0)))];
            && Replay(ms, parseFloat) == AggregateState(1.5, 2.0)
            && Replay(ms, parseFloat).NetAmount() == -0.5
  {
    var m1 := Decoded(Some(JStr("buy")), Some(JStr("WALLETabcd1234")), Some(JStr("1.5")));
    var m2 := Decoded(Some(JStr("sell")), Some(JStr("WALLETzzzz9999")), Some(JNum(2.0)));
    var ms := [m1, m2];
    ExampleBuyStep(parseFloat);
    ExampleSellStep(parseFloat);
    assert ms[..1] == [m1] && [m1][..0] == [];
  }

  // ---------------------------------------------------------------------------
  // Client events
  // ---------------------------------------------------------------------------

  /** An event pushed to browser clients. */
  datatype ClientEvent =
    | Transaction(txType: string, traderPublicKey: JsValue, solAmount: Option<real>, timestamp: int)
    | CounterUpdate(totalBought: real, totalSold: real, netAmount: real)
    | TokenSubscription(token: Token)

  function Snapshot(s: AggregateState): ClientEvent
  {
    CounterUpdate(s.totalBought, s.totalSold, s.NetAmount())
  }

  /** The events an accepted trade `t` broadcasts, with amount `solAmount`, at
      clock value `now` and with the counter at `s`: the transaction, then the
      new totals unless the amount is `NaN`. */
  function TradeEvents(s: AggregateState, t: Trade, solAmount: Option<real>, now: int): seq<ClientEvent>
  {
    [Transaction(t.txType, t.wallet, solAmount, now)]
      + (if solAmount.Some? then [Snapshot(Apply(s, t.txType, solAmount))] else [])
  }

  /** The events one feed message broadcasts, received at clock value `now`
      with the counter at `s`. */
  function Broadcasts(s: AggregateState, m: RawMsg, parseFloat: JsValue -> Option<real>, now: int): seq<ClientEvent>
  {
    match Normalise(m)
    case None => []
    case Some(t) => TradeEvents(s, t, parseFloat(t.amount), now)
  }

  /** What one feed message broadcasts, in terms of the message: nothing, and
      no counter change, for a dropped one; for an accepted one first the
      transaction with the upper-cased type, the trader key's last four
      characters (or elements), the parsed amount and the clock value, then,
      unless the amount is `NaN`, a counter update with the totals after it. */
  lemma BroadcastOrder(s: AggregateState, m: RawMsg, parseFloat: JsValue -> Option<real>, now: int)
    ensures Normalise(m).None? ==> Broadcasts(s, m, parseFloat, now) == [] && Step(s, m, parseFloat) == s
    ensures Normalise(m).Some? ==>
      var b := Broadcasts(s, m, parseFloat, now);
      var amount := parseFloat(m.solAmount.value);
      && |b| == (if amount.Some? then 2 else 1)
      && b[0] == Transaction(ToUpper(m.txType.value.s), Normalise(m).value.wallet, amount, now)
      && (m.traderPublicKey.value.JStr? ==> b[0].traderPublicKey == JStr(Last4(m.traderPublicKey.value.s)))
      && (amount.Some? ==> b[1] == Snapshot(Step(s, m, parseFloat)))
      && (amount.None? ==> Step(s, m, parseFloat) == s)
  {
  }

  /** Every counter update carries a net amount equal to its two totals' difference. */
  predicate CountersConsistent(evs: seq<ClientEvent>)
  {
    forall i :: 0 <= i < |evs| && evs[i].CounterUpdate? ==>
      evs[i].netAmount == evs[i].totalBought - evs[i].totalSold
  }

  /** The most recent counter update in a broadcast log, if any. */
  function LastCounter(evs: seq<ClientEvent>): (r: Option<ClientEvent>)
    ensures r.Some? ==> r.value.CounterUpdate? && r.value in evs
    ensures r.None? ==> forall i :: 0 <= i < |evs| ==> !evs[i].CounterUpdate?
  {
    if evs == [] then None
    else if evs[|evs| - 1].CounterUpdate? then Some(evs[|evs| - 1])
    else LastCounter(evs[..|evs| - 1])
  }

  /** A client that has seen every broadcast holds the current totals: the
      last counter update carries them, and with none yet the totals are zero. */
  predicate LatestCounter(evs: seq<ClientEvent>, s: AggregateState)
  {
    match LastCounter(evs)
    case None => s == ZERO
    case Some(e) => e.totalBought == s.totalBought && e.totalSold == s.totalSold
  }

  lemma LastCounterSkips(evs: seq<ClientEvent>, e: ClientEvent)
    requires !e.CounterUpdate?
    ensures LastCounter(evs + [e]) == LastCounter(evs)
  {
  }

  lemma LastCounterTakes(evs: seq<ClientEvent>, e: ClientEvent)
    requires e.CounterUpdate?
    ensures LastCounter(evs + [e]) == Some(e)
  {
  }

  /** Broadcasting a message's events keeps a client that saw the whole log in
      step with the counter: every update stays consistent and the latest one
      carries the totals after the message. */
  lemma BroadcastKeepsClientsInStep(evs: seq<ClientEvent>, s: AggregateState, m: RawMsg,
                                    parseFloat: JsValue -> Option<real>, now: int)
    requires CountersConsistent(evs) && LatestCounter(evs, s)
    ensures CountersConsistent(evs + Broadcasts(s, m, parseFloat, now))
    ensures LatestCounter(evs + Broadcasts(s, m, parseFloat, now), Step(s, m, parseFloat))
  {
    var b := Broadcasts(s, m, parseFloat, now);
    match Normalise(m)
    case None =>
      assert b == [] && Step(s, m, parseFloat) == s;
      assert evs + b == evs;
    case Some(t) =>
      var amount := parseFloat(t.amount);
      assert b == TradeEvents(s, t, amount, now);
      assert Step(s, m, parseFloat) == Apply(s, t.txType, amount);
      TradeEventsKeepClientsInStep(evs, s, t, amount, now);
  }

  lemma TradeEventsKeepClientsInStep(evs: seq<ClientEvent>, s: AggregateState, t: Trade,
                                     amount: Option<real>, now: int)
    requires CountersConsistent(evs) && LatestCounter(evs, s)
    ensures CountersConsistent(evs + TradeEvents(s, t, amount, now))
    ensures LatestCounter(evs + TradeEvents(s, t, amount, now), Apply(s, t.txType, amount))
  {
    var b := TradeEvents(s, t, amount, now);
    LastCounterSkips(evs, b[0]);
    if amount.Some? {
      assert evs + b == (evs + [b[0]]) + [b[1]];
      LastCounterTakes(evs + [b[0]], b[1]);
    } else {
      assert b == [b[0]];
    }
  }

  /** An array wallet holding an object with its own `toString` key throws only
      in the console template, after the transaction and the counter update
      have gone out: the message is broadcast and counted but not logged. */
  lemma ThrowingWalletBroadcastNotLogged(parseFloat: JsValue -> Option<real>, now: int)
    requires parseFloat(JStr("1")) == Some(1.0)
    ensures var m := Decoded(Some(JStr("buy")), Some(JArr([JObj(true)])), Some(JStr("1")));
            && |Broadcasts(ZERO, m, parseFloat, now)| == 2
            && Step(ZERO, m, parseFloat) == AggregateState(1.0, 0.0)
            && TradeLines(m, parseFloat) == []
  {
    var w := JArr([JObj(true)]);
    var m := Decoded(Some(JStr("buy")), Some(w), Some(JStr("1")));
    assert ToPrimitiveThrows(w.elems[0]);
    assert SliceLast4(w) == Some(w);
    var u := ToUpper("buy");
    assert u[0] == UpperChar('b') && u[1] == UpperChar('u') && u[2] == UpperChar('y');
    assert u == "BUY";
    var t := Trade("BUY", w, JStr("1"));
    assert Normalise(m) == Some(t);
    assert Broadcasts(ZERO, m, parseFloat, now) == TradeEvents(ZERO, t, Some(1.0), now);
    assert Step(ZERO, m, parseFloat) == Apply(ZERO, "BUY", Some(1.0));
  }

  // ---------------------------------------------------------------------------
  // The trade counter object
  // ---------------------------------------------------------------------------

  /** `tradeCounter`: the two totals updated in place and the net-amount getter. */
  class TradeCounter {
    var totalBought: real
    var totalSold: real

    constructor ()
      ensures totalBought == 0.0 && totalSold == 0.0
    {
      totalBought, totalSold := 0.0, 0.0;
    }

    function State(): AggregateState
      reads this
    {
      AggregateState(totalBought, totalSold)
    }

    /** The `netAmount` getter, recomputed from the totals on every read. */
    function NetAmount(): (net: real)
      reads this
      ensures net == totalBought - totalSold
      ensures net == State().NetAmount()
    {
      totalBought - totalSold
    }

    /** `addTransaction`: a `NaN` amount returns early with nothing emitted;
        otherwise the matching total grows and the counter update to emit is
        returned, for every type. */
    method AddTransaction(txType: string, amount: Option<real>) returns (update: Option<ClientEvent>)
      modifies this
      ensures State() == Apply(old(State()), txType, amount)
      ensures amount.None? ==> update == None
      ensures amount.Some? ==> update == Some(Snapshot(State()))
    {
      if amount.None? {
        return None;
      }
      if ToUpper(txType) == "BUY" {
        totalBought := totalBought + amount.value;
      } else if ToUpper(txType) == "SELL" {
        totalSold := totalSold + amount.value;
      }
      update := Some(CounterUpdate(totalBought, totalSold, NetAmount()));
    }
  }

  // ---------------------------------------------------------------------------
  // The relay
  // ---------------------------------------------------------------------------

  /** The relay's process-wide state: the upstream connection (only whether it
      is open), the subscription slot, the counter, and the logs of what was
      sent upstream, broadcast to clients and printed to the console. */
  class Relay {
    /** JavaScript's `parseFloat`; `None` is `NaN`. */
    const parseFloat: JsValue -> Option<real>
    const counter: TradeCounter
    var open: bool
    var activeToken: Token
    var sent: seq<ControlMsg>
    var emitted: seq<ClientEvent>
    var console: seq<Line>
    /** Every feed message handled so far, in arrival order. */
    ghost var received: seq<RawMsg>

    ghost predicate Valid()
      reads this, counter
    {
      && counter.State() == Replay(received, parseFloat)
      && CountersConsistent(emitted)
      && LatestCounter(emitted, counter.State())
      && SingleSlot(sent, activeToken)
    }

    /** The state at start-up: no connection, no token, zero totals. */
    constructor (parseFloat: JsValue -> Option<real>)
      ensures Valid() && fresh(counter)
      ensures this.parseFloat == parseFloat && !open && activeToken == None
      ensures sent == [] && emitted == [] && console == [] && received == []
      ensures counter.State() == ZERO
    {
      this.parseFloat := parseFloat;
      counter := new TradeCounter();
      open := false;
      activeToken := None;
      sent, emitted, console := [], [], [];
      received := [];
    }

    /** The transport reached the OPEN ready state. */
    method Opened()
      requires Valid()
      modifies this`open
      ensures Valid() && open
    {
      open := true;
    }

    /** The transport closed; nothing else is touched. */
    method Closed()
      requires Valid()
      modifies this`open
      ensures Valid() && !open
    {
      open := false;
    }

    /** `subscribeToToken`: refuses when the feed is not open; otherwise swaps
        the subscription, stores the token and announces it to all clients. */
    method SubscribeToToken(token: Token)
      requires Valid()
      modifies this
      ensures Valid()
      ensures old(open) ==> && sent == old(sent) + Swap(old(activeToken), token)
                            && activeToken == token
                            && emitted == old(emitted) + [TokenSubscription(token)]
      ensures !old(open) ==> sent == old(sent) && activeToken == old(activeToken) && emitted == old(emitted)
      ensures open == old(open) && console == old(console) && received == old(received)
    {
      if !open {
        return;
      }
      ghost var sent0, active0, emitted0 := sent, activeToken, emitted;
      if IsSet(activeToken) {
        sent := sent + [UnsubscribeTokenTrade(activeToken)];
      }
      sent := sent + [SubscribeTokenTrade(token)];
      assert sent == sent0 + Swap(active0, token);
      activeToken := token;
      emitted := emitted + [TokenSubscription(token)];
      SwapKeepsSingleSlot(sent0, active0, token);
      LastCounterSkips(emitted0, TokenSubscription(token));
    }

    /** The feed `message` handler at clock value `now`: a dropped message
        changes nothing; an accepted one is handled by `Accept`. */
    method OnMessage(raw: RawMsg, now: int)
      requires Valid()
      modifies this, counter
      ensures Valid()
      ensures received == old(received) + [raw]
      ensures counter.State() == Step(old(counter.State()), raw, parseFloat)
      ensures emitted == old(emitted) + Broadcasts(old(counter.State()), raw, parseFloat, now)
      ensures console == old(console) + TradeLines(raw, parseFloat)
      ensures open == old(open) && activeToken == old(activeToken) && sent == old(sent)
    {
      ghost var before := counter.State();
      ghost var emitted0 := emitted;
      var n := Normalise(raw);
      if n.Some? {
        Accept(n.value, now);
        assert TradeLines(raw, parseFloat) == WalletLine(n.value, parseFloat(n.value.amount));
      } else {
        assert TradeLines(raw, parseFloat) == [];
      }
      received := received + [raw];
      assert received[..|received| - 1] == old(received);
      BroadcastKeepsClientsInStep(emitted0, before, raw, parseFloat, now);
    }

    /** The accepted branch of the handler for the trade `t`: broadcast the
        transaction, update the counter (which broadcasts the new totals unless
        the amount is `NaN`) and log the console line, unless building it
        throws, which happens only after both broadcasts. */
    method Accept(t: Trade, now: int)
      modifies this, counter
      ensures counter.State() == Apply(old(counter.State()), t.txType, parseFloat(t.amount))
      ensures emitted == old(emitted) + TradeEvents(old(counter.State()), t, parseFloat(t.amount), now)
      ensures console == old(console) + WalletLine(t, parseFloat(t.amount))
      ensures received == old(received)
      ensures open == old(open) && activeToken == old(activeToken) && sent == old(sent)
    {
      var solAmount := parseFloat(t.amount);
      emitted := emitted + [Transaction(t.txType, t.wallet, solAmount, now)];
      var update := counter.AddTransaction(t.txType, solAmount);
      if update.Some? {
        emitted := emitted + [update.value];
      }
      if !ToPrimitiveThrows(t.wallet) {
        console := console + [Render(t, solAmount)];
      }
    }

    /** The `connection` handler: what a newly connected client is sent. */
    method OnClientConnect() returns (replay: seq<ClientEvent>)
      requires Valid()
      ensures !IsSet(activeToken) ==> replay == []
      ensures IsSet(activeToken) ==>
        replay == [TokenSubscription(activeToken), Snapshot(Replay(received, parseFloat))]
      ensures LastCounter(emitted).Some? ==> LastCounter(emitted).value == Snapshot(Replay(received, parseFloat))
    {
      if LastCounter(emitted).Some? {
        ghost var i :| 0 <= i < |emitted| && emitted[i] == LastCounter(emitted).value;
        ghost var e := emitted[i];
        ghost var st := Replay(received, parseFloat);
        assert e.CounterUpdate? && e.netAmount == e.totalBought - e.totalSold;
        assert e.totalBought == st.totalBought && e.totalSold == st.totalSold;
        assert e == CounterUpdate(st.totalBought, st.totalSold, st.totalBought - st.totalSold);
      }
      replay := [];
      if IsSet(activeToken) {
        replay := [TokenSubscription(activeToken),
                   CounterUpdate(counter.totalBought, counter.totalSold, counter.NetAmount())];
      }
    }
  }
}
