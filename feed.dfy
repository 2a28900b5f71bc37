/** What the relay and the console monitor share: the single-token
    subscription protocol against the upstream trade feed, and the filter and
    normalisation every inbound feed message goes through. */
module Feed {
  import opened Wrappers
  import opened Js

  // ---------------------------------------------------------------------------
  // Subscription slot and control messages
  // ---------------------------------------------------------------------------

  /** The value held in the `activeToken` slot or passed to `subscribeToToken`:
      a token address, or `None` for `undefined`/`null`. */
  type Token = Option<string>

  /** JavaScript truthiness of a token: set when it is a non-empty string. */
  predicate IsSet(t: Token)
    ensures IsSet(t) <==> t.Some? && Truthy(Some(JStr(t.value)))
  {
    t.Some? && t.value != ""
  }

  /** A control message written to the upstream socket,
      `{"method": ..., "keys": [key]}`. */
  datatype ControlMsg =
    | SubscribeTokenTrade(key: Token)
    | UnsubscribeTokenTrade(key: Token)

  /** The control messages one call of `subscribeToToken(token)` sends while
      `active` is in the slot: an unsubscribe for the old token when the slot is
      set, then a subscribe for the new one, with no check that the two differ. */
  function Swap(active: Token, token: Token): (r: seq<ControlMsg>)
    ensures |r| == if IsSet(active) then 2 else 1
    ensures r[|r| - 1] == SubscribeTokenTrade(token)
    ensures IsSet(active) ==> r[0] == UnsubscribeTokenTrade(active)
    ensures forall i :: 0 <= i < |r| - 1 ==> r[i].UnsubscribeTokenTrade?
  {
    if IsSet(active) then [UnsubscribeTokenTrade(active), SubscribeTokenTrade(token)]
    else [SubscribeTokenTrade(token)]
  }

  /** The messages sent by successive `subscribeToToken` calls with `tokens`,
      starting with `active` in the slot. */
  function SubscribeAll(active: Token, tokens: seq<Token>): seq<ControlMsg>
    decreases |tokens|
  {
    if tokens == [] then [] else Swap(active, tokens[0]) + SubscribeAll(tokens[0], tokens[1..])
  }

  /** The slot's content after `SubscribeAll(active, tokens)`. */
  function LastToken(active: Token, tokens: seq<Token>): Token
  {
    if tokens == [] then active else tokens[|tokens| - 1]
  }

  /** Reference reading of a control log: the keys the feed has been asked to
      stream, if every subscribe adds its key and every unsubscribe removes it. */
  function Live(sent: seq<ControlMsg>): set<Token>
  {
    if sent == [] then {}
    else
      var rest := Live(sent[..|sent| - 1]);
      match sent[|sent| - 1]
      case SubscribeTokenTrade(k) => rest + {k}
      case UnsubscribeTokenTrade(k) => rest - {k}
  }

  /** The single-slot discipline: the only real token the feed is streaming is
      the one in the slot, and a set slot is being streamed. */
  predicate SingleSlot(sent: seq<ControlMsg>, active: Token)
  {
    && (forall k :: k in Live(sent) && IsSet(k) ==> k == active)
    && (IsSet(active) ==> active in Live(sent))
  }

  function CountSubscribes(sent: seq<ControlMsg>): nat
  {
    if sent == [] then 0
    else CountSubscribes(sent[..|sent| - 1]) + (if sent[|sent| - 1].SubscribeTokenTrade? then 1 else 0)
  }

  lemma {:induction false} CountSubscribesAppend(a: seq<ControlMsg>, b: seq<ControlMsg>)
    ensures CountSubscribes(a + b) == CountSubscribes(a) + CountSubscribes(b)
  {
    if b != [] {
      assert (a + b)[..|a + b| - 1] == a + b[..|b| - 1];
      CountSubscribesAppend(a, b[..|b| - 1]);
    } else {
      assert a + b == a;
    }
  }

  /** One subscribeToToken call keeps the single-slot discipline, the new token
      taking the slot. */
  lemma SwapKeepsSingleSlot(sent: seq<ControlMsg>, active: Token, token: Token)
    requires SingleSlot(sent, active)
    ensures SingleSlot(sent + Swap(active, token), token)
  {
    var after := sent + Swap(active, token);
    if IsSet(active) {
      var mid := sent + [UnsubscribeTokenTrade(active)];
      assert after[..|after| - 1] == mid;
      assert mid[..|mid| - 1] == sent;
      assert Live(after) == (Live(sent) - {active}) + {token};
    } else {
      assert after[..|after| - 1] == sent;
      assert Live(after) == Live(sent) + {token};
    }
  }

  /** Any sequence of subscribeToToken calls keeps the single-slot discipline. */
  lemma {:induction false} SubscribeAllKeepsSingleSlot(sent: seq<ControlMsg>, active: Token, tokens: seq<Token>)
    requires SingleSlot(sent, active)
    ensures SingleSlot(sent + SubscribeAll(active, tokens), LastToken(active, tokens))
    decreases |tokens|
  {
    if tokens == [] {
      assert sent + SubscribeAll(active, tokens) == sent;
    } else {
      var next := sent + Swap(active, tokens[0]);
      SwapKeepsSingleSlot(sent, active, tokens[0]);
      SubscribeAllKeepsSingleSlot(next, tokens[0], tokens[1..]);
      assert sent + SubscribeAll(active, tokens) == next + SubscribeAll(tokens[0], tokens[1..]);
      assert LastToken(tokens[0], tokens[1..]) == LastToken(active, tokens);
    }
  }

  /** No de-duplication: every call sends exactly one subscribe, whatever the
      tokens, repeated ones included. */
  lemma {:induction false} OneSubscribePerCall(active: Token, tokens: seq<Token>)
    ensures CountSubscribes(SubscribeAll(active, tokens)) == |tokens|
    decreases |tokens|
  {
    if tokens != [] {
      var first := Swap(active, tokens[0]);
      CountSubscribesAppend(first, SubscribeAll(tokens[0], tokens[1..]));
      OneSubscribePerCall(tokens[0], tokens[1..]);
      if IsSet(active) {
        assert first[..1] == [UnsubscribeTokenTrade(active)];
        assert [UnsubscribeTokenTrade(active)][..0] == [];
        assert CountSubscribes([UnsubscribeTokenTrade(active)]) == 0;
      } else {
        assert first[..0] == [];
      }
      assert CountSubscribes(first) == 1;
    }
  }

  /** Subscribing twice to the same token resends the pair: the second call
      unsubscribes the token and subscribes it again. */
  lemma RepeatedTokenResent(active: Token, token: Token)
    requires IsSet(token)
    ensures SubscribeAll(active, [token, token])
            == Swap(active, token) + [UnsubscribeTokenTrade(token), SubscribeTokenTrade(token)]
  {
    assert [token, token][1..] == [token];
    assert SubscribeAll(token, [token]) == Swap(token, token) + SubscribeAll(token, []);
  }

  /** A falsy token stored in the slot leaves it effectively empty: the next
      call sends its subscribe alone. */
  lemma FalsyTokenNotUnsubscribed(active: Token, blank: Token, token: Token)
    requires !IsSet(blank)
    ensures SubscribeAll(active, [blank, token]) == Swap(active, blank) + [SubscribeTokenTrade(token)]
  {
    assert [blank, token][1..] == [token];
    assert SubscribeAll(blank, [token]) == Swap(blank, token) + SubscribeAll(token, []);
  }

  // ---------------------------------------------------------------------------
  // Inbound feed messages
  // ---------------------------------------------------------------------------

  /** An inbound feed message after `JSON.parse`. `Malformed` is text that does
      not decode, or decodes to `null` (whose property read throws); any other
      decoded value is `Decoded` with the three properties the handlers read,
      `None` for a missing one (so a non-object decodes with all three missing). */
  datatype RawMsg =
    | Malformed
    | Decoded(txType: Option<JsValue>, traderPublicKey: Option<JsValue>, solAmount: Option<JsValue>)

  /** The three-field test both handlers apply. */
  predicate PassesFilter(m: RawMsg)
  {
    m.Decoded? && Truthy(m.txType) && Truthy(m.traderPublicKey) && m.solAmount.Some?
  }

  /** A normalised trade: upper-cased type, the last four characters (or
      elements) of the trader key, and the amount still undecoded. */
  datatype Trade = Trade(txType: string, wallet: JsValue, amount: JsValue)

  /** The filter followed by the three calls both handlers make before they
      emit or print anything: `slice(-4)` on the key, the numeric coercion of
      the amount and `toUpperCase` on the type. `None` when the message is
      dropped, either by the filter or by a TypeError the catch swallows. */
  function Normalise(m: RawMsg): Option<Trade>
  {
    if !PassesFilter(m) then None
    else
      match SliceLast4(m.traderPublicKey.value)
      case None => None
      case Some(wallet) =>
        if ToPrimitiveThrows(m.solAmount.value) then None
        else
          match UpperCase(m.txType.value)
          case None => None
          case Some(txType) => Some(Trade(txType, wallet, m.solAmount.value))
  }

  /** A message is accepted exactly when the filter passes, its type is a
      non-empty string, its wallet a non-empty string or an array, and its
      amount converts to a primitive without throwing; the
      accepted trade is the upper-cased type, the last four characters (or
      elements) of the wallet and the amount as received. */
  lemma NormaliseAccepts(m: RawMsg)
    ensures Normalise(m).Some? ==> PassesFilter(m)
    ensures Normalise(m).Some? <==>
      && m.Decoded?
      && m.txType.Some? && m.txType.value.JStr? && m.txType.value.s != ""
      && m.traderPublicKey.Some?
      && (m.traderPublicKey.value.JArr? || (m.traderPublicKey.value.JStr? && m.traderPublicKey.value.s != ""))
      && m.solAmount.Some? && !ToPrimitiveThrows(m.solAmount.value)
    ensures Normalise(m).Some? ==>
      Normalise(m).value.txType == ToUpper(m.txType.value.s) && Normalise(m).value.amount == m.solAmount.value
    ensures Normalise(m).Some? && m.traderPublicKey.value.JStr? ==>
      Normalise(m).value.wallet == JStr(Last4(m.traderPublicKey.value.s))
    ensures Normalise(m).Some? && m.traderPublicKey.value.JArr? ==>
      Normalise(m).value.wallet == JArr(Last4(m.traderPublicKey.value.elems))
  {
  }

  /** The filter is necessary but not sufficient: a numeric type passes it and
      is then dropped because numbers have no `toUpperCase`. */
  lemma FilterIsNotSufficient()
    ensures var m := Decoded(Some(JNum(1.0)), Some(JStr("abcd")), Some(JNum(1.0)));
            PassesFilter(m) && Normalise(m).None?
  {
  }

  /** An amount object with its own `toString` key passes the filter, but its
      numeric coercion throws, so the message is dropped. */
  lemma OwnToStringAmountDropped()
    ensures var m := Decoded(Some(JStr("buy")), Some(JStr("WALLETabcd1234")), Some(JObj(true)));
            PassesFilter(m) && Normalise(m).None?
  {
  }

  // ---------------------------------------------------------------------------
  // Console rendering
  // ---------------------------------------------------------------------------

  /** Green for a buy, red for everything else. */
  datatype Style = Green | Red

  /** One console line: style, wallet suffix, type and coerced amount. The
      colour codes, emoji and `toFixed(2)` formatting are presentation only. */
  datatype Line = Line(style: Style, wallet: JsValue, txType: string, sol: Option<real>)

  function Render(t: Trade, sol: Option<real>): (line: Line)
    ensures line.style == Green <==> t.txType == "BUY"
    ensures line.wallet == t.wallet && line.txType == t.txType && line.sol == sol
  {
    Line(if t.txType == "BUY" then Green else Red, t.wallet, t.txType, sol)
  }

  /** The line the template literal builds for the accepted trade `t`, or none
      when converting its wallet to a string throws (an array wallet holding
      an object with an own `toString`). */
  function WalletLine(t: Trade, sol: Option<real>): (r: seq<Line>)
    ensures |r| <= 1
    ensures r == [] <==> ToPrimitiveThrows(t.wallet)
    ensures r != [] ==> r[0] == Render(t, sol)
  {
    if ToPrimitiveThrows(t.wallet) then [] else [Render(t, sol)]
  }

  /** The lines a handler logs for `m`, its amount coerced by `toNumber`
      (`parseFloat` in the relay, `Number` in the monitor): none for a dropped
      message, otherwise the line of its trade. */
  function TradeLines(m: RawMsg, toNumber: JsValue -> Option<real>): seq<Line>
  {
    match Normalise(m)
    case None => []
    case Some(t) => WalletLine(t, toNumber(t.amount))
  }

  /** A message yields at most one line, and one exactly when it is accepted
      and its wallet converts to a string; the line is green exactly when the
      original type spells "buy" in some mix of cases, so "sell" and every
      unknown type are red. */
  lemma GreenOnlyForBuy(m: RawMsg, toNumber: JsValue -> Option<real>)
    ensures |TradeLines(m, toNumber)| <= 1
    ensures TradeLines(m, toNumber) != [] <==> Normalise(m).Some? && !ToPrimitiveThrows(Normalise(m).value.wallet)
    ensures TradeLines(m, toNumber) != [] ==>
      var s := m.txType.value.s;
      (TradeLines(m, toNumber)[0].style == Green <==>
       |s| == 3 && (s[0] == 'B' || s[0] == 'b') && (s[1] == 'U' || s[1] == 'u') && (s[2] == 'Y' || s[2] == 'y'))
  {
    if TradeLines(m, toNumber) != [] {
      var s := m.txType.value.s;
      CaseInsensitiveMatch(s, "BUY");
    }
  }
}
