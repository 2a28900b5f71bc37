/** The console-only monitor: the same single-token subscription as the relay,
    without the counter and without any readiness check, and one console line
    per accepted feed message. */
module Monitor {
  import opened Wrappers
  import opened Js
  import opened Feed

  /** The monitor's module-level state: the subscription slot and the logs of
      control messages sent upstream and of lines printed. */
  class Monitor {
    /** JavaScript's `Number` coercion; `None` is `NaN`. */
    const toNumber: JsValue -> Option<real>
    var activeToken: Token
    var sent: seq<ControlMsg>
    var console: seq<Line>

    ghost predicate Valid()
      reads this
    {
      SingleSlot(sent, activeToken)
    }

    /** The state at module load: an empty slot and nothing sent or printed. */
    constructor (toNumber: JsValue -> Option<real>)
      ensures Valid()
      ensures this.toNumber == toNumber && activeToken == None && sent == [] && console == []
    {
      this.toNumber := toNumber;
      activeToken := None;
      sent, console := [], [];
    }

    /** `subscribeToToken`: an unsubscribe for the token in the slot when it is
        set, a subscribe for the new one, and the new one stored, whatever it is. */
    method SubscribeToToken(token: Token)
      requires Valid()
      modifies this`activeToken, this`sent
      ensures Valid()
      ensures sent == old(sent) + Swap(old(activeToken), token)
      ensures activeToken == token
    {
      ghost var sent0, active0 := sent, activeToken;
      if IsSet(activeToken) {
        sent := sent + [UnsubscribeTokenTrade(activeToken)];
      }
      sent := sent + [SubscribeTokenTrade(token)];
      assert sent == sent0 + Swap(active0, token);
      activeToken := token;
      SwapKeepsSingleSlot(sent0, active0, token);
    }

    /** The `open` handler of `startMonitor(tokenAddress)`: subscribe with the
        argument given, set or not. */
    method OnOpen(tokenAddress: Token)
      requires Valid()
      modifies this`activeToken, this`sent
      ensures Valid()
      ensures sent == old(sent) + Swap(old(activeToken), tokenAddress)
      ensures activeToken == tokenAddress
    {
      SubscribeToToken(tokenAddress);
    }

    /** The feed `message` handler: at most one console line, and the slot and
        the control log untouched. */
    method OnMessage(raw: RawMsg)
      requires Valid()
      modifies this`console
      ensures Valid()
      ensures console == old(console) + TradeLines(raw, toNumber)
    {
      var n := Normalise(raw);
      if n.Some? && !ToPrimitiveThrows(n.value.wallet) {
        console := console + [Render(n.value, toNumber(n.value.amount))];
      }
    }
  }

  /** The start-up sequence: `startMonitor()` with no argument, the feed
      opening, then the token creation yielding `created`. A falsy result ends
      the process; otherwise the monitor subscribes to it. The first subscribe
      carries no key, so the slot is still empty at the second call and no
      unsubscribe is ever sent. */
  method Startup(toNumber: JsValue -> Option<real>, created: Token) returns (m: Monitor, exited: bool)
    ensures m.Valid()
    ensures exited <==> !IsSet(created)
    ensures exited ==> m.sent == [SubscribeTokenTrade(None)] && m.activeToken == None
    ensures !exited ==>
      && m.sent == [SubscribeTokenTrade(None), SubscribeTokenTrade(created)]
      && m.activeToken == created
    ensures forall i :: 0 <= i < |m.sent| ==> m.sent[i].SubscribeTokenTrade?
  {
    m := new Monitor(toNumber);
    m.OnOpen(None);
    assert m.sent == [SubscribeTokenTrade(None)];
    if !IsSet(created) {
      exited := true;
      return;
    }
    exited := false;
    m.SubscribeToToken(created);
    assert Swap(None, created) == [SubscribeTokenTrade(created)];
  }
}
