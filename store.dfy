/**
  The running bot's document as an object updated in place: the coin table
  with its insertion order, the default threshold and the per-chat pending
  records. Each method does what the corresponding function of `Watch`,
  `Alerts` or `Conversation` says, and is proved to.
 */
module Bot {
  import opened Wrappers
  import opened PyText
  import opened Watch
  import opened Alerts
  import Conversation

  class Store {
    var coins: map<string, Coin>
    var order: seq<string>
    var defaultThreshold: real
    var pending: map<string, Pending>

    /** The document the fields hold. */
    function Model(): State
      reads this
    {
      State(coins, order, defaultThreshold, pending)
    }

    ghost predicate Valid()
      reads this
    {
      WellFormed(Model())
    }

    /**
      `load_state`, with the file already read (or found missing) and
      `THRESHOLD_PCT` as the environment holds it (`None` when unset). A loaded
      file is taken as it is: the document invariant is not checked on load,
      so it holds here only when there is no file.
     */
    constructor (file: Option<Stored>, env: Option<string>)
      requires EnvThreshold(env).Some?  // otherwise `float()` raises at start-up
      ensures Model() == LoadState(file, EnvThreshold(env).value)
      ensures file.None? ==> Valid()
    {
      var s := LoadState(file, EnvThreshold(env).value);
      coins, order, defaultThreshold, pending := s.coins, s.order, s.defaultThreshold, s.pending;
    }

    // -------------------------------------------------------- watch state

    /** `ensure_coin`: inserts the default record for a market not yet watched. */
    method EnsureCoin(m: string)
      modifies this
      ensures Model() == Watch.EnsureCoin(old(Model()), m)
    {
      if m !in coins {
        coins := coins[m := NewCoin];
        order := order + [m];
      }
    }

    /** `act_add`. */
    method Add(symbol: string) returns (reply: Reply)
      modifies this
      ensures Model() == ActAdd(old(Model()), symbol).state
      ensures reply == ActAdd(old(Model()), symbol).reply
    {
      var m := KrwSymbol(symbol);
      EnsureCoin(m);
      reply := Added(m);
    }

    /** `act_del`: drops the market's record when there is one. */
    method Del(symbol: string) returns (reply: Reply)
      modifies this
      ensures Model() == ActDel(old(Model()), symbol).state
      ensures reply == ActDel(old(Model()), symbol).reply
    {
      var m := KrwSymbol(symbol);
      ghost var s := Model();
      if m in coins {
        assert ActDel(s, symbol) == Step(s.(coins := coins - {m}, order := Without(order, m)), Deleted(m));
        coins := coins - {m};
        order := Without(order, m);
        reply := Deleted(m);
      } else {
        reply := NoSuchCoin;
      }
    }

    /** `act_setavg`. */
    method SetAvg(symbol: string, v: real) returns (reply: Reply)
      modifies this
      ensures Model() == ActSetAvg(old(Model()), symbol, v).state
      ensures reply == ActSetAvg(old(Model()), symbol, v).reply
    {
      var m := KrwSymbol(symbol);
      EnsureCoin(m);
      coins := coins[m := coins[m].(avgPrice := v)];
      reply := AvgSet(m, v);
    }

    /** `act_setqty`. */
    method SetQty(symbol: string, v: real) returns (reply: Reply)
      modifies this
      ensures Model() == ActSetQty(old(Model()), symbol, v).state
      ensures reply == ActSetQty(old(Model()), symbol, v).reply
    {
      var m := KrwSymbol(symbol);
      EnsureCoin(m);
      coins := coins[m := coins[m].(qty := v)];
      reply := QtySet(m, v);
    }

    /** `act_setrate_default`. */
    method SetRateDefault(v: real) returns (reply: Reply)
      modifies this
      ensures Model() == ActSetRateDefault(old(Model()), v).state
      ensures reply == ActSetRateDefault(old(Model()), v).reply
    {
      defaultThreshold := v;
      reply := DefaultRateSet(v);
    }

    /** `act_setrate_symbol`. */
    method SetRateSymbol(symbol: string, v: real) returns (reply: Reply)
      modifies this
      ensures Model() == ActSetRateSymbol(old(Model()), symbol, v).state
      ensures reply == ActSetRateSymbol(old(Model()), symbol, v).reply
    {
      var m := KrwSymbol(symbol);
      EnsureCoin(m);
      coins := coins[m := coins[m].(thresholdPct := Some(Num(v)))];
      reply := CoinRateSet(m, v);
    }

    /** `set_pending`. */
    method SetPending(cid: string, action: string, step: string, data: map<string, string>)
      modifies this
      ensures Model() == Watch.SetPending(old(Model()), cid, action, step, data)
    {
      pending := pending[cid := Pending(action, step, data)];
    }

    /** `clear_pending`. */
    method ClearPending(cid: string)
      modifies this
      ensures Model() == Watch.ClearPending(old(Model()), cid)
    {
      pending := pending - {cid};
    }

    /** `set_target_stop`. */
    method SetTargetStop(symbol: string, which: string, mode: string, value: real, quote: Quote) returns (reply: Reply)
      modifies this
      ensures Model() == Watch.SetTargetStop(old(Model()), symbol, which, mode, value, quote).state
      ensures reply == Watch.SetTargetStop(old(Model()), symbol, which, mode, value, quote).reply
    {
      ghost var s := Model();
      var m := KrwSymbol(symbol);
      EnsureCoin(m);
      var c := coins[m];
      var target, stop := c.targetPrice, c.stopPrice;
      var slot := SlotOf(which);
      if slot == ClearBoth {
        target, stop := None, None;
        reply := LevelsCleared(m);
      } else {
        var price: Option<real> := None;
        var how := ModeOf(mode);
        match how {
          case Some(FromCurrent) =>
            var reading := quote(m);
            if reading.None? {
              reply := QuoteFailed;
            } else {
              price := Some(Offset(reading.value, value, which));
            }
          case Some(FromAverage) =>
            if c.avgPrice <= 0.0 {
              reply := NoAvgPrice;
            } else {
              price := Some(Offset(c.avgPrice, value, which));
            }
          case Some(Direct) =>
            price := Some(value);
          case None =>
            reply := Fault;
        }
        if price.Some? {
          if slot == TargetOnly {
            target := price;
          } else {
            stop := price;
          }
          reply := LevelSet(m, which, price.value);
        }
      }
      assert NewLevels(m, c, which, mode, value, quote) == Levels(target, stop, reply);
      coins := coins[m := c.(targetPrice := target, stopPrice := stop)];
      assert Model() == Put(Watch.EnsureCoin(s, m), m, c.(targetPrice := target, stopPrice := stop));
    }

    // --------------------------------------------------------- alert loop

    /** The body of `check_loop` for the market `m`: skipped when its price cannot be read. */
    method CheckCoin(m: string, quote: Quote) returns (events: seq<Event>)
      requires m in coins
      modifies this
      ensures coins == old(coins)[m := Advance(m, old(coins[m]), quote, defaultThreshold).coin]
      ensures events == Advance(m, old(coins[m]), quote, defaultThreshold).events
      ensures order == old(order) && defaultThreshold == old(defaultThreshold) && pending == old(pending)
    {
      var reading := quote(m);
      if reading.None? {
        return [];
      }
      var moves := TrackMove(m, reading.value);
      var reached := TrackLevels(m, reading.value);
      events := moves + reached;
    }

    /** The percentage-move half of the loop body. */
    method TrackMove(m: string, cur: real) returns (events: seq<Event>)
      requires m in coins
      modifies this
      ensures coins == old(coins)[m := MoveStep(m, old(coins[m]), cur, defaultThreshold).coin]
      ensures events == MoveStep(m, old(coins[m]), cur, defaultThreshold).events
      ensures order == old(order) && defaultThreshold == old(defaultThreshold) && pending == old(pending)
    {
      var info := coins[m];
      if info.lastNotifiedPrice.None? {
        info := info.(lastNotifiedPrice := Some(cur));
        coins := coins[m := info];
      }
      var base := info.lastNotifiedPrice.value;
      var th := NormThreshold(info.thresholdPct, defaultThreshold);
      events := [];
      if base != 0.0 && Delta(cur, base) >= th {
        events := [Moved(m, base, cur, th)];
        info := info.(lastNotifiedPrice := Some(cur));
        coins := coins[m := info];
      }
    }

    /** The target/stop half of the loop body. */
    method TrackLevels(m: string, cur: real) returns (events: seq<Event>)
      requires m in coins
      modifies this
      ensures coins == old(coins)[m := LevelStep(m, old(coins[m]), cur).coin]
      ensures events == LevelStep(m, old(coins[m]), cur).events
      ensures order == old(order) && defaultThreshold == old(defaultThreshold) && pending == old(pending)
    {
      var info := coins[m];
      var target, stop := info.targetPrice, info.stopPrice;
      var hitTarget, hitStop := false, false;
      if IsSet(target) && cur >= target.value {
        hitTarget := true;
        info := info.(targetPrice := None);
        coins := coins[m := info];
      }
      if IsSet(stop) && cur <= stop.value {
        hitStop := true;
        info := info.(stopPrice := None);
        coins := coins[m := info];
      }
      events := [];
      if hitTarget || hitStop {
        events := [Reached(m, cur, if hitTarget then target else None, if hitStop then stop else None)];
      }
    }

    /**
      `check_loop`: one tick over the coins in insertion order; a coin whose
      price cannot be read is skipped.
     */
    method CheckLoop(quote: Quote) returns (events: seq<Event>)
      requires Valid()
      modifies this
      ensures Model() == Tick(old(Model()), quote).state
      ensures events == Tick(old(Model()), quote).events
      ensures Valid()
    {
      ghost var s := Model();
      events := [];
      if coins == map[] {
        NoCoinsNoEvents(s, s.order, quote);
        return;
      }
      var i := 0;
      while i < |order|
        invariant order == s.order && defaultThreshold == s.defaultThreshold && pending == s.pending
        invariant AdvancedTo(s, coins, quote, i)
        invariant events == TickEvents(s, order[..i], quote)
      {
        var m := order[i];
        TickEventsStep(s, quote, i);
        AdvanceNext(s, coins, quote, i);
        var found := CheckCoin(m, quote);
        events := events + found;
        i := i + 1;
      }
      assert order[..i] == s.order;
      TickByOrder(s, coins, quote);
    }

    // -------------------------------------------------------- conversation

    /** `on_text` on the message `message` from chat `cid`. */
    method OnText(cid: string, message: string, quote: Quote) returns (reply: Reply)
      modifies this
      ensures Model() == Conversation.OnText(old(Model()), cid, message, quote).state
      ensures reply == Conversation.OnText(old(Model()), cid, message, quote).reply
      ensures old(Valid()) ==> Valid()
    {
      Conversation.MessagesKeepBaselines(Model(), cid, message, quote);
      var text := Strip(message);
      if cid in pending {
        reply := Continue(cid, pending[cid], text, quote);
      } else {
        reply := Command(cid, text);
      }
    }

    /** A message for a chat whose pending record is `p`. */
    method Continue(cid: string, p: Pending, text: string, quote: Quote) returns (reply: Reply)
      requires GetPending(Model(), cid) == Some(p)
      modifies this
      ensures Model() == Conversation.Continue(old(Model()), cid, p, text, quote).state
      ensures reply == Conversation.Continue(old(Model()), cid, p, text, quote).reply
    {
      if text == Conversation.CancelWord {
        ClearPending(cid);
        reply := Cancelled;
      } else if p.action == "coin" && p.step == "mode" {
        if text !in {Conversation.AddWord, Conversation.DelWord} {
          reply := Rejected("coin", "mode");
        } else {
          var next := if text == Conversation.AddWord then "coin_add" else "coin_del";
          SetPending(cid, next, "symbol", map[]);
          reply := Prompt(next, "symbol");
        }
      } else if p.action in {"coin_add", "coin_del"} && p.step == "symbol" {
        if p.action == "coin_add" {
          reply := Add(Upper(text));
        } else {
          reply := Del(Upper(text));
        }
        ClearPending(cid);
      } else if p.action == "target" && p.step in {"symbol", "type", "mode", "value"} {
        reply := TargetStep(cid, p, text, quote);
      } else if p.step == "symbol" {
        reply := SymbolStep(cid, p, text, quote);
      } else if p.step == "value" {
        reply := ValueStep(cid, p, text);
      } else {
        reply := Command(cid, text);
      }
    }

    /** The steps of the target/stop command. */
    method TargetStep(cid: string, p: Pending, text: string, quote: Quote) returns (reply: Reply)
      requires GetPending(Model(), cid) == Some(p)
      requires p.action == "target" && p.step in {"symbol", "type", "mode", "value"}
      modifies this
      ensures Model() == Conversation.TargetStep(old(Model()), cid, p, text, quote).state
      ensures reply == Conversation.TargetStep(old(Model()), cid, p, text, quote).reply
    {
      if p.step == "symbol" {
        SetPending(cid, "target", "type", p.data["symbol" := Upper(text)]);
        reply := Prompt("target", "type");
      } else if p.step == "type" {
        if text !in {TargetSlot, StopSlot, Reset} {
          reply := Rejected("target", "type");
          return;
        }
        var data := p.data["which" := text];
        SetPending(cid, p.action, p.step, data);
        if text == Reset {
          if "symbol" !in data {
            reply := Fault;
            return;
          }
          reply := SetTargetStop(data["symbol"], Reset, DirectMode, 0.0, quote);
          ClearPending(cid);
        } else {
          SetPending(cid, "target", "mode", data);
          reply := Prompt("target", "mode");
        }
      } else if p.step == "mode" {
        if text !in {Conversation.DirectWord, Conversation.CurPctWord, Conversation.AvgPctWord} {
          reply := Rejected("target", "mode");
          return;
        }
        SetPending(cid, "target", "value", p.data["mode" := Conversation.ModeCode(text)]);
        reply := Prompt("target", "value");
      } else {
        var n := ParseFloat(Remove(Remove(text, '%'), ','));
        if n.None? {
          reply := Rejected("target", "value");
          return;
        }
        if "symbol" !in p.data || "which" !in p.data || "mode" !in p.data {
          reply := Fault;
          return;
        }
        reply := SetTargetStop(p.data["symbol"], p.data["which"], p.data["mode"], n.value, quote);
        if reply != Fault {
          ClearPending(cid);
        }
      }
    }

    /** The symbol step of the price, cost-basis, quantity and per-coin threshold commands. */
    method SymbolStep(cid: string, p: Pending, text: string, quote: Quote) returns (reply: Reply)
      requires GetPending(Model(), cid) == Some(p)
      modifies this
      ensures Model() == Conversation.SymbolStep(old(Model()), cid, p, text, quote).state
      ensures reply == Conversation.SymbolStep(old(Model()), cid, p, text, quote).reply
    {
      var symbol := Upper(text);
      var data := p.data["symbol" := symbol];
      SetPending(cid, p.action, p.step, data);
      if p.action == "price" {
        reply := Conversation.ActPrice(symbol, quote);
        ClearPending(cid);
      } else if p.action in {"setavg", "setqty", "setrate_coin"} {
        SetPending(cid, p.action, "value", data);
        reply := Prompt(p.action, "value");
      } else {
        reply := Command(cid, text);
      }
    }

    /** The number step of the cost-basis, quantity and per-coin threshold commands. */
    method ValueStep(cid: string, p: Pending, text: string) returns (reply: Reply)
      requires GetPending(Model(), cid) == Some(p) && p.step == "value"
      modifies this
      ensures Model() == Conversation.ValueStep(old(Model()), cid, p, text).state
      ensures reply == Conversation.ValueStep(old(Model()), cid, p, text).reply
    {
      var n := ParseFloat(Remove(text, ','));
      if n.None? {
        reply := Rejected(p.action, "value");
        return;
      }
      reply := ApplyValue(p.action, if "symbol" in p.data then p.data["symbol"] else "", n.value);
      ClearPending(cid);
    }

    /** The action a number step finishes. */
    method ApplyValue(action: string, symbol: string, v: real) returns (reply: Reply)
      modifies this
      ensures Model() == Conversation.ApplyValue(old(Model()), action, symbol, v).state
      ensures reply == Conversation.ApplyValue(old(Model()), action, symbol, v).reply
    {
      if action == "setavg" {
        reply := SetAvg(symbol, v);
      } else if action == "setqty" {
        reply := SetQty(symbol, v);
      } else if action == "setrate_coin" {
        reply := SetRateSymbol(symbol, v);
      } else {
        reply := Silent;
      }
    }

    /** The top-level commands. */
    method Command(cid: string, text: string) returns (reply: Reply)
      modifies this
      ensures Model() == Conversation.Command(old(Model()), cid, text).state
      ensures reply == Conversation.Command(old(Model()), cid, text).reply
    {
      match Conversation.ParseCommand(text)
      case ShowHelp => reply := Help;
      case ShowView => reply := View;
      case ShowStatus => reply := Status;
      case Open(action, step) =>
        SetPending(cid, action, step, map[]);
        reply := Prompt(action, step);
      case SetDefault(v) => reply := SetRateDefault(v);
      case NoWord => reply := Fault;
    }
  }
}
