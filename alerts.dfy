/**
  The alert engine: what one polling tick decides for one coin (the
  percentage-move track with its self-rebasing baseline, then the two
  one-shot price levels), and what a whole tick does over the coins in
  insertion order.
 */
module Alerts {
  import opened Wrappers
  import opened Watch

  /** A notification the engine tries to send (delivery failures are ignored). */
  datatype Event =
    | Moved(market: string, base: real, current: real, threshold: real)
    | Reached(market: string, current: real, target: Option<real>, stop: Option<real>)

  /** A coin's record after its tick, and the notifications the tick produced for it. */
  datatype Checked = Checked(coin: Coin, events: seq<Event>)

  /** The record of every coin after a tick, and the notifications of the whole tick. */
  datatype Ticked = Ticked(state: State, events: seq<Event>)

  function Abs(x: real): (a: real)
    ensures a >= 0.0 && (a == x || a == -x)
  {
    if x < 0.0 then -x else x
  }

  /** The move in percent from `base` to `cur`; 0 where the division by a zero base is caught. */
  function Delta(cur: real, base: real): (d: real)
    ensures d >= 0.0
    ensures base == 0.0 ==> d == 0.0
    ensures base != 0.0 ==> (d == 0.0 <==> cur == base)
  {
    if base == 0.0 then 0.0 else Abs(cur / base - 1.0) * 100.0
  }

  /** A level slot counts as set when it holds a non-zero price. */
  predicate IsSet(slot: Option<real>) {
    slot.Some? && slot.value != 0.0
  }

  /**
    One coin, one reading `cur`. The baseline is seeded with `cur` when there
    is none; a move of at least the effective threshold from the baseline is
    reported and rebases it on `cur`. Then a set target at or below `cur`, and
    a set stop at or above `cur`, are reported together in one notification
    and emptied.
   */
  function CheckCoin(m: string, c: Coin, cur: real, dflt: real): (r: Checked)
    ensures r.coin.avgPrice == c.avgPrice && r.coin.qty == c.qty && r.coin.thresholdPct == c.thresholdPct
    ensures r.coin.lastNotifiedPrice.Some?
    ensures r.coin.lastNotifiedPrice == c.lastNotifiedPrice || r.coin.lastNotifiedPrice == Some(cur)
    ensures r.coin.targetPrice == c.targetPrice || r.coin.targetPrice == None
    ensures r.coin.stopPrice == c.stopPrice || r.coin.stopPrice == None
    ensures |r.events| <= 2
    ensures forall i :: 0 <= i < |r.events| ==> r.events[i].market == m && r.events[i].current == cur
  {
    var moved := MoveStep(m, c, cur, dflt);
    var reached := LevelStep(m, moved.coin, cur);
    Checked(reached.coin, moved.events + reached.events)
  }

  /** The percentage-move track alone: seeds the baseline, and reports and rebases on a large enough move. */
  function MoveStep(m: string, c: Coin, cur: real, dflt: real): (r: Checked)
    ensures r.coin == c.(lastNotifiedPrice := r.coin.lastNotifiedPrice)
    ensures r.coin.lastNotifiedPrice == Some(Baseline(c, cur)) || r.coin.lastNotifiedPrice == Some(cur)
    ensures |r.events| <= 1
  {
    var base := Baseline(c, cur);
    var th := NormThreshold(c.thresholdPct, dflt);
    if Moves(cur, base, th) then Checked(c.(lastNotifiedPrice := Some(cur)), [Moved(m, base, cur, th)])
    else Checked(c.(lastNotifiedPrice := Some(base)), [])
  }

  /**
    Whether the move from `base` to `cur` is reported under threshold `th`:
    a zero baseline measures no move and never reports one.
   */
  predicate Moves(cur: real, base: real, th: real) {
    base != 0.0 && Delta(cur, base) >= th
  }

  /** The one-shot track alone: reached levels are emptied and reported together. */
  function LevelStep(m: string, c: Coin, cur: real): (r: Checked)
    ensures r.coin == c.(targetPrice := r.coin.targetPrice, stopPrice := r.coin.stopPrice)
    ensures r.coin.targetPrice == c.targetPrice || r.coin.targetPrice == None
    ensures r.coin.stopPrice == c.stopPrice || r.coin.stopPrice == None
    ensures |r.events| <= 1 && forall e :: e in r.events ==> e.Reached?
  {
    var hitTarget := IsSet(c.targetPrice) && cur >= c.targetPrice.value;
    var hitStop := IsSet(c.stopPrice) && cur <= c.stopPrice.value;
    var c' := c.(targetPrice := if hitTarget then None else c.targetPrice,
                 stopPrice := if hitStop then None else c.stopPrice);
    if hitTarget || hitStop then
      Checked(c', [Reached(m, cur, if hitTarget then c.targetPrice else None, if hitStop then c.stopPrice else None)])
    else Checked(c', [])
  }

  /** The baseline the move track compares against during this tick. */
  function Baseline(c: Coin, cur: real): real {
    c.lastNotifiedPrice.GetOr(cur)
  }

  /**
    The move track: a notification (the first one of the tick) exactly when
    the baseline is not zero and the move from it reaches the effective
    threshold; it rebases the baseline on the current price, and otherwise
    the baseline stays.
   */
  lemma MoveTrack(m: string, c: Coin, cur: real, dflt: real)
    ensures var r := CheckCoin(m, c, cur, dflt);
      var base := Baseline(c, cur);
      var th := NormThreshold(c.thresholdPct, dflt);
      && (base != 0.0 && Delta(cur, base) >= th ==>
            |r.events| >= 1 && r.events[0] == Moved(m, base, cur, th) && r.coin.lastNotifiedPrice == Some(cur))
      && (base == 0.0 || Delta(cur, base) < th ==>
            (forall e :: e in r.events ==> !e.Moved?) && r.coin.lastNotifiedPrice == Some(base))
  {
  }

  /**
    Cold start: a coin with no baseline gets the current price as its
    baseline, and with a positive threshold no move is reported.
   */
  lemma ColdStart(m: string, c: Coin, cur: real, dflt: real)
    requires c.lastNotifiedPrice.None?
    requires NormThreshold(c.thresholdPct, dflt) > 0.0
    ensures var r := CheckCoin(m, c, cur, dflt);
      r.coin.lastNotifiedPrice == Some(cur) && forall e :: e in r.events ==> !e.Moved?
  {
    assert Delta(cur, cur) == 0.0;
  }

  /**
    A zero baseline measures no move: whatever the threshold and the reading,
    no move is reported and the baseline stays zero.
   */
  lemma ZeroBaseline(m: string, c: Coin, cur: real, dflt: real)
    requires c.lastNotifiedPrice == Some(0.0)
    ensures var r := CheckCoin(m, c, cur, dflt);
      (forall e :: e in r.events ==> !e.Moved?) && r.coin.lastNotifiedPrice == Some(0.0)
  {
  }

  /**
    The guarded delta of app.py:236-237 alone: a zero baseline gives a delta
    of 0, so the comparison at app.py:238 lets the report through exactly
    when the threshold is at most 0.
   */
  lemma ZeroDeltaPasses(cur: real, th: real)
    ensures Delta(cur, 0.0) >= th <==> th <= 0.0
  {
  }

  /**
    The level track: a set target at or below the price, and a set stop at or
    above it, are emptied; all others stay. One notification names every
    level reached, and there is one exactly when some level was reached.
   */
  lemma LevelTrack(m: string, c: Coin, cur: real, dflt: real)
    ensures var r := CheckCoin(m, c, cur, dflt);
      var hitTarget := IsSet(c.targetPrice) && cur >= c.targetPrice.value;
      var hitStop := IsSet(c.stopPrice) && cur <= c.stopPrice.value;
      && r.coin.targetPrice == (if hitTarget then None else c.targetPrice)
      && r.coin.stopPrice == (if hitStop then None else c.stopPrice)
      && (hitTarget || hitStop <==> exists e :: e in r.events && e.Reached?)
      && (forall e :: e in r.events && e.Reached? ==>
            e == Reached(m, cur, if hitTarget then c.targetPrice else None, if hitStop then c.stopPrice else None))
  {
    var r := CheckCoin(m, c, cur, dflt);
    if (IsSet(c.targetPrice) && cur >= c.targetPrice.value) || (IsSet(c.stopPrice) && cur <= c.stopPrice.value) {
      assert r.events[|r.events| - 1].Reached?;
    }
  }

  /** At most one "reached" notification per coin per tick. */
  lemma AtMostOneReached(m: string, c: Coin, cur: real, dflt: real)
    ensures var r := CheckCoin(m, c, cur, dflt);
      forall i, j :: 0 <= i < j < |r.events| ==> !(r.events[i].Reached? && r.events[j].Reached?)
  {
  }

  /**
    An emptied level never fires again: a coin without a target (or without a
    stop) reports no target (stop) at any later price.
   */
  lemma EmptiedLevelSilent(m: string, c: Coin, cur: real, dflt: real)
    ensures var r := CheckCoin(m, c, cur, dflt);
      && (c.targetPrice.None? ==> forall e :: e in r.events && e.Reached? ==> e.target.None?)
      && (c.stopPrice.None? ==> forall e :: e in r.events && e.Reached? ==> e.stop.None?)
  {
  }

  /** A level that fires in one tick is gone in the next, whatever the next price. */
  lemma FiredLevelGone(m: string, c: Coin, cur: real, next: real, dflt: real)
    requires IsSet(c.targetPrice) && cur >= c.targetPrice.value
    ensures var r := CheckCoin(m, c, cur, dflt);
      var r2 := CheckCoin(m, r.coin, next, dflt);
      r.coin.targetPrice.None? && forall e :: e in r2.events && e.Reached? ==> e.target.None?
  {
    LevelTrack(m, c, cur, dflt);
    EmptiedLevelSilent(m, CheckCoin(m, c, cur, dflt).coin, next, dflt);
  }

  // --------------------------------------------------------------- tick

  /** One coin's tick: skipped, record and all, when its price cannot be read. */
  function Advance(m: string, c: Coin, quote: Quote, dflt: real): (r: Checked)
    ensures quote(m).None? ==> r == Checked(c, [])
  {
    match quote(m)
    case None => Checked(c, [])
    case Some(cur) => CheckCoin(m, c, cur, dflt)
  }

  /** The notifications of a tick over the markets `keys`, in that order. */
  function TickEvents(s: State, keys: seq<string>, quote: Quote): (es: seq<Event>)
    ensures forall e :: e in es ==> e.market in keys && e.market in s.coins && quote(e.market).Some?
  {
    if keys == [] then []
    else
      var m := keys[|keys| - 1];
      var head := TickEvents(s, keys[..|keys| - 1], quote);
      var last := if m in s.coins then Advance(m, s.coins[m], quote, s.defaultThreshold).events else [];
      assert forall e :: e in head ==> e.market in keys by {
        forall e | e in head ensures e.market in keys {
          var i :| 0 <= i < |keys| - 1 && keys[i] == e.market;
          assert keys[i] == keys[..|keys| - 1][i];
        }
      }
      head + last
  }

  /**
    `check_loop`: every watched coin is advanced with its own reading; the
    coins whose reading fails are left exactly as they were, and the rest of
    the document does not change.
   */
  function Tick(s: State, quote: Quote): (r: Ticked)
    ensures r.state.coins.Keys == s.coins.Keys
    ensures r.state.order == s.order && r.state.defaultThreshold == s.defaultThreshold && r.state.pending == s.pending
    ensures forall m :: m in s.coins && quote(m).None? ==> r.state.coins[m] == s.coins[m]
    ensures forall m :: m in s.coins && quote(m).Some? ==>
      r.state.coins[m] == CheckCoin(m, s.coins[m], quote(m).value, s.defaultThreshold).coin
    ensures WellFormed(s) ==> WellFormed(r.state)
  {
    var coins := map m | m in s.coins :: Advance(m, s.coins[m], quote, s.defaultThreshold).coin;
    Ticked(s.(coins := coins), TickEvents(s, s.order, quote))
  }

  /**
    The notifications of a tick come coin by coin in insertion order: those of
    the first `k` coins, followed by those of coin `k`.
   */
  lemma TickEventsStep(s: State, quote: Quote, k: nat)
    requires k < |s.order|
    ensures var m := s.order[k];
      TickEvents(s, s.order[..k + 1], quote)
        == TickEvents(s, s.order[..k], quote)
           + (if m in s.coins then Advance(m, s.coins[m], quote, s.defaultThreshold).events else [])
  {
    assert s.order[..k + 1][..k] == s.order[..k];
  }

  /** `coins` is `s`'s coin table with its first `i` coins, in insertion order, advanced by a tick. */
  ghost predicate AdvancedTo(s: State, coins: map<string, Coin>, quote: Quote, i: nat) {
    && i <= |s.order|
    && coins.Keys == s.coins.Keys
    && (forall k :: 0 <= k < |s.order| ==> s.order[k] in s.coins)
    && (forall k :: 0 <= k < i ==>
          coins[s.order[k]] == Advance(s.order[k], s.coins[s.order[k]], quote, s.defaultThreshold).coin)
    && (forall k :: i <= k < |s.order| ==> coins[s.order[k]] == s.coins[s.order[k]])
  }

  /** Advancing the next coin in insertion order extends the advanced prefix by one. */
  lemma AdvanceNext(s: State, coins: map<string, Coin>, quote: Quote, i: nat)
    requires Unique(s.order) && AdvancedTo(s, coins, quote, i) && i < |s.order|
    ensures var m := s.order[i];
      AdvancedTo(s, coins[m := Advance(m, s.coins[m], quote, s.defaultThreshold).coin], quote, i + 1)
  {
  }

  /**
    A coin table advanced coin by coin along `order` is the one a tick
    computes, provided `order` lists exactly the coins.
   */
  lemma TickByOrder(s: State, coins: map<string, Coin>, quote: Quote)
    requires WellFormed(s) && AdvancedTo(s, coins, quote, |s.order|)
    ensures s.(coins := coins) == Tick(s, quote).state
  {
    forall m | m in s.coins
      ensures coins[m] == Advance(m, s.coins[m], quote, s.defaultThreshold).coin
    {
      var k :| 0 <= k < |s.order| && s.order[k] == m;
    }
  }

  /** With no coin watched, a tick sends nothing, whatever `order` holds. */
  lemma {:induction false} NoCoinsNoEvents(s: State, keys: seq<string>, quote: Quote)
    requires s.coins == map[]
    ensures TickEvents(s, keys, quote) == []
  {
    if keys != [] {
      NoCoinsNoEvents(s, keys[..|keys| - 1], quote);
    }
  }

  /** A tick in which no price can be read sends nothing (and `Tick` keeps every record). */
  lemma {:induction false} NoReadingsNoEvents(s: State, keys: seq<string>, quote: Quote)
    requires forall m :: quote(m).None?
    ensures TickEvents(s, keys, quote) == []
  {
    if keys != [] {
      NoReadingsNoEvents(s, keys[..|keys| - 1], quote);
    }
  }

  // ------------------------------------------------ the notification text

  /**
    One coin's tick as app.py:236-246 has it: the guarded delta is 0 for a
    zero baseline, so the comparison lets a report through when the
    threshold is at most 0, and the text of that report then divides the
    reading by the baseline outside any handler and raises. The tick ends
    there (`None`) before the baseline is rebased or the levels are looked
    at; in every other case the tick is the one `CheckCoin` describes.
   */
  function CheckCoinAsWritten(m: string, c: Coin, cur: real, dflt: real): (r: Option<Checked>)
    ensures r.None? <==> Baseline(c, cur) == 0.0 && NormThreshold(c.thresholdPct, dflt) <= 0.0
    ensures r.Some? ==> r.value == CheckCoin(m, c, cur, dflt)
  {
    var base := Baseline(c, cur);
    if base == 0.0 && Delta(cur, base) >= NormThreshold(c.thresholdPct, dflt) then None
    else Some(CheckCoin(m, c, cur, dflt))
  }

  /**
    A zero baseline with a threshold of 0: the guarded delta lets the move
    report through, and the text of that report then divides by zero, where
    the corrected tick reports nothing and keeps the baseline.
   */
  lemma ZeroBaselineRaises(m: string)
    ensures var c := NewCoin.(lastNotifiedPrice := Some(0.0), thresholdPct := Some(Num(0.0)));
      && CheckCoinAsWritten(m, c, 100.0, 1.0) == None
      && CheckCoin(m, c, 100.0, 1.0).events == []
      && CheckCoin(m, c, 100.0, 1.0).coin.lastNotifiedPrice == Some(0.0)
  {
  }

  // ------------------------------------------------------------ scenarios

  /**
    Default threshold 1%, baseline 100: a reading of 100.5 reports nothing and
    keeps the baseline; then 101.2 (1.2% from 100) reports a move and makes
    101.2 the baseline.
   */
  lemma MoveScenario(m: string)
    ensures var c := NewCoin.(lastNotifiedPrice := Some(100.0));
      var r1 := CheckCoin(m, c, 100.5, 1.0);
      var r2 := CheckCoin(m, r1.coin, 101.2, 1.0);
      && r1.events == [] && r1.coin.lastNotifiedPrice == Some(100.0)
      && r2.events == [Moved(m, 100.0, 101.2, 1.0)] && r2.coin.lastNotifiedPrice == Some(101.2)
  {
    assert Delta(100.5, 100.0) == 0.5;
    assert Delta(101.2, 100.0) == 1.2;
  }

  /**
    A target of 50000: a reading of 49500 leaves it, 50200 reports it and
    empties the slot, and a later 49000 reports nothing about it.
   */
  lemma TargetScenario(m: string)
    ensures var c := NewCoin.(lastNotifiedPrice := Some(50000.0), thresholdPct := Some(Num(10.0)),
                              targetPrice := Some(50000.0));
      var r1 := CheckCoin(m, c, 49500.0, 1.0);
      var r2 := CheckCoin(m, r1.coin, 50200.0, 1.0);
      var r3 := CheckCoin(m, r2.coin, 49000.0, 1.0);
      && r1.events == [] && r1.coin.targetPrice == Some(50000.0)
      && r2.events == [Reached(m, 50200.0, Some(50000.0), None)] && r2.coin.targetPrice == None
      && r3.events == []
  {
    assert Delta(49500.0, 50000.0) == 1.0;
    assert Delta(50200.0, 50000.0) == 0.4;
    assert Delta(49000.0, 50000.0) == 2.0;
  }
}
