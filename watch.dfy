/**
  The bot's in-memory document: the watched coins (in insertion order), the
  global default threshold, and one pending conversation record per chat;
  and the operations that change it (market-name normalisation, coin
  creation, the `act_*` commands, the pending-record slot, target/stop
  setting and the default back-fill done when the document is loaded).
  Every operation is a function from the old document to the new one.
 */
module Watch {
  import opened Wrappers
  import opened PyText

  /** `threshold_pct` as it can appear in the document: a number, or text `float()` may or may not read. */
  datatype Setting = Num(n: real) | Text(t: string)

  /** One watched market's record. */
  datatype Coin = Coin(
    avgPrice: real,
    qty: real,
    thresholdPct: Option<Setting>,
    lastNotifiedPrice: Option<real>,
    targetPrice: Option<real>,
    stopPrice: Option<real>)

  /** An unfinished multi-step command of one chat. */
  datatype Pending = Pending(action: string, step: string, data: map<string, string>)

  /** The whole document; `order` is the iteration order of `coins`. */
  datatype State = State(
    coins: map<string, Coin>,
    order: seq<string>,
    defaultThreshold: real,
    pending: map<string, Pending>)

  /** A market-price reading: `None` when the request fails. */
  type Quote = string -> Option<real>

  /** What the bot answers to the chat. */
  datatype Reply =
    | Cancelled
    | Prompt(action: string, step: string)      // asks for the input of a new step
    | Rejected(action: string, step: string)    // input refused; the same step is asked again
    | Added(market: string)
    | Deleted(market: string)
    | NoSuchCoin
    | PriceIs(market: string, price: real)
    | PriceFailed
    | AvgSet(market: string, avg: real)
    | QtySet(market: string, qty: real)
    | DefaultRateSet(pct: real)
    | CoinRateSet(market: string, pct: real)
    | LevelsCleared(market: string)
    | LevelSet(market: string, which: string, price: real)
    | QuoteFailed
    | NoAvgPrice
    | Help
    | View
    | Status
    | Silent                                    // no answer at all
    | Fault                                     // the handler raised; earlier changes stay

  /** A new document and the answer to the chat. */
  datatype Step = Step(state: State, reply: Reply)

  /** The threshold used when the environment does not set one. */
  const FallbackThreshold: real := 1.0

  /** The labels the target/stop command works with. */
  const TargetSlot := "목표가"
  const StopSlot := "손절가"
  const Reset := "초기화"

  /** The codes stored for the three ways of entering a target/stop price. */
  const DirectMode := "direct"
  const CurPctMode := "cur_pct"
  const AvgPctMode := "avg_pct"

  predicate Unique(xs: seq<string>) {
    forall i, j :: 0 <= i < j < |xs| ==> xs[i] != xs[j]
  }

  /**
    The document invariant: `order` lists each coin exactly once, and every
    market name holds a `-` (the alert loop splits names on it).
   */
  ghost predicate WellFormed(s: State) {
    && Unique(s.order)
    && (forall m :: m in s.coins <==> m in s.order)
    && (forall m :: m in s.coins ==> '-' in m)
  }

  // ---------------------------------------------------------------- symbols

  /** `krw_symbol`: upper-case and strip; prefix `KRW-` unless a `-` is already there. */
  function KrwSymbol(sym: string): (m: string)
    ensures '-' in m
    ensures '-' in Strip(Upper(sym)) ==> m == Strip(Upper(sym))
    ensures '-' !in Strip(Upper(sym)) ==> m == "KRW-" + Strip(Upper(sym))
  {
    var s := Strip(Upper(sym));
    if '-' in s then s
    else
      assert ("KRW-" + s)[3] == '-';
      "KRW-" + s
  }

  /** A market name is stripped and has no lower-case letter. */
  lemma KrwSymbolShape(sym: string)
    ensures var m := KrwSymbol(sym);
      Stripped(m) && forall i :: 0 <= i < |m| ==> !IsLower(m[i])
  {
    var s := Strip(Upper(sym));
    StripNoLower(Upper(sym));
    if '-' !in s {
      Prefixed(s);
    }
  }

  /** Prefixing `KRW-` keeps a name stripped and upper-case, and puts a `-` in it. */
  lemma Prefixed(s: string)
    requires Stripped(s) && forall i :: 0 <= i < |s| ==> !IsLower(s[i])
    ensures var m := "KRW-" + s;
      '-' in m && Stripped(m) && forall i :: 0 <= i < |m| ==> !IsLower(m[i])
  {
    var m := "KRW-" + s;
    assert m[3] == '-';
    assert m[|m| - 1] == if s == [] then '-' else s[|s| - 1];
    assert forall i :: 4 <= i < |m| ==> m[i] == s[i - 4];
  }

  /** Normalising a normalised market name changes nothing. */
  lemma KrwSymbolIdempotent(sym: string)
    ensures KrwSymbol(KrwSymbol(sym)) == KrwSymbol(sym)
  {
    var m := KrwSymbol(sym);
    KrwSymbolShape(sym);
    UpperOfUpper(m);
    assert Strip(Upper(m)) == m;
  }

  // ------------------------------------------------------------- thresholds

  /** The number a threshold setting holds, if `float()` can read one. */
  function Parsed(th: Option<Setting>): Option<real> {
    match th
    case None => None
    case Some(Num(v)) => Some(v)
    case Some(Text(t)) => ParseFloat(t)
  }

  /** `norm_threshold`: the coin's own threshold when it reads as a number, else the default. */
  function NormThreshold(th: Option<Setting>, dflt: real): (r: real)
    ensures Parsed(th).Some? ==> r == Parsed(th).value
    ensures Parsed(th).None? ==> r == dflt
    ensures th.None? ==> r == dflt
  {
    match Parsed(th)
    case Some(v) => v
    case None => dflt
  }

  // ---------------------------------------------------------------- records

  /** The record `ensure_coin` inserts for a market it has not seen. */
  const NewCoin := Coin(0.0, 0.0, None, None, None, None)

  /** Coins other than `m` are the same in `s` and `r`, in presence and in value. */
  ghost predicate OthersUnchanged(s: State, r: State, m: string) {
    forall k :: k != m ==> (k in r.coins <==> k in s.coins) && (k in s.coins ==> r.coins[k] == s.coins[k])
  }

  /** `ensure_coin`: the market's record, created with the defaults when absent. */
  function EnsureCoin(s: State, m: string): (r: State)
    ensures m in r.coins
    ensures m in s.coins ==> r == s
    ensures m !in s.coins ==> r.coins[m] == NewCoin && r.order == s.order + [m]
    ensures OthersUnchanged(s, r, m)
    ensures r.defaultThreshold == s.defaultThreshold && r.pending == s.pending
  {
    if m in s.coins then s
    else s.(coins := s.coins[m := NewCoin], order := s.order + [m])
  }

  /** `ensure_coin` keeps the document invariant for a name holding a `-`. */
  lemma EnsureCoinKeepsWellFormed(s: State, m: string)
    requires WellFormed(s) && '-' in m
    ensures WellFormed(EnsureCoin(s, m))
  {
  }

  /** `ensure_coin` twice is `ensure_coin` once. */
  lemma EnsureCoinIdempotent(s: State, m: string)
    ensures EnsureCoin(EnsureCoin(s, m), m) == EnsureCoin(s, m)
  {
  }

  /** Replaces the record of `m` and leaves all else. */
  function Put(s: State, m: string, c: Coin): State {
    s.(coins := s.coins[m := c])
  }

  /** Replacing one record after `ensure_coin` touches only that record. */
  lemma PutIsOnlyCoin(s: State, m: string, c: Coin)
    ensures OnlyCoin(s, Put(EnsureCoin(s, m), m, c), m)
  {
  }

  /** `s` after `r` touched only the record of `m`, which `ensure_coin` may have created. */
  ghost predicate OnlyCoin(s: State, r: State, m: string) {
    && m in r.coins
    && OthersUnchanged(s, r, m)
    && r.order == EnsureCoin(s, m).order
    && r.defaultThreshold == s.defaultThreshold
    && r.pending == s.pending
  }

  /** `order` with every copy of `m` removed. */
  function Without(xs: seq<string>, m: string): (r: seq<string>)
    ensures forall k :: k in r <==> k in xs && k != m
    ensures Unique(xs) ==> Unique(r)
  {
    if xs == [] then []
    else
      var rest := Without(xs[1..], m);
      if xs[0] == m then rest
      else
        assert Unique(xs) ==> xs[0] !in xs[1..];
        [xs[0]] + rest
  }

  /** Removing a name that is not listed changes nothing. */
  lemma {:induction false} WithoutAbsent(xs: seq<string>, m: string)
    requires m !in xs
    ensures Without(xs, m) == xs
  {
    if xs != [] {
      WithoutAbsent(xs[1..], m);
    }
  }

  /**
    Removing the name at position `i` of a list without repeats leaves the
    names before it and the names after it, in their order.
   */
  lemma {:induction false} WithoutAt(xs: seq<string>, i: nat)
    requires Unique(xs) && i < |xs|
    ensures Without(xs, xs[i]) == xs[..i] + xs[i + 1..]
  {
    if i == 0 {
      assert xs[0] !in xs[1..];
      WithoutAbsent(xs[1..], xs[0]);
    } else {
      assert xs[0] != xs[i];
      WithoutAt(xs[1..], i - 1);
      assert xs[1..][i - 1] == xs[i];
      assert xs[..i] == [xs[0]] + xs[1..][..i - 1];
      assert xs[i + 1..] == xs[1..][i..];
    }
  }

  // ------------------------------------------------------------ commands

  /** `act_add`: makes sure the normalised market is watched. */
  function ActAdd(s: State, symbol: string): (r: Step)
    ensures KrwSymbol(symbol) in r.state.coins
    ensures r.state == EnsureCoin(s, KrwSymbol(symbol))
    ensures r.reply == Added(KrwSymbol(symbol))
  {
    var m := KrwSymbol(symbol);
    Step(EnsureCoin(s, m), Added(m))
  }

  /** `act_del`: stops watching the normalised market, if it was watched. */
  function ActDel(s: State, symbol: string): (r: Step)
    ensures KrwSymbol(symbol) !in r.state.coins
    ensures OthersUnchanged(s, r.state, KrwSymbol(symbol))
    ensures r.state.defaultThreshold == s.defaultThreshold && r.state.pending == s.pending
    ensures KrwSymbol(symbol) !in s.coins ==> r == Step(s, NoSuchCoin)
    ensures KrwSymbol(symbol) in s.coins ==>
      r.reply == Deleted(KrwSymbol(symbol)) && r.state.order == Without(s.order, KrwSymbol(symbol))
  {
    var m := KrwSymbol(symbol);
    if m in s.coins then
      Step(s.(coins := s.coins - {m}, order := Without(s.order, m)), Deleted(m))
    else
      Step(s, NoSuchCoin)
  }

  /** `act_del` keeps the document invariant. */
  lemma DelKeepsWellFormed(s: State, symbol: string)
    requires WellFormed(s)
    ensures WellFormed(ActDel(s, symbol).state)
  {
  }

  /**
    `act_del` takes the market out of the insertion order at its position
    and keeps every other market in its place relative to the rest.
   */
  lemma DelKeepsOrder(s: State, symbol: string, i: nat)
    requires WellFormed(s) && i < |s.order| && s.order[i] == KrwSymbol(symbol)
    ensures ActDel(s, symbol).state.order == s.order[..i] + s.order[i + 1..]
  {
    WithoutAt(s.order, i);
  }

  /** `act_setavg`: the market's cost basis becomes `v`. */
  function ActSetAvg(s: State, symbol: string, v: real): (r: Step)
    ensures var m := KrwSymbol(symbol);
      && OnlyCoin(s, r.state, m)
      && r.state.coins[m] == (if m in s.coins then s.coins[m] else NewCoin).(avgPrice := v)
      && r.reply == AvgSet(m, v)
  {
    var m := KrwSymbol(symbol);
    var s1 := EnsureCoin(s, m);
    var c := s1.coins[m].(avgPrice := v);
    PutIsOnlyCoin(s, m, c);
    Step(Put(s1, m, c), AvgSet(m, v))
  }

  /** `act_setqty`: the market's held quantity becomes `v`. */
  function ActSetQty(s: State, symbol: string, v: real): (r: Step)
    ensures var m := KrwSymbol(symbol);
      && OnlyCoin(s, r.state, m)
      && r.state.coins[m] == (if m in s.coins then s.coins[m] else NewCoin).(qty := v)
      && r.reply == QtySet(m, v)
  {
    var m := KrwSymbol(symbol);
    var s1 := EnsureCoin(s, m);
    var c := s1.coins[m].(qty := v);
    PutIsOnlyCoin(s, m, c);
    Step(Put(s1, m, c), QtySet(m, v))
  }

  /** `act_setrate_symbol`: the market's own move threshold becomes `v`. */
  function ActSetRateSymbol(s: State, symbol: string, v: real): (r: Step)
    ensures var m := KrwSymbol(symbol);
      && OnlyCoin(s, r.state, m)
      && r.state.coins[m] == (if m in s.coins then s.coins[m] else NewCoin).(thresholdPct := Some(Num(v)))
      && r.reply == CoinRateSet(m, v)
  {
    var m := KrwSymbol(symbol);
    var s1 := EnsureCoin(s, m);
    var c := s1.coins[m].(thresholdPct := Some(Num(v)));
    PutIsOnlyCoin(s, m, c);
    Step(Put(s1, m, c), CoinRateSet(m, v))
  }

  /** A threshold set for one market is the one the alert engine then uses for it, whatever the default. */
  lemma SetRateIsEffective(s: State, symbol: string, v: real, dflt: real)
    ensures var r := ActSetRateSymbol(s, symbol, v).state;
      NormThreshold(r.coins[KrwSymbol(symbol)].thresholdPct, dflt) == v
  {
  }

  /** `act_setrate_default`: the global move threshold becomes `v`. */
  function ActSetRateDefault(s: State, v: real): (r: Step)
    ensures r.state.defaultThreshold == v
    ensures r.state.coins == s.coins && r.state.order == s.order && r.state.pending == s.pending
    ensures r.reply == DefaultRateSet(v)
  {
    Step(s.(defaultThreshold := v), DefaultRateSet(v))
  }

  // ----------------------------------------------------------- pending slot

  /** `get_pending`. */
  function GetPending(s: State, cid: string): (p: Option<Pending>)
    ensures p.Some? <==> cid in s.pending
    ensures p.Some? ==> p.value == s.pending[cid]
  {
    if cid in s.pending then Some(s.pending[cid]) else None
  }

  /** `set_pending`: the chat's record becomes `(action, step, data)`. */
  function SetPending(s: State, cid: string, action: string, step: string, data: map<string, string>): (r: State)
    ensures GetPending(r, cid) == Some(Pending(action, step, data))
    ensures forall c :: c != cid ==> GetPending(r, c) == GetPending(s, c)
    ensures r.coins == s.coins && r.order == s.order && r.defaultThreshold == s.defaultThreshold
  {
    s.(pending := s.pending[cid := Pending(action, step, data)])
  }

  /** `clear_pending`: the chat has no record any more. */
  function ClearPending(s: State, cid: string): (r: State)
    ensures GetPending(r, cid) == None
    ensures forall c :: c != cid ==> GetPending(r, c) == GetPending(s, c)
    ensures r.coins == s.coins && r.order == s.order && r.defaultThreshold == s.defaultThreshold
  {
    s.(pending := s.pending - {cid})
  }

  /** Dropping a chat's record forgets what was last written into it. */
  lemma ClearAfterSet(s: State, cid: string, action: string, step: string, data: map<string, string>)
    ensures ClearPending(SetPending(s, cid, action, step, data), cid) == ClearPending(s, cid)
  {
    assert s.pending[cid := Pending(action, step, data)] - {cid} == s.pending - {cid};
  }

  // ------------------------------------------------------ target / stop

  /** The price `pct` percent above (target) or below (stop) `base`. */
  function Offset(base: real, pct: real, which: string): (p: real)
    ensures base != 0.0 ==> (p / base - 1.0) * 100.0 == (if which == TargetSlot then pct else -pct)
    ensures 0.0 <= pct && 0.0 < base ==> (which == TargetSlot ==> p >= base) && (which != TargetSlot ==> p <= base)
  {
    var factor := if which == TargetSlot then 1.0 + pct / 100.0 else 1.0 - pct / 100.0;
    assert base != 0.0 ==> base * factor / base == factor;
    base * factor
  }

  /** What a request does to the level slots: `초기화` clears both, `목표가` sets the target, anything else the stop. */
  datatype Slot = ClearBoth | TargetOnly | StopOnly

  function SlotOf(which: string): Slot {
    if which == Reset then ClearBoth else if which == TargetSlot then TargetOnly else StopOnly
  }

  /** The three known ways of computing a level price. */
  datatype Mode = Direct | FromCurrent | FromAverage

  /** The mode a stored mode code names, if any. */
  function ModeOf(code: string): Option<Mode> {
    if code == DirectMode then Some(Direct)
    else if code == CurPctMode then Some(FromCurrent)
    else if code == AvgPctMode then Some(FromAverage)
    else None
  }

  /** The two level slots of a record, and the answer, after a target/stop request. */
  datatype Levels = Levels(target: Option<real>, stop: Option<real>, reply: Reply)

  /**
    The slots of the record `c` of market `m` after the request: both emptied
    for `초기화`; otherwise a price computed from `value` in the given mode (as
    is, from the current price, or from the cost basis) goes into the chosen
    slot. Without a current price, without a positive cost basis, or with an
    unknown mode, no slot changes.
   */
  function NewLevels(m: string, c: Coin, which: string, mode: string, value: real, quote: Quote): (l: Levels)
    ensures which == Reset ==> l == Levels(None, None, LevelsCleared(m))
    ensures which != Reset && l.reply.LevelSet? ==> l.reply.market == m && l.reply.which == which
    ensures which == TargetSlot && l.reply.LevelSet? ==> l.target == Some(l.reply.price) && l.stop == c.stopPrice
    ensures which !in {Reset, TargetSlot} && l.reply.LevelSet? ==> l.stop == Some(l.reply.price) && l.target == c.targetPrice
    ensures which != Reset && !l.reply.LevelSet? ==> l.target == c.targetPrice && l.stop == c.stopPrice
    ensures l.reply.LevelsCleared? || l.reply.LevelSet? || l.reply in {QuoteFailed, NoAvgPrice, Fault}
  {
    match SlotOf(which)
    case ClearBoth => Levels(None, None, LevelsCleared(m))
    case _ =>
      var price: Option<real> :=
        match ModeOf(mode)
        case Some(Direct) => Some(value)
        case Some(FromCurrent) =>
          (match quote(m)
           case None => None
           case Some(p) => Some(Offset(p, value, which)))
        case Some(FromAverage) =>
          if c.avgPrice <= 0.0 then None else Some(Offset(c.avgPrice, value, which))
        case None => None;
      match price
      case None =>
        Levels(c.targetPrice, c.stopPrice,
               match ModeOf(mode)
               case Some(FromCurrent) => QuoteFailed
               case Some(FromAverage) => NoAvgPrice
               case _ => Fault)
      case Some(p) =>
        if SlotOf(which) == TargetOnly then Levels(Some(p), c.stopPrice, LevelSet(m, which, p))
        else Levels(c.targetPrice, Some(p), LevelSet(m, which, p))
  }

  /**
    `set_target_stop`: `ensure_coin` runs first; then only the two level
    slots of the market's record can change.
   */
  function SetTargetStop(s: State, symbol: string, which: string, mode: string, value: real, quote: Quote): (r: Step)
    ensures var m := KrwSymbol(symbol);
      var s1 := EnsureCoin(s, m);
      && m in r.state.coins
      && r.state == Put(s1, m, s1.coins[m].(targetPrice := r.state.coins[m].targetPrice,
                                            stopPrice := r.state.coins[m].stopPrice))
    ensures r.reply.LevelsCleared? || r.reply.LevelSet? || r.reply in {QuoteFailed, NoAvgPrice, Fault}
  {
    var m := KrwSymbol(symbol);
    var s1 := EnsureCoin(s, m);
    var c := s1.coins[m];
    var l := NewLevels(m, c, which, mode, value, quote);
    Step(Put(s1, m, c.(targetPrice := l.target, stopPrice := l.stop)), l.reply)
  }

  /** `set_target_stop` reads no pending record and leaves them all as they were. */
  lemma SetTargetStopIgnoresPending(s: State, pending: map<string, Pending>, symbol: string, which: string, mode: string, value: real, quote: Quote)
    ensures var r := SetTargetStop(s, symbol, which, mode, value, quote);
      var r' := SetTargetStop(s.(pending := pending), symbol, which, mode, value, quote);
      r'.reply == r.reply && r'.state == r.state.(pending := pending)
  {
    var m := KrwSymbol(symbol);
    assert EnsureCoin(s.(pending := pending), m) == EnsureCoin(s, m).(pending := pending);
  }

  /** `초기화` empties both the target and the stop slot. */
  lemma ResetClearsBoth(s: State, symbol: string, mode: string, value: real, quote: Quote)
    ensures var m := KrwSymbol(symbol);
      var r := SetTargetStop(s, symbol, Reset, mode, value, quote);
      r.state.coins[m].targetPrice == None && r.state.coins[m].stopPrice == None
      && r.reply == LevelsCleared(m)
  {
  }

  /**
    Outside `초기화`, at most the chosen slot changes: the target for `목표가`,
    the stop otherwise; a refused request changes no slot.
   */
  lemma OnlyChosenSlot(s: State, symbol: string, which: string, mode: string, value: real, quote: Quote)
    requires which != Reset
    ensures var m := KrwSymbol(symbol);
      var c := EnsureCoin(s, m).coins[m];
      var r := SetTargetStop(s, symbol, which, mode, value, quote);
      var c' := r.state.coins[m];
      && (r.reply.LevelSet? ==> r.reply.market == m && r.reply.which == which)
      && (r.reply.LevelSet? && which == TargetSlot ==> c' == c.(targetPrice := Some(r.reply.price)))
      && (r.reply.LevelSet? && which != TargetSlot ==> c' == c.(stopPrice := Some(r.reply.price)))
      && (!r.reply.LevelSet? ==> c' == c)
  {
    var m := KrwSymbol(symbol);
    var c := EnsureCoin(s, m).coins[m];
    var l := NewLevels(m, c, which, mode, value, quote);
    var r := SetTargetStop(s, symbol, which, mode, value, quote);
    assert r.reply == l.reply && r.state.coins[m] == c.(targetPrice := l.target, stopPrice := l.stop);
  }

  /** The answer to a request in each of the known modes, and to an unknown one. */
  lemma LevelsByMode(m: string, c: Coin, which: string, mode: string, value: real, quote: Quote)
    requires which != Reset
    ensures var l := NewLevels(m, c, which, mode, value, quote);
      && (ModeOf(mode) == Some(Direct) ==> l.reply == LevelSet(m, which, value))
      && (ModeOf(mode) == Some(FromAverage) && c.avgPrice <= 0.0 ==> l.reply == NoAvgPrice)
      && (ModeOf(mode) == Some(FromAverage) && c.avgPrice > 0.0 ==> l.reply == LevelSet(m, which, Offset(c.avgPrice, value, which)))
      && (ModeOf(mode) == Some(FromCurrent) && quote(m).None? ==> l.reply == QuoteFailed)
      && (ModeOf(mode) == Some(FromCurrent) && quote(m).Some? ==> l.reply == LevelSet(m, which, Offset(quote(m).value, value, which)))
      && (ModeOf(mode) == None ==> l.reply == Fault)
  {
    assert SlotOf(which) != ClearBoth;
  }

  /**
    The price stored in each mode: the value itself (direct), the current
    price moved by `value` percent (cur_pct, unless the price cannot be read),
    or the cost basis moved by `value` percent (avg_pct, refused while the
    cost basis is not positive); any other mode raises.
   */
  lemma LevelByMode(s: State, symbol: string, which: string, mode: string, value: real, quote: Quote)
    requires which != Reset
    ensures var m := KrwSymbol(symbol);
      var c := EnsureCoin(s, m).coins[m];
      var r := SetTargetStop(s, symbol, which, mode, value, quote);
      && (mode == DirectMode ==> r.reply == LevelSet(m, which, value))
      && (mode == AvgPctMode && c.avgPrice <= 0.0 ==> r.reply == NoAvgPrice)
      && (mode == AvgPctMode && c.avgPrice > 0.0 ==> r.reply == LevelSet(m, which, Offset(c.avgPrice, value, which)))
      && (mode == CurPctMode && quote(m).None? ==> r.reply == QuoteFailed)
      && (mode == CurPctMode && quote(m).Some? ==> r.reply == LevelSet(m, which, Offset(quote(m).value, value, which)))
      && (mode !in {DirectMode, AvgPctMode, CurPctMode} ==> r.reply == Fault)
  {
    var m := KrwSymbol(symbol);
    var c := EnsureCoin(s, m).coins[m];
    assert SetTargetStop(s, symbol, which, mode, value, quote).reply == NewLevels(m, c, which, mode, value, quote).reply;
    LevelsByMode(m, c, which, mode, value, quote);
  }

  /** A refused request (no price, no cost basis, unknown mode) leaves the document as `ensure_coin` made it. */
  lemma RefusalChangesNothing(s: State, symbol: string, which: string, mode: string, value: real, quote: Quote)
    requires which != Reset
    ensures var r := SetTargetStop(s, symbol, which, mode, value, quote);
      !r.reply.LevelSet? ==> r.state == EnsureCoin(s, KrwSymbol(symbol))
  {
    var m := KrwSymbol(symbol);
    var s1 := EnsureCoin(s, m);
    var c := s1.coins[m];
    var l := NewLevels(m, c, which, mode, value, quote);
    var r := SetTargetStop(s, symbol, which, mode, value, quote);
    assert r == Step(Put(s1, m, c.(targetPrice := l.target, stopPrice := l.stop)), l.reply);
    if !l.reply.LevelSet? {
        assert c.(targetPrice := l.target, stopPrice := l.stop) == c;
      assert s1.coins[m := c] == s1.coins;
      assert Put(s1, m, c) == s1;
    }
  }

  /** The operation raises exactly when, outside `초기화`, the mode is none of the three known ones. */
  lemma FaultIffUnknownMode(s: State, symbol: string, which: string, mode: string, value: real, quote: Quote)
    ensures SetTargetStop(s, symbol, which, mode, value, quote).reply == Fault
      <==> which != Reset && mode !in {DirectMode, CurPctMode, AvgPctMode}
  {
    var m := KrwSymbol(symbol);
    var c := EnsureCoin(s, m).coins[m];
    if which != Reset && mode in {DirectMode, CurPctMode, AvgPctMode} {
      LevelByMode(s, symbol, which, mode, value, quote);
    }
  }

  // ------------------------------------------------------------- loading

  /** The coin table as read from the file: names in file order, and records. */
  datatype CoinTable = CoinTable(order: seq<string>, records: map<string, Coin>)

  /** The parsed file, with the three top-level fields each possibly missing. */
  datatype Stored = Stored(
    coins: Option<CoinTable>,
    defaultThreshold: Option<real>,
    pending: Option<map<string, Pending>>)

  /** `THRESHOLD_PCT` from the environment: 1.0 when unset; `None` when it does not read as a number (start-up fails). */
  function EnvThreshold(env: Option<string>): (r: Option<real>)
    ensures env.None? ==> r == Some(FallbackThreshold)
    ensures env.Some? ==> r == ParseFloat(env.value)
  {
    match env
    case None => Some(FallbackThreshold)
    case Some(t) => ParseFloat(t)
  }

  /** The fallback is what `float()` makes of the default string `"1.0"` that `os.getenv` supplies. */
  lemma EnvThresholdReadsDefault(env: Option<string>)
    ensures EnvThreshold(env) == ParseFloat(env.GetOr("1.0"))
  {
    if env.None? {
      assert "1.0" == "1" + "." + "0";
      assert Decimal("1", "0") == 1.0 by {
        assert DigitsValue("1") == 1 && DigitsValue("0") == 0 && Pow10(1) == 10;
      }
      UnsignedDecimal("1.0", "1", "0");
      SignedParse("1.0", "1.0", 1.0);
    }
  }

  /** `load_state`: no file gives the empty document; each missing field is back-filled. */
  function LoadState(file: Option<Stored>, envDefault: real): (r: State)
    ensures file.None? ==> r == State(map[], [], envDefault, map[])
    ensures file.Some? && file.value.coins.Some? ==>
      r.coins == file.value.coins.value.records && r.order == file.value.coins.value.order
    ensures file.Some? && file.value.coins.None? ==> r.coins == map[] && r.order == []
    ensures file.Some? ==> r.defaultThreshold == file.value.defaultThreshold.GetOr(envDefault)
    ensures file.Some? ==> r.pending == file.value.pending.GetOr(map[])
  {
    match file
    case None => State(map[], [], envDefault, map[])
    case Some(d) =>
      var t := d.coins.GetOr(CoinTable([], map[]));
      State(t.records, t.order, d.defaultThreshold.GetOr(envDefault), d.pending.GetOr(map[]))
  }
}
