/**
  The message handler `on_text`: a chat with a pending record has its
  message routed to the step that record names; the cancel word is checked
  first; choice steps accept a fixed vocabulary, number steps a numeral;
  terminal steps run the command and drop the record. A chat without a
  pending record, or whose record matches no step, gets the top-level
  command dispatch on the first word of the message.
 */
module Conversation {
  import opened Wrappers
  import opened PyText
  import opened Watch

  /** The word that abandons any multi-step command. */
  const CancelWord := "취소"

  /** The choices of the coin command. */
  const AddWord := "추가"
  const DelWord := "삭제"

  /** The three ways of entering a target/stop price, as offered to the user. */
  const DirectWord := "직접입력"
  const CurPctWord := "현재가±%"
  const AvgPctWord := "평단가±%"

  /**
    The mode code stored for a chosen entry way: always one `set_target_stop`
    knows, and a different one for each choice.
   */
  function ModeCode(choice: string): (code: string)
    requires choice in {DirectWord, CurPctWord, AvgPctWord}
    ensures ModeOf(code).Some?
  {
    if choice == DirectWord then DirectMode else if choice == CurPctWord then CurPctMode else AvgPctMode
  }

  /** Two different entry ways are stored as codes of two different modes. */
  lemma ModeCodeDistinct(a: string, b: string)
    requires a in {DirectWord, CurPctWord, AvgPctWord} && b in {DirectWord, CurPctWord, AvgPctWord}
    requires a != b
    ensures ModeOf(ModeCode(a)) != ModeOf(ModeCode(b))
  {
  }

  /** `act_price`: reads the market's price; the document does not change. */
  function ActPrice(symbol: string, quote: Quote): (r: Reply)
    ensures quote(KrwSymbol(symbol)).Some? ==> r == PriceIs(KrwSymbol(symbol), quote(KrwSymbol(symbol)).value)
    ensures quote(KrwSymbol(symbol)).None? ==> r == PriceFailed
  {
    var m := KrwSymbol(symbol);
    match quote(m)
    case Some(p) => PriceIs(m, p)
    case None => PriceFailed
  }

  /** Answers that finish a command: the chat has no pending record after them. */
  predicate Finishes(reply: Reply) {
    || reply.Added? || reply.Deleted? || reply.NoSuchCoin?
    || reply.PriceIs? || reply.PriceFailed?
    || reply.AvgSet? || reply.QtySet? || reply.CoinRateSet?
    || reply.LevelsCleared? || reply.LevelSet? || reply.QuoteFailed? || reply.NoAvgPrice?
  }

  /**
    The answer to chat `cid` agrees with what the bot then waits for: a
    prompt for a step is answered by a pending record at that step; a
    refusal changes nothing and repeats the step the chat is at; cancelling
    drops the record and nothing else; an answer that finishes a command
    leaves the chat with no pending record.
   */
  ghost predicate Coherent(s: State, cid: string, r: Step) {
    && (r.reply.Prompt? ==>
          cid in r.state.pending
          && r.state.pending[cid].action == r.reply.action && r.state.pending[cid].step == r.reply.step)
    && (r.reply.Rejected? ==>
          r.state == s && cid in s.pending
          && s.pending[cid].action == r.reply.action && s.pending[cid].step == r.reply.step)
    && (r.reply == Cancelled ==> r.state == ClearPending(s, cid))
    && (Finishes(r.reply) ==> cid !in r.state.pending)
  }

  /** The handler on the message `message` from chat `cid`. */
  function OnText(s: State, cid: string, message: string, quote: Quote): (r: Step)
    ensures Coherent(s, cid, r)
  {
    var text := Strip(message);
    match GetPending(s, cid)
    case Some(p) => Continue(s, cid, p, text, quote)
    case None => Command(s, cid, text)
  }

  /** The message `text` for a chat whose pending record is `p`. */
  function Continue(s: State, cid: string, p: Pending, text: string, quote: Quote): (r: Step)
    requires GetPending(s, cid) == Some(p)
    ensures Coherent(s, cid, r)
  {
    if text == CancelWord then
      Step(ClearPending(s, cid), Cancelled)
    else if (p.action == "coin" && p.step == "mode") || (p.action in {"coin_add", "coin_del"} && p.step == "symbol") then
      CoinStep(s, cid, p, text)
    else if p.action == "target" && p.step in {"symbol", "type", "mode", "value"} then
      TargetStep(s, cid, p, text, quote)
    else if p.step == "symbol" then
      SymbolStep(s, cid, p, text, quote)
    else if p.step == "value" then
      ValueStep(s, cid, p, text)
    else
      CommandCoherent(s, cid, text);
      Command(s, cid, text)
  }

  /** A command typed while another one waits for its answer leaves the chat's record coherent too. */
  lemma CommandCoherent(s: State, cid: string, text: string)
    ensures Coherent(s, cid, Command(s, cid, text))
  {
    var r := Command(s, cid, text);
    assert !Finishes(r.reply) && !r.reply.Rejected? && r.reply != Cancelled;
  }

  /** The two steps of the coin command: the choice between adding and deleting, then the symbol. */
  function CoinStep(s: State, cid: string, p: Pending, text: string): (r: Step)
    requires GetPending(s, cid) == Some(p)
    requires (p.action == "coin" && p.step == "mode") || (p.action in {"coin_add", "coin_del"} && p.step == "symbol")
    ensures Coherent(s, cid, r)
  {
    if p.action == "coin" then
      if text !in {AddWord, DelWord} then Step(s, Rejected("coin", "mode"))
      else Step(SetPending(s, cid, if text == AddWord then "coin_add" else "coin_del", "symbol", map[]),
                Prompt(if text == AddWord then "coin_add" else "coin_del", "symbol"))
    else
      var done := if p.action == "coin_add" then ActAdd(s, Upper(text)) else ActDel(s, Upper(text));
      Step(ClearPending(done.state, cid), done.reply)
  }

  /** The four steps of the target/stop command. */
  function TargetStep(s: State, cid: string, p: Pending, text: string, quote: Quote): (r: Step)
    requires GetPending(s, cid) == Some(p)
    requires p.action == "target" && p.step in {"symbol", "type", "mode", "value"}
    ensures Coherent(s, cid, r)
  {
    if p.step == "symbol" then
      Step(SetPending(s, cid, "target", "type", p.data["symbol" := Upper(text)]), Prompt("target", "type"))
    else if p.step == "type" then
      TypeStep(s, cid, p, text, quote)
    else if p.step == "mode" then
      if text !in {DirectWord, CurPctWord, AvgPctWord} then Step(s, Rejected("target", "mode"))
      else Step(SetPending(s, cid, "target", "value", p.data["mode" := ModeCode(text)]), Prompt("target", "value"))
    else
      PriceStep(s, cid, p, text, quote)
  }

  /** The slot step of the target/stop command: `초기화` finishes it at once. */
  function TypeStep(s: State, cid: string, p: Pending, text: string, quote: Quote): (r: Step)
    requires GetPending(s, cid) == Some(p)
    requires p.action == "target" && p.step == "type"
    ensures Coherent(s, cid, r)
  {
    if text !in {TargetSlot, StopSlot, Reset} then Step(s, Rejected("target", "type"))
    else
      // the choice is written into the stored record before anything else happens
      var data := p.data["which" := text];
      var s1 := SetPending(s, cid, p.action, p.step, data);
      if text == Reset then
        if "symbol" !in data then Step(s1, Fault)
        else
          var done := SetTargetStop(s1, data["symbol"], Reset, DirectMode, 0.0, quote);
          Step(ClearPending(done.state, cid), done.reply)
      else
        Step(SetPending(s1, cid, "target", "mode", data), Prompt("target", "mode"))
  }

  /** The last step of the target/stop command: the number, after dropping `%` and `,`. */
  function PriceStep(s: State, cid: string, p: Pending, text: string, quote: Quote): (r: Step)
    requires GetPending(s, cid) == Some(p)
    requires p.action == "target" && p.step == "value"
    ensures Coherent(s, cid, r)
    ensures r.reply == Fault ==> r.state.pending == s.pending
  {
    match ParseFloat(Remove(Remove(text, '%'), ','))
    case None => Step(s, Rejected("target", "value"))
    case Some(v) =>
      if "symbol" !in p.data || "which" !in p.data || "mode" !in p.data then Step(s, Fault)
      else
        var done := SetTargetStop(s, p.data["symbol"], p.data["which"], p.data["mode"], v, quote);
        if done.reply == Fault then done
        else Step(ClearPending(done.state, cid), done.reply)
  }

  /** The symbol step of the price, cost-basis, quantity and per-coin threshold commands. */
  function SymbolStep(s: State, cid: string, p: Pending, text: string, quote: Quote): (r: Step)
    requires GetPending(s, cid) == Some(p)
    ensures Coherent(s, cid, r)
  {
    var symbol := Upper(text);
    // the symbol is written into the stored record before the action is looked at
    var data := p.data["symbol" := symbol];
    var s1 := SetPending(s, cid, p.action, p.step, data);
    if p.action == "price" then
      Step(ClearPending(s1, cid), ActPrice(symbol, quote))
    else if p.action in {"setavg", "setqty", "setrate_coin"} then
      Step(SetPending(s1, cid, p.action, "value", data), Prompt(p.action, "value"))
    else
      Command(s1, cid, text)
  }

  /** The number step of the cost-basis, quantity and per-coin threshold commands. */
  function ValueStep(s: State, cid: string, p: Pending, text: string): (r: Step)
    requires GetPending(s, cid) == Some(p) && p.step == "value"
    ensures Coherent(s, cid, r)
  {
    match ParseFloat(Remove(text, ','))
    case None => Step(s, Rejected(p.action, "value"))
    case Some(v) =>
      var done := ApplyValue(s, p.action, if "symbol" in p.data then p.data["symbol"] else "", v);
      Step(ClearPending(done.state, cid), done.reply)
  }

  /** The action a number step finishes: nothing for an action without one. */
  function ApplyValue(s: State, action: string, symbol: string, v: real): (r: Step)
    ensures action == "setavg" ==> r == ActSetAvg(s, symbol, v)
    ensures action == "setqty" ==> r == ActSetQty(s, symbol, v)
    ensures action == "setrate_coin" ==> r == ActSetRateSymbol(s, symbol, v)
    ensures action !in {"setavg", "setqty", "setrate_coin"} ==> r == Step(s, Silent)
  {
    if action == "setavg" then ActSetAvg(s, symbol, v)
    else if action == "setqty" then ActSetQty(s, symbol, v)
    else if action == "setrate_coin" then ActSetRateSymbol(s, symbol, v)
    else Step(s, Silent)
  }

  /** The command word that sets the default threshold when a number follows it. */
  const ThresholdWord := "임계값"

  /** What a top-level message asks for. */
  datatype Request =
    | ShowHelp
    | ShowView
    | ShowStatus
    | Open(action: string, step: string)    // starts a multi-step command
    | SetDefault(pct: real)                 // `임계값 <number>`
    | NoWord                                // an empty message: the handler raises

  /** The top-level command table, looked up with the first word of `text` without leading `/`. */
  function ParseCommand(text: string): (c: Request)
    ensures c == NoWord <==> Split(text) == []
    ensures c.Open? ==> c.action in {"coin", "price", "setavg", "setqty", "setrate_coin", "target"}
    ensures c.Open? ==> (c.step == "mode" <==> c.action == "coin")
    ensures c.SetDefault? ==>
      && |Split(text)| == 2 && LStripChar(Split(text)[0], '/') == ThresholdWord
      && ParseFloat(Remove(Split(text)[1], ',')) == Some(c.pct)
    ensures |Split(text)| == 2 && LStripChar(Split(text)[0], '/') == ThresholdWord
            && ParseFloat(Remove(Split(text)[1], ',')).Some? ==>
      c == SetDefault(ParseFloat(Remove(Split(text)[1], ',')).value)
  {
    var words := Split(text);
    if words == [] then NoWord
    else
      var head := LStripChar(words[0], '/');
      if head in {"도움말", "help"} then ShowHelp
      else if head in {"보기", "show"} then ShowView
      else if head in {"상태", "status"} then ShowStatus
      else if head == "코인" then Open("coin", "mode")
      else if head == "가격" then Open("price", "symbol")
      else if head == "평단" then Open("setavg", "symbol")
      else if head == "수량" then Open("setqty", "symbol")
      else if head == ThresholdWord then
        var v := if |words| == 2 then ParseFloat(Remove(words[1], ',')) else None;
        if v.Some? then SetDefault(v.value) else Open("setrate_coin", "symbol")
      else if head == "지정가" then Open("target", "symbol")
      else ShowHelp
  }

  /**
    The command word of a message: white space, any number of `/`, then a
    word, then white space or the end.
   */
  lemma CommandHead(text: string, lead: string, slashes: string, w: string, tail: string)
    requires text == lead + slashes + w + tail
    requires forall i :: 0 <= i < |lead| ==> IsSpace(lead[i])
    requires forall i :: 0 <= i < |slashes| ==> slashes[i] == '/'
    requires w != [] && w[0] != '/' && forall i :: 0 <= i < |w| ==> !IsSpace(w[i])
    requires tail == [] || IsSpace(tail[0])
    ensures Split(text) != [] && LStripChar(Split(text)[0], '/') == w
  {
    var word := slashes + w;
    SlashedWord(slashes, w);
    assert text == lead + word + tail;
    SplitFirstWord(text, lead, word, tail);
    LStripCharPrefix(slashes, w, '/');
  }

  /**
    The top-level command table of app.py:334-361, on the message as the
    user types it: the first word, with any leading `/` dropped, picks the
    request and the first step of the command it opens; any other word gets
    the help text.
   */
  lemma CommandWords(text: string, lead: string, slashes: string, w: string, tail: string)
    requires text == lead + slashes + w + tail
    requires forall i :: 0 <= i < |lead| ==> IsSpace(lead[i])
    requires forall i :: 0 <= i < |slashes| ==> slashes[i] == '/'
    requires w != [] && w[0] != '/' && forall i :: 0 <= i < |w| ==> !IsSpace(w[i])
    requires tail == [] || IsSpace(tail[0])
    ensures var c := ParseCommand(text);
      && (w == "도움말" || w == "help" ==> c == ShowHelp)
      && (w == "보기" || w == "show" ==> c == ShowView)
      && (w == "상태" || w == "status" ==> c == ShowStatus)
      && (w == "코인" ==> c == Open("coin", "mode"))
      && (w == "가격" ==> c == Open("price", "symbol"))
      && (w == "평단" ==> c == Open("setavg", "symbol"))
      && (w == "수량" ==> c == Open("setqty", "symbol"))
      && (w == ThresholdWord ==> c == Open("setrate_coin", "symbol") || c.SetDefault?)
      && (w == "지정가" ==> c == Open("target", "symbol"))
      && (w !in {"도움말", "help", "보기", "show", "상태", "status", "코인", "가격", "평단", "수량", ThresholdWord, "지정가"}
          ==> c == ShowHelp)
  {
    CommandHead(text, lead, slashes, w, tail);
    CommandTable(text, w);
  }

  /** The command table, looked up with the first word `w` of the message without its leading `/`. */
  lemma CommandTable(text: string, w: string)
    requires Split(text) != [] && LStripChar(Split(text)[0], '/') == w
    ensures var c := ParseCommand(text);
      && (w == "도움말" || w == "help" ==> c == ShowHelp)
      && (w == "보기" || w == "show" ==> c == ShowView)
      && (w == "상태" || w == "status" ==> c == ShowStatus)
      && (w == "코인" ==> c == Open("coin", "mode"))
      && (w == "가격" ==> c == Open("price", "symbol"))
      && (w == "평단" ==> c == Open("setavg", "symbol"))
      && (w == "수량" ==> c == Open("setqty", "symbol"))
      && (w == ThresholdWord ==> c == Open("setrate_coin", "symbol") || c.SetDefault?)
      && (w == "지정가" ==> c == Open("target", "symbol"))
      && (w !in {"도움말", "help", "보기", "show", "상태", "status", "코인", "가격", "평단", "수량", ThresholdWord, "지정가"}
          ==> c == ShowHelp)
  {
  }

  /** A run of `/` followed by a word is still a word. */
  lemma SlashedWord(slashes: string, w: string)
    requires forall i :: 0 <= i < |slashes| ==> slashes[i] == '/'
    requires w != [] && forall i :: 0 <= i < |w| ==> !IsSpace(w[i])
    ensures forall i :: 0 <= i < |slashes + w| ==> !IsSpace((slashes + w)[i])
  {
    forall i | 0 <= i < |slashes + w| ensures !IsSpace((slashes + w)[i]) {
      if i < |slashes| {
        assert (slashes + w)[i] == '/';
      } else {
        assert (slashes + w)[i] == w[i - |slashes|];
      }
    }
  }

  /** Top-level dispatch: runs what `ParseCommand` finds. */
  function Command(s: State, cid: string, text: string): (r: Step)
    ensures r.reply.Prompt? ==> r.state == SetPending(s, cid, r.reply.action, r.reply.step, map[])
    ensures r.reply.DefaultRateSet? ==> r.state == s.(defaultThreshold := r.reply.pct)
    ensures !r.reply.Prompt? && !r.reply.DefaultRateSet? ==> r.state == s
    ensures r.reply in {Help, View, Status, Fault} || r.reply.Prompt? || r.reply.DefaultRateSet?
  {
    match ParseCommand(text)
    case ShowHelp => Step(s, Help)
    case ShowView => Step(s, View)
    case ShowStatus => Step(s, Status)
    case Open(action, step) => Step(SetPending(s, cid, action, step, map[]), Prompt(action, step))
    case SetDefault(v) => ActSetRateDefault(s, v)
    case NoWord => Step(s, Fault)
  }

  // ------------------------------------------------------------ properties

  /** The cancel word, at any step of any command, drops the pending record and changes nothing else. */
  lemma CancelAnywhere(s: State, cid: string, message: string, quote: Quote)
    requires cid in s.pending && Strip(message) == CancelWord
    ensures OnText(s, cid, message, quote) == Step(ClearPending(s, cid), Cancelled)
  {
  }

  /** A choice outside the offered words, at a choice step, changes nothing and asks again. */
  lemma ChoiceOutsideVocabulary(s: State, cid: string, message: string, quote: Quote)
    requires cid in s.pending
    requires var p := s.pending[cid]; var text := Strip(message);
      || (p.action == "coin" && p.step == "mode" && text !in {AddWord, DelWord, CancelWord})
      || (p.action == "target" && p.step == "type" && text !in {TargetSlot, StopSlot, Reset, CancelWord})
      || (p.action == "target" && p.step == "mode" && text !in {DirectWord, CurPctWord, AvgPctWord, CancelWord})
    ensures var p := s.pending[cid];
      OnText(s, cid, message, quote) == Step(s, Rejected(p.action, p.step))
  {
  }

  /**
    Input that is not a number, at a number step, changes nothing and asks
    again: after dropping `%` and `,` for a target/stop price, after
    dropping `,` for the other commands.
   */
  lemma NotANumber(s: State, cid: string, message: string, quote: Quote)
    requires cid in s.pending
    requires var p := s.pending[cid]; var text := Strip(message);
      && p.step == "value" && text != CancelWord
      && (p.action == "target" ==> ParseFloat(Remove(Remove(text, '%'), ',')) == None)
      && (p.action != "target" ==> ParseFloat(Remove(text, ',')) == None)
    ensures var p := s.pending[cid];
      OnText(s, cid, message, quote) == Step(s, Rejected(p.action, "value"))
  {
    var p := s.pending[cid];
    var text := Strip(message);
    assert OnText(s, cid, message, quote) == Continue(s, cid, p, text, quote);
    if p.action == "target" {
      assert Continue(s, cid, p, text, quote) == TargetStep(s, cid, p, text, quote);
    } else {
      assert Continue(s, cid, p, text, quote) == ValueStep(s, cid, p, text);
    }
  }

  /** The steps that finish a command with the message `text`. */
  ghost predicate Terminal(p: Pending, text: string) {
    && text != CancelWord
    && (|| (p.action in {"coin_add", "coin_del"} && p.step == "symbol")
        || (p.action == "target" && p.step == "type" && text == Reset && "symbol" in p.data)
        || (p.action == "target" && p.step == "value" && ParseFloat(Remove(Remove(text, '%'), ',')).Some?
            && "symbol" in p.data && "which" in p.data && "mode" in p.data
            && p.data["mode"] in {DirectMode, CurPctMode, AvgPctMode})
        || (p.action == "price" && p.step == "symbol")
        || (p.action != "target" && p.step == "value" && ParseFloat(Remove(text, ',')).Some?))
  }

  /** The last target/stop step, with a number and a known mode, drops the record. */
  lemma TargetValueClears(s: State, cid: string, p: Pending, text: string, quote: Quote)
    requires GetPending(s, cid) == Some(p) && p.action == "target" && p.step == "value"
    requires ParseFloat(Remove(Remove(text, '%'), ',')).Some?
    requires "symbol" in p.data && "which" in p.data && "mode" in p.data
    requires p.data["mode"] in {DirectMode, CurPctMode, AvgPctMode}
    ensures cid !in TargetStep(s, cid, p, text, quote).state.pending
  {
    var v := ParseFloat(Remove(Remove(text, '%'), ',')).value;
    FaultIffUnknownMode(s, p.data["symbol"], p.data["which"], p.data["mode"], v, quote);
    assert TargetStep(s, cid, p, text, quote).state
      == ClearPending(SetTargetStop(s, p.data["symbol"], p.data["which"], p.data["mode"], v, quote).state, cid);
  }

  /** Every finishing step drops the chat's pending record. */
  lemma TerminalClearsPending(s: State, cid: string, message: string, quote: Quote)
    requires cid in s.pending && Terminal(s.pending[cid], Strip(message))
    ensures cid !in OnText(s, cid, message, quote).state.pending
  {
    var p := s.pending[cid];
    var text := Strip(message);
    assert OnText(s, cid, message, quote) == Continue(s, cid, p, text, quote);
    if p.action == "target" {
      assert Continue(s, cid, p, text, quote) == TargetStep(s, cid, p, text, quote);
      if p.step == "value" {
        TargetValueClears(s, cid, p, text, quote);
      }
    } else if p.action in {"coin_add", "coin_del"} && p.step == "symbol" {
    } else if p.step == "symbol" {
      assert Continue(s, cid, p, text, quote) == SymbolStep(s, cid, p, text, quote);
    } else {
      assert Continue(s, cid, p, text, quote) == ValueStep(s, cid, p, text);
    }
  }

  // ------------------------------------- what each step does with its data

  /** The coin command's mode step stores the chosen action, with no data yet, at the symbol step. */
  lemma CoinModeStores(s: State, cid: string, message: string, quote: Quote)
    requires cid in s.pending && s.pending[cid].action == "coin" && s.pending[cid].step == "mode"
    ensures Strip(message) == AddWord ==>
      OnText(s, cid, message, quote) == Step(SetPending(s, cid, "coin_add", "symbol", map[]), Prompt("coin_add", "symbol"))
    ensures Strip(message) == DelWord ==>
      OnText(s, cid, message, quote) == Step(SetPending(s, cid, "coin_del", "symbol", map[]), Prompt("coin_del", "symbol"))
  {
  }

  /** Adding or deleting: the symbol step runs `act_add` or `act_del` on the upper-cased text, then drops the record. */
  lemma CoinSymbolRuns(s: State, cid: string, message: string, quote: Quote)
    requires cid in s.pending && s.pending[cid].step == "symbol"
    requires Strip(message) != CancelWord
    ensures var symbol := Upper(Strip(message));
      && (s.pending[cid].action == "coin_add" ==>
            OnText(s, cid, message, quote)
              == Step(ClearPending(ActAdd(s, symbol).state, cid), ActAdd(s, symbol).reply))
      && (s.pending[cid].action == "coin_del" ==>
            OnText(s, cid, message, quote)
              == Step(ClearPending(ActDel(s, symbol).state, cid), ActDel(s, symbol).reply))
  {
  }

  /** The price command's symbol step answers `act_price` of the upper-cased text and drops the record. */
  lemma PriceSymbolRuns(s: State, cid: string, message: string, quote: Quote)
    requires cid in s.pending && s.pending[cid].action == "price" && s.pending[cid].step == "symbol"
    requires Strip(message) != CancelWord
    ensures OnText(s, cid, message, quote)
      == Step(ClearPending(s, cid), ActPrice(Upper(Strip(message)), quote))
  {
    var p := s.pending[cid];
    var text := Strip(message);
    assert OnText(s, cid, message, quote) == Continue(s, cid, p, text, quote);
    PriceSymbolStep(s, cid, p, text, quote);
  }

  /** The same on the symbol step: writing the symbol into the record first changes nothing once it is dropped. */
  lemma PriceSymbolStep(s: State, cid: string, p: Pending, text: string, quote: Quote)
    requires GetPending(s, cid) == Some(p) && p.action == "price" && p.step == "symbol" && text != CancelWord
    ensures Continue(s, cid, p, text, quote) == Step(ClearPending(s, cid), ActPrice(Upper(text), quote))
  {
    assert Continue(s, cid, p, text, quote) == SymbolStep(s, cid, p, text, quote);
    ClearAfterSet(s, cid, p.action, p.step, p.data["symbol" := Upper(text)]);
  }

  /**
    The symbol step of the cost-basis, quantity and per-coin threshold
    commands stores the upper-cased text as the symbol and moves to the
    number step.
   */
  lemma SymbolStores(s: State, cid: string, message: string, quote: Quote)
    requires cid in s.pending && s.pending[cid].action in {"setavg", "setqty", "setrate_coin"}
    requires s.pending[cid].step == "symbol" && Strip(message) != CancelWord
    ensures var p := s.pending[cid];
      OnText(s, cid, message, quote)
        == Step(SetPending(s, cid, p.action, "value", p.data["symbol" := Upper(Strip(message))]), Prompt(p.action, "value"))
  {
    var p := s.pending[cid];
    var data := p.data["symbol" := Upper(Strip(message))];
    assert SetPending(SetPending(s, cid, p.action, p.step, data), cid, p.action, "value", data)
      == SetPending(s, cid, p.action, "value", data);
  }

  /**
    The number step of those commands runs the command's operation on the
    stored symbol and the number, then drops the record.
   */
  lemma ValueRuns(s: State, cid: string, message: string, quote: Quote, v: real)
    requires cid in s.pending && s.pending[cid].action != "target" && s.pending[cid].step == "value"
    requires "symbol" in s.pending[cid].data
    requires Strip(message) != CancelWord && ParseFloat(Remove(Strip(message), ',')) == Some(v)
    ensures var p := s.pending[cid];
      var done := ApplyValue(s, p.action, p.data["symbol"], v);
      OnText(s, cid, message, quote) == Step(ClearPending(done.state, cid), done.reply)
  {
    var p := s.pending[cid];
    assert OnText(s, cid, message, quote) == ValueStep(s, cid, p, Strip(message));
  }

  /** The target/stop command's symbol step stores the upper-cased text as the symbol. */
  lemma TargetSymbolStores(s: State, cid: string, message: string, quote: Quote)
    requires cid in s.pending && s.pending[cid].action == "target" && s.pending[cid].step == "symbol"
    requires Strip(message) != CancelWord
    ensures OnText(s, cid, message, quote)
      == Step(SetPending(s, cid, "target", "type", s.pending[cid].data["symbol" := Upper(Strip(message))]),
              Prompt("target", "type"))
  {
  }

  /** Choosing the target or the stop stores the choice and moves to the mode step. */
  lemma TargetTypeStores(s: State, cid: string, message: string, quote: Quote)
    requires cid in s.pending && s.pending[cid].action == "target" && s.pending[cid].step == "type"
    requires Strip(message) in {TargetSlot, StopSlot}
    ensures OnText(s, cid, message, quote)
      == Step(SetPending(s, cid, "target", "mode", s.pending[cid].data["which" := Strip(message)]),
              Prompt("target", "mode"))
  {
    var p := s.pending[cid];
    var data := p.data["which" := Strip(message)];
    assert OnText(s, cid, message, quote) == TypeStep(s, cid, p, Strip(message), quote);
    assert SetPending(SetPending(s, cid, p.action, p.step, data), cid, "target", "mode", data)
      == SetPending(s, cid, "target", "mode", data);
  }

  /** `초기화` at the slot step runs `set_target_stop` on the stored symbol and drops the record. */
  lemma TargetResetRuns(s: State, cid: string, message: string, quote: Quote)
    requires cid in s.pending && s.pending[cid].action == "target" && s.pending[cid].step == "type"
    requires Strip(message) == Reset && "symbol" in s.pending[cid].data
    ensures var done := SetTargetStop(s, s.pending[cid].data["symbol"], Reset, DirectMode, 0.0, quote);
      OnText(s, cid, message, quote) == Step(ClearPending(done.state, cid), done.reply)
  {
    var p := s.pending[cid];
    var text := Strip(message);
    assert OnText(s, cid, message, quote) == Continue(s, cid, p, text, quote);
    assert Continue(s, cid, p, text, quote) == TargetStep(s, cid, p, text, quote);
    assert TargetStep(s, cid, p, text, quote) == TypeStep(s, cid, p, text, quote);
    ResetStep(s, cid, p, quote);
  }

  /** The slot step on `초기화`, stated on the document before the choice is written into the record. */
  lemma ResetStep(s: State, cid: string, p: Pending, quote: Quote)
    requires GetPending(s, cid) == Some(p) && p.action == "target" && p.step == "type" && "symbol" in p.data
    ensures var done := SetTargetStop(s, p.data["symbol"], Reset, DirectMode, 0.0, quote);
      TypeStep(s, cid, p, Reset, quote) == Step(ClearPending(done.state, cid), done.reply)
  {
    var data := p.data["which" := Reset];
    var s1 := SetPending(s, cid, p.action, p.step, data);
    var done1 := SetTargetStop(s1, data["symbol"], Reset, DirectMode, 0.0, quote);
    var done := SetTargetStop(s, p.data["symbol"], Reset, DirectMode, 0.0, quote);
    assert TypeStep(s, cid, p, Reset, quote) == Step(ClearPending(done1.state, cid), done1.reply);
    assert done1.reply == done.reply && ClearPending(done1.state, cid) == ClearPending(done.state, cid) by {
      assert s1 == s.(pending := s1.pending);
      SetTargetStopIgnoresPending(s, s1.pending, p.data["symbol"], Reset, DirectMode, 0.0, quote);
      assert done.state.pending == s.pending;
      assert s1.pending - {cid} == s.pending - {cid};
    }
  }

  /** Choosing an entry way stores its mode code and moves to the number step. */
  lemma TargetModeStores(s: State, cid: string, message: string, quote: Quote)
    requires cid in s.pending && s.pending[cid].action == "target" && s.pending[cid].step == "mode"
    requires Strip(message) in {DirectWord, CurPctWord, AvgPctWord}
    ensures OnText(s, cid, message, quote)
      == Step(SetPending(s, cid, "target", "value", s.pending[cid].data["mode" := ModeCode(Strip(message))]),
              Prompt("target", "value"))
  {
  }

  /**
    The number step of the target/stop command, with a known mode, runs
    `set_target_stop` on the stored symbol, slot and mode and the number,
    then drops the record.
   */
  lemma TargetValueRuns(s: State, cid: string, message: string, quote: Quote, v: real)
    requires cid in s.pending && s.pending[cid].action == "target" && s.pending[cid].step == "value"
    requires Strip(message) != CancelWord && ParseFloat(Remove(Remove(Strip(message), '%'), ',')) == Some(v)
    requires var d := s.pending[cid].data; "symbol" in d && "which" in d && "mode" in d
    requires s.pending[cid].data["mode"] in {DirectMode, CurPctMode, AvgPctMode}
    ensures var d := s.pending[cid].data;
      var done := SetTargetStop(s, d["symbol"], d["which"], d["mode"], v, quote);
      OnText(s, cid, message, quote) == Step(ClearPending(done.state, cid), done.reply)
  {
    var p := s.pending[cid];
    var text := Strip(message);
    FaultIffUnknownMode(s, p.data["symbol"], p.data["which"], p.data["mode"], v, quote);
    assert OnText(s, cid, message, quote) == Continue(s, cid, p, text, quote);
    assert Continue(s, cid, p, text, quote) == TargetStep(s, cid, p, text, quote);
    assert TargetStep(s, cid, p, text, quote) == PriceStep(s, cid, p, text, quote);
  }

  /**
    What any handled message may do to the document: a coin that was there
    and still is keeps its alert baseline, a coin that appears has none yet,
    the records of other chats stay, and the document invariant holds on.
   */
  ghost predicate UserChange(s: State, r: State, cid: string) {
    && (forall m :: m in s.coins && m in r.coins ==> r.coins[m].lastNotifiedPrice == s.coins[m].lastNotifiedPrice)
    && (forall m :: m in r.coins && m !in s.coins ==> r.coins[m].lastNotifiedPrice == None)
    && r.pending - {cid} == s.pending - {cid}
    && (WellFormed(s) ==> WellFormed(r))
  }

  /** A change confined to one market's record that leaves its baseline is a user change. */
  lemma OnlyCoinIsUserChange(s: State, r: State, m: string, cid: string)
    requires OnlyCoin(s, r, m) && '-' in m
    requires r.coins[m].lastNotifiedPrice == EnsureCoin(s, m).coins[m].lastNotifiedPrice
    ensures UserChange(s, r, cid)
  {
    var e := EnsureCoin(s, m);
    assert r.coins.Keys == e.coins.Keys;
    if WellFormed(s) {
      EnsureCoinKeepsWellFormed(s, m);
    }
  }

  lemma AddIsUserChange(s: State, cid: string, symbol: string)
    ensures UserChange(s, ActAdd(s, symbol).state, cid)
  {
    var m := KrwSymbol(symbol);
    var r := ActAdd(s, symbol).state;
    assert r == EnsureCoin(s, m);
    OnlyCoinIsUserChange(s, r, m, cid);
  }

  lemma DelIsUserChange(s: State, cid: string, symbol: string)
    ensures UserChange(s, ActDel(s, symbol).state, cid)
  {
    if WellFormed(s) {
      DelKeepsWellFormed(s, symbol);
    }
  }

  lemma SetAvgIsUserChange(s: State, cid: string, symbol: string, v: real)
    ensures UserChange(s, ActSetAvg(s, symbol, v).state, cid)
  {
    OnlyCoinIsUserChange(s, ActSetAvg(s, symbol, v).state, KrwSymbol(symbol), cid);
  }

  lemma SetQtyIsUserChange(s: State, cid: string, symbol: string, v: real)
    ensures UserChange(s, ActSetQty(s, symbol, v).state, cid)
  {
    OnlyCoinIsUserChange(s, ActSetQty(s, symbol, v).state, KrwSymbol(symbol), cid);
  }

  lemma SetRateIsUserChange(s: State, cid: string, symbol: string, v: real)
    ensures UserChange(s, ActSetRateSymbol(s, symbol, v).state, cid)
  {
    OnlyCoinIsUserChange(s, ActSetRateSymbol(s, symbol, v).state, KrwSymbol(symbol), cid);
  }

  lemma SetRateDefaultIsUserChange(s: State, cid: string, v: real)
    ensures UserChange(s, ActSetRateDefault(s, v).state, cid)
  {
    assert ActSetRateDefault(s, v).state == s.(defaultThreshold := v);
  }

  lemma SetTargetStopIsUserChange(s: State, cid: string, symbol: string, which: string, mode: string, value: real, quote: Quote)
    ensures UserChange(s, SetTargetStop(s, symbol, which, mode, value, quote).state, cid)
  {
    var m := KrwSymbol(symbol);
    var r := SetTargetStop(s, symbol, which, mode, value, quote).state;
    PutIsOnlyCoin(s, m, r.coins[m]);
    OnlyCoinIsUserChange(s, r, m, cid);
  }

  /** Chaining two changes of the document made on behalf of one chat. */
  lemma UserChangeTrans(s1: State, s2: State, s3: State, cid: string)
    requires UserChange(s1, s2, cid) && UserChange(s2, s3, cid)
    requires s2.coins == s1.coins || s3.coins == s2.coins
    ensures UserChange(s1, s3, cid)
  {
  }

  /** Writing or dropping a pending record touches no coin and no other chat. */
  lemma PendingIsUserChange(s: State, cid: string, action: string, step: string, data: map<string, string>)
    ensures UserChange(s, SetPending(s, cid, action, step, data), cid)
    ensures UserChange(s, ClearPending(s, cid), cid)
  {
  }

  lemma CommandIsUserChange(s: State, cid: string, text: string)
    ensures UserChange(s, Command(s, cid, text).state, cid)
  {
    var r := Command(s, cid, text);
    if r.reply.Prompt? {
      PendingIsUserChange(s, cid, r.reply.action, r.reply.step, map[]);
    } else if r.reply.DefaultRateSet? {
      SetRateDefaultIsUserChange(s, cid, r.reply.pct);
    } else {
      assert r.state == s;
    }
  }

  lemma UserChangeRefl(s: State, cid: string)
    ensures UserChange(s, s, cid)
  {
  }

  /** A user change followed by dropping the chat's record is still one. */
  lemma ThenClear(s: State, r: State, cid: string)
    requires UserChange(s, r, cid)
    ensures UserChange(s, ClearPending(r, cid), cid)
  {
    PendingIsUserChange(r, cid, "", "", map[]);
    UserChangeTrans(s, r, ClearPending(r, cid), cid);
  }

  /** A user change followed by rewriting the chat's record is still one. */
  lemma ThenSet(s: State, r: State, cid: string, action: string, step: string, data: map<string, string>)
    requires UserChange(s, r, cid)
    ensures UserChange(s, SetPending(r, cid, action, step, data), cid)
  {
    PendingIsUserChange(r, cid, action, step, data);
    UserChangeTrans(s, r, SetPending(r, cid, action, step, data), cid);
  }

  lemma SymbolStepIsUserChange(s: State, cid: string, p: Pending, text: string, quote: Quote)
    requires GetPending(s, cid) == Some(p)
    ensures UserChange(s, SymbolStep(s, cid, p, text, quote).state, cid)
  {
    var data := p.data["symbol" := Upper(text)];
    var s1 := SetPending(s, cid, p.action, p.step, data);
    UserChangeRefl(s, cid);
    ThenSet(s, s, cid, p.action, p.step, data);
    if p.action == "price" {
      assert SymbolStep(s, cid, p, text, quote).state == ClearPending(s1, cid);
      ThenClear(s, s1, cid);
    } else if p.action in {"setavg", "setqty", "setrate_coin"} {
      assert SymbolStep(s, cid, p, text, quote).state == SetPending(s1, cid, p.action, "value", data);
      ThenSet(s, s1, cid, p.action, "value", data);
    } else {
      assert SymbolStep(s, cid, p, text, quote) == Command(s1, cid, text);
      CommandIsUserChange(s1, cid, text);
      UserChangeTrans(s, s1, Command(s1, cid, text).state, cid);
    }
  }

  lemma ApplyValueIsUserChange(s: State, cid: string, action: string, symbol: string, v: real)
    ensures UserChange(s, ApplyValue(s, action, symbol, v).state, cid)
  {
    if action == "setavg" {
      SetAvgIsUserChange(s, cid, symbol, v);
    } else if action == "setqty" {
      SetQtyIsUserChange(s, cid, symbol, v);
    } else if action == "setrate_coin" {
      SetRateIsUserChange(s, cid, symbol, v);
    } else {
      UserChangeRefl(s, cid);
    }
  }

  lemma ValueStepIsUserChange(s: State, cid: string, p: Pending, text: string)
    requires GetPending(s, cid) == Some(p) && p.step == "value"
    ensures UserChange(s, ValueStep(s, cid, p, text).state, cid)
  {
    match ParseFloat(Remove(text, ','))
    case None =>
      UserChangeRefl(s, cid);
    case Some(v) =>
      var done := ApplyValue(s, p.action, if "symbol" in p.data then p.data["symbol"] else "", v);
      ApplyValueIsUserChange(s, cid, p.action, if "symbol" in p.data then p.data["symbol"] else "", v);
      ThenClear(s, done.state, cid);
  }

  lemma TargetStepIsUserChange(s: State, cid: string, p: Pending, text: string, quote: Quote)
    requires GetPending(s, cid) == Some(p)
    requires p.action == "target" && p.step in {"symbol", "type", "mode", "value"}
    ensures UserChange(s, TargetStep(s, cid, p, text, quote).state, cid)
  {
    var r := TargetStep(s, cid, p, text, quote).state;
    UserChangeRefl(s, cid);
    if p.step == "symbol" {
      assert r == SetPending(s, cid, "target", "type", p.data["symbol" := Upper(text)]);
      ThenSet(s, s, cid, "target", "type", p.data["symbol" := Upper(text)]);
    } else if p.step == "type" {
      if text in {TargetSlot, StopSlot, Reset} {
        var data := p.data["which" := text];
        var s1 := SetPending(s, cid, p.action, p.step, data);
        ThenSet(s, s, cid, p.action, p.step, data);
        if text == Reset {
          if "symbol" in data {
            var done := SetTargetStop(s1, data["symbol"], Reset, DirectMode, 0.0, quote);
            assert r == ClearPending(done.state, cid);
            SetTargetStopIsUserChange(s1, cid, data["symbol"], Reset, DirectMode, 0.0, quote);
            UserChangeTrans(s, s1, done.state, cid);
            ThenClear(s, done.state, cid);
          } else {
            assert r == s1;
          }
        } else {
          assert r == SetPending(s1, cid, "target", "mode", data);
          ThenSet(s, s1, cid, "target", "mode", data);
        }
      } else {
        assert r == s;
      }
    } else if p.step == "mode" {
      if text in {DirectWord, CurPctWord, AvgPctWord} {
        assert r == SetPending(s, cid, "target", "value", p.data["mode" := ModeCode(text)]);
        ThenSet(s, s, cid, "target", "value", p.data["mode" := ModeCode(text)]);
      } else {
        assert r == s;
      }
    } else {
      match ParseFloat(Remove(Remove(text, '%'), ','))
      case None =>
        assert r == s;
      case Some(v) =>
        if "symbol" in p.data && "which" in p.data && "mode" in p.data {
          var done := SetTargetStop(s, p.data["symbol"], p.data["which"], p.data["mode"], v, quote);
          SetTargetStopIsUserChange(s, cid, p.data["symbol"], p.data["which"], p.data["mode"], v, quote);
          if done.reply == Fault {
            assert r == done.state;
          } else {
            assert r == ClearPending(done.state, cid);
            ThenClear(s, done.state, cid);
          }
        } else {
          assert r == s;
        }
    }
  }

  lemma ContinueIsUserChange(s: State, cid: string, p: Pending, text: string, quote: Quote)
    requires GetPending(s, cid) == Some(p)
    ensures UserChange(s, Continue(s, cid, p, text, quote).state, cid)
  {
    var r := Continue(s, cid, p, text, quote).state;
    UserChangeRefl(s, cid);
    if text == CancelWord {
      assert r == ClearPending(s, cid);
      ThenClear(s, s, cid);
    } else if p.action == "coin" && p.step == "mode" {
      if text in {AddWord, DelWord} {
        var next := if text == AddWord then "coin_add" else "coin_del";
        assert r == SetPending(s, cid, next, "symbol", map[]);
        ThenSet(s, s, cid, next, "symbol", map[]);
      } else {
        assert r == s;
      }
    } else if p.action in {"coin_add", "coin_del"} && p.step == "symbol" {
      var done := if p.action == "coin_add" then ActAdd(s, Upper(text)) else ActDel(s, Upper(text));
      assert r == ClearPending(done.state, cid);
      AddIsUserChange(s, cid, Upper(text));
      DelIsUserChange(s, cid, Upper(text));
      ThenClear(s, done.state, cid);
    } else if p.action == "target" && p.step in {"symbol", "type", "mode", "value"} {
      assert r == TargetStep(s, cid, p, text, quote).state;
      TargetStepIsUserChange(s, cid, p, text, quote);
    } else if p.step == "symbol" {
      assert r == SymbolStep(s, cid, p, text, quote).state;
      SymbolStepIsUserChange(s, cid, p, text, quote);
    } else if p.step == "value" {
      assert r == ValueStep(s, cid, p, text).state;
      ValueStepIsUserChange(s, cid, p, text);
    } else {
      assert r == Command(s, cid, text).state;
      CommandIsUserChange(s, cid, text);
    }
  }

  /**
    No message moves an alert baseline: only the alert engine changes
    `last_notified_price`. A message also leaves the pending records of
    other chats alone and keeps the document invariant.
   */
  lemma MessagesKeepBaselines(s: State, cid: string, message: string, quote: Quote)
    ensures UserChange(s, OnText(s, cid, message, quote).state, cid)
  {
    var text := Strip(message);
    match GetPending(s, cid)
    case Some(p) => ContinueIsUserChange(s, cid, p, text, quote);
    case None => CommandIsUserChange(s, cid, text);
  }
}
