# Upbit price-watch bot, modelled in Dafny

`app.py` is a single-user Telegram bot that watches Upbit KRW markets. It
keeps one JSON document in memory. The document holds three things:

- the watched coins, in insertion order, each with a cost basis, a quantity,
  an optional own move threshold, the price of the last move notification
  (the *baseline*), and two one-shot price levels (a target and a stop);
- a global default move threshold;
- one pending multi-step command per chat.

Three parts of the program change that document, and this project models
each of them:

- **The watch state** (`watch.dfy`, module `Watch`):
  - `krw_symbol` market-name normalisation, `norm_threshold`,
    `ensure_coin` and the `act_*` commands;
  - the pending-record slot (`set_pending`, `clear_pending`,
    `get_pending`) and `set_target_stop`;
  - the default back-fill done by `load_state`.

  Each is a function from the old document to the new one and the answer to
  the chat. The document invariant `WellFormed` says that `order` lists each
  coin exactly once and every market name holds a `-`.
- **The alert engine `check_loop`** (`alerts.dfy`, module `Alerts`). Each
  tick, every coin with a readable price goes through two tracks in turn:
  - the percentage-move track. Its baseline is seeded on first sight. When
    the move from a non-zero baseline reaches the effective threshold, the
    move is reported and the baseline is rebased on the reading;
  - the one-shot track. A set target at or below the price, and a set stop
    at or above it, are reported together in one notification and emptied.
- **The message handler `on_text`** (`conversation.dfy`, module
  `Conversation`):
  - the cancel word, then the per-step dispatch of a pending record;
  - the top-level command table on the first word of the message.

  Every answer of the handler is proved to agree with the pending record
  it leaves (`Coherent`). A prompt for a step leaves a record at that
  step. A refusal leaves the document as it was and repeats the step the
  chat is at. Cancelling drops the record and nothing else. An answer that
  finishes a command leaves no record.
  One lemma per step states what the step does with the record's data: which
  value it stores under which key, and which operation a finishing step
  runs on the symbol, slot, mode and number it collected.

`pytext.dfy` (module `PyText`) gives the Python string operations the
handler relies on: `upper`, `strip`, `split`, `lstrip("/")`,
`replace(c, "")` and `float()` of a string.

`store.dfy` (module `Bot`) is the running program's side. Class `Store`
holds the document's four parts as fields that its methods update in place.
The loop of `check_loop` walks the coins in insertion order. Every method is
proved to leave the fields equal to what the corresponding function computes
from the old fields, and to return the same answer. The properties proved of
the functions therefore hold of the object.

The price feed (`get_price`) is a parameter `quote: string -> Option<real>`,
where `None` is a failed request. Outgoing messages are values: a `Reply` to
the chat, and a list of `Event`s for the notifications of a tick. A handler
that raises answers `Fault`, and the changes it made before raising stay.

## What the code does

A few behaviours of `app.py` that are easy to misread are worth stating on
their own. The model has each of them.

- **Two one-shot slots per coin.** A coin has a `target_price` and a
  `stop_price`, and no previous reading is kept. A target fires when the
  price is at or above it, and a stop fires when the price is at or below it
  (app.py:247-255). A slot holding 0 counts as empty, as `if tg` has it.
- **A level can fire on a coin's first tick.** The first reading seeds the
  baseline, and the level track then runs on that same reading.
- **A zero baseline measures no move.** The guarded delta is 0 when the
  baseline is 0 (app.py:236-237). With a threshold of at most 0 the
  comparison at app.py:238 still passes, and the notification text then
  divides by the baseline at app.py:242 and raises. `Alerts.CheckCoin`
  reports no move and keeps the baseline in that case; see Findings.
- **avg_pct without a cost basis ends the command.** When a cost-basis
  target is asked for while the cost basis is not positive,
  `set_target_stop` answers and returns normally (app.py:186-188). The
  pending record is then cleared.

## Model

| member | source | states |
|---|---|---|
| `PyText.Upper` | app.py:73 | the result has the input's length; a lower-case ASCII letter becomes the letter 32 code points below it (its capital), and every other character is kept in place |
| `PyText.UpperOfUpper` | app.py:73 | upper-casing a string with no lower-case letter returns it unchanged |
| `PyText.Strip` | app.py:264 | the result neither starts nor ends with white space, is no longer than the input, and an already stripped input comes back unchanged |
| `PyText.StripIsSlice` | app.py:264 | `strip()` is the slice between the leading and the trailing white space: everything before it and everything after it is white space, and the slice itself is stripped |
| `PyText.StripKeepsVisible` | app.py:264 | every non-space character of the input survives `strip()` |
| `PyText.Split` | app.py:334 | `split()` returns no word exactly when the message is all white space (so `[0]` raises) |
| `PyText.SplitHead` | app.py:334 | the first word is the first maximal run of non-space characters, preceded only by white space and followed by white space or the end; the other words are those after it |
| `PyText.SplitFromRun` | app.py:334 | white space, then a run of non-space characters ended by white space or the end: that run is the next word and the rest are the words after it |
| `PyText.SplitFirstWord` | app.py:334 | the first word of white space, then a word `w`, then white space or nothing, is `w` |
| `PyText.SplitWords` | app.py:334 | every word `split()` returns is non-empty and free of white space |
| `PyText.LStripChar` | app.py:334 | `lstrip("/")` drops exactly the leading run of `/` and keeps the rest as a suffix |
| `PyText.LStripCharPrefix` | app.py:334 | a run of `/` followed by a word that does not start with `/` strips to that word |
| `PyText.Remove` | app.py:310 | `replace(c, "")` leaves no `c`, and changes nothing when there is none |
| `PyText.RemoveConcat` | app.py:310 | `replace(c, "")` of a concatenation is the concatenation of the two results, so the kept characters keep their order |
| `PyText.RemoveOne` | app.py:310 | on one character, `replace(c, "")` drops it exactly when it is `c` |
| `PyText.RemoveKeepsOthers` | app.py:325 | `replace(c, "")` keeps every other character as many times as it occurred |
| `PyText.ParseAlphabet` | app.py:311 | whatever `float()` accepts holds only digits, signs, points and white space |
| `PyText.ParseRejects` | app.py:310 | text that still holds a `,` or a `%` is not a number, which is why the handler removes them first |
| `PyText.ParseNatDigits` | app.py:326 | a whole number typed in decimal reads back as that number |
| `PyText.UnsignedDecimal` | app.py:311 | digits, a point and digits read as the whole part plus the fraction over its power of ten |
| `PyText.SignedParse` | app.py:311 | a stripped numeral with an optional `+` or `-` reads as the value of the unsigned part, negated after `-` |
| `PyText.NegativeParse` | app.py:311 | a `-` in front of an unsigned numeral negates its value |
| `PyText.NegativeDecimalExample` | app.py:311 | `float("-2.5")` is -2.5 |
| `Watch.KrwSymbol` | app.py:72-74 | the result is the upper-cased, stripped input when that holds a `-`, and `KRW-` before it otherwise; either way it holds a `-` |
| `Watch.KrwSymbolShape` | app.py:72-74 | a normalised market name is stripped and has no lower-case letter |
| `Watch.KrwSymbolIdempotent` | app.py:72-74 | normalising twice is normalising once |
| `Watch.NormThreshold` | app.py:81-84 | the coin's own threshold when it reads as a number; the default when it is unset or does not read |
| `Watch.EnsureCoin` | app.py:143-144 | an existing market leaves the document unchanged; a new one gets the zero/empty record and is appended to the order; no other market changes |
| `Watch.EnsureCoinIdempotent` | app.py:143-144 | `ensure_coin` twice is `ensure_coin` once |
| `Watch.EnsureCoinKeepsWellFormed` | app.py:143-144 | `ensure_coin` of a name with a `-` keeps the document invariant |
| `Watch.ActAdd` | app.py:146-148 | adding is `ensure_coin` of the normalised name |
| `Watch.ActDel` | app.py:149-155 | the market is gone afterwards, no other record, the default or the pending records change, and the order loses exactly that market; a market not watched leaves the document unchanged with a "no such coin" answer |
| `Watch.WithoutAbsent` | app.py:151 | removing a market that is not in the order leaves the order as it was |
| `Watch.WithoutAt` | app.py:151 | removing the market at position `i` of an order without repeats leaves the markets before it and after it, in their order |
| `Watch.DelKeepsOrder` | app.py:149-155 | deleting a watched market takes it out of the insertion order at its position and keeps every other market in its order |
| `Watch.DelKeepsWellFormed` | app.py:149-155 | deleting keeps the document invariant |
| `Watch.ActSetAvg` | app.py:162-164 | only the market's record changes, and it becomes its old (or new default) record with cost basis `v` |
| `Watch.ActSetQty` | app.py:165-167 | only the market's record changes, and it becomes its old (or new default) record with quantity `v` |
| `Watch.ActSetRateSymbol` | app.py:171-173 | only the market's record changes, and it becomes its old (or new default) record with own threshold `v` |
| `Watch.SetRateIsEffective` | app.py:171-173 | after setting a market's threshold, `norm_threshold` yields it whatever the default |
| `Watch.ActSetRateDefault` | app.py:168-170 | only the default threshold changes, and it becomes `v` |
| `Watch.GetPending` | app.py:139-140 | there is a record exactly when the chat has one, and it is that record |
| `Watch.SetPending` | app.py:133-136 | the chat's record becomes the given action, step and data; other chats' records and the coins are untouched |
| `Watch.ClearPending` | app.py:137-138 | the chat has no record afterwards; other chats' records and the coins are untouched |
| `Watch.ClearAfterSet` | app.py:133-138 | dropping a chat's record after writing it leaves the same state as dropping it straight away |
| `Watch.Offset` | app.py:192-193 | the price lies exactly `pct` percent above the base for a target and below it for a stop, measured as `(p/base-1)*100`; for a non-negative percentage and a positive base, a target is at or above the base and a stop at or below it |
| `Watch.NewLevels` | app.py:178-195 | `초기화` empties both slots; otherwise a set price goes into the named slot for the named market and the other slot is kept, a refused request keeps both, and the answer is a clear, a set price, a failed quote, a missing cost basis or a fault |
| `Watch.SetTargetStop` | app.py:176-197 | after `ensure_coin`, only the market's two level slots can change; the answer is one of the same five |
| `Watch.SetTargetStopIgnoresPending` | app.py:176-197 | `set_target_stop` gives the same answer and the same coins whatever the pending records are, and leaves them as they were |
| `Watch.ResetClearsBoth` | app.py:178-180 | `초기화` empties both the target and the stop |
| `Watch.OnlyChosenSlot` | app.py:176-197 | the target changes only for `목표가` and the stop only otherwise, each to the answered price; a refused request changes no slot |
| `Watch.LevelsByMode` | app.py:181-193 | the price per mode: the value (direct), the reading moved by the percentage, or the cost basis moved by it; failures for an unreadable price, a cost basis not above 0, and an unknown mode |
| `Watch.LevelByMode` | app.py:181-193 | the same per-mode answers, stated on the document operation |
| `Watch.RefusalChangesNothing` | app.py:181-189 | a request answered with anything but a set price leaves the document as `ensure_coin` made it |
| `Watch.FaultIffUnknownMode` | app.py:181-193 | the operation raises exactly when, outside `초기화`, the mode is none of the three codes |
| `Watch.EnvThreshold` | app.py:10 | 1.0 when `THRESHOLD_PCT` is unset, otherwise whatever `float()` makes of it |
| `Watch.EnvThresholdReadsDefault` | app.py:10 | the value is `float()` of the variable, or of the default string `"1.0"` when it is unset |
| `Watch.LoadState` | app.py:38-46 | no file gives the empty document with the environment default; otherwise each missing top-level field is back-filled and present ones are kept |
| `Alerts.Delta` | app.py:236-237 | the move is never negative, is 0 for a zero base, and is 0 otherwise exactly when the price did not move |
| `Alerts.MoveStep` | app.py:232-246 | only the baseline changes, to the old baseline or the reading, with at most one notification |
| `Alerts.LevelStep` | app.py:247-258 | only the two slots change, each to itself or empty, with at most one notification, a "reached" one |
| `Alerts.CheckCoin` | app.py:232-258 | one coin's tick keeps cost basis, quantity and threshold, always leaves a baseline, only empties slots, and sends at most two notifications about this market at this price |
| `Alerts.MoveTrack` | app.py:234-246 | a move notification (the first of the tick) exactly when the baseline is not 0 and the move reaches the effective threshold; it rebases on the reading, and otherwise the baseline stays |
| `Alerts.ColdStart` | app.py:232-238 | with no baseline, the reading becomes the baseline and a positive threshold reports no move |
| `Alerts.ZeroBaseline` | app.py:236-246 | a zero baseline reports no move at any threshold and stays 0 |
| `Alerts.ZeroDeltaPasses` | app.py:236-238 | for a zero baseline the guarded delta passes the comparison exactly when the threshold is at most 0 |
| `Alerts.LevelTrack` | app.py:247-258 | a set target at or below the price, and a set stop at or above it, are emptied and the rest kept; one notification names them, and it comes exactly when one was reached |
| `Alerts.AtMostOneReached` | app.py:249-258 | at most one "reached" notification per coin per tick |
| `Alerts.EmptiedLevelSilent` | app.py:250-255 | an empty slot never appears in a notification |
| `Alerts.FiredLevelGone` | app.py:250-252 | a target that fired is empty afterwards and does not fire on the next tick at any price |
| `Alerts.Advance` | app.py:229-231 | a coin whose price cannot be read keeps its record and sends nothing |
| `Alerts.TickEvents` | app.py:229-259 | every notification of a tick is about a watched coin whose price was read |
| `Alerts.Tick` | app.py:227-259 | a tick keeps the set of coins, the order, the default and the pending records; unreadable coins stay as they were, the others become their one-coin tick; the invariant is kept |
| `Alerts.NoCoinsNoEvents` | app.py:228 | with no coin watched a tick sends nothing |
| `Alerts.NoReadingsNoEvents` | app.py:229-231 | a tick in which no price can be read sends nothing |
| `Alerts.MoveScenario` | app.py:234-246 | at 1% from a baseline of 100, 100.5 reports nothing and 101.2 reports and rebases |
| `Alerts.TargetScenario` | app.py:247-258 | a target of 50000 survives 49500, fires once at 50200 and stays silent at a later 49000 |
| `Alerts.CheckCoinAsWritten` | app.py:236-246 | as written, the tick raises exactly for a zero baseline with a threshold of at most 0, and is `CheckCoin` otherwise |
| `Alerts.ZeroBaselineRaises` | app.py:236-243 | a baseline of 0 and threshold 0 raise as written, where the corrected tick reports nothing and keeps the baseline |
| `Conversation.ModeCode` | app.py:306 | every entry way is stored as a mode code that `set_target_stop` knows |
| `Conversation.ModeCodeDistinct` | app.py:306 | two different entry ways are stored as codes of two different modes |
| `Conversation.OnText` | app.py:262-361 | every answer to a message agrees with the pending record it leaves: a prompt leaves a record at that step, a refusal changes nothing and repeats the chat's step, cancelling drops only the record, a finishing answer leaves none |
| `Conversation.Continue` | app.py:266-332 | the same agreement for every message to a chat with a pending record |
| `Conversation.CoinStep` | app.py:272-283 | the same agreement for the two steps of the coin command |
| `Conversation.TargetStep` | app.py:285-314 | the same agreement for the four target/stop steps |
| `Conversation.TypeStep` | app.py:291-301 | the same agreement for the slot step, where `초기화` finishes the command at once |
| `Conversation.PriceStep` | app.py:309-314 | the same agreement for the number step of the target/stop command; a fault leaves every pending record as it was, so the chat stays at this step |
| `Conversation.SymbolStep` | app.py:316-323 | the same agreement for the symbol step of the price, cost-basis, quantity and per-coin threshold commands |
| `Conversation.ValueStep` | app.py:324-332 | the same agreement for their number step |
| `Conversation.ActPrice` | app.py:156-161 | the current price of the normalised market, or a failure answer when it cannot be read |
| `Conversation.ApplyValue` | app.py:328-331 | a number step runs `act_setavg`, `act_setqty` or `act_setrate_symbol` by action, and nothing for any other action |
| `Conversation.ParseCommand` | app.py:334-361 | no word exactly for a blank message; each opened command starts at its first step; `임계값` sets the default exactly when there are two words and the second, without `,`, reads as a number, which is then the new default |
| `Conversation.CommandHead` | app.py:334 | the command word of white space, any `/`, a word and white space or the end is that word |
| `Conversation.CommandWords` | app.py:334-361 | the table: `도움말`/`help`, `보기`/`show` and `상태`/`status` show help, the view and the status; `코인` opens the coin command at its mode step; `가격`, `평단`, `수량` and `지정가` open their commands at the symbol step; `임계값` opens the per-coin threshold command or sets the default; any other word shows help |
| `Conversation.CommandTable` | app.py:335-361 | the same table, given the first word without its leading `/` |
| `Conversation.Command` | app.py:334-361 | a top-level command either opens a fresh pending record, sets the default threshold, or changes nothing; its answer is help, the view, the status, a fault, a prompt or the new default |
| `Conversation.CommandCoherent` | app.py:334-361 | a command typed while another one waits for its answer still leaves a prompt's record in place and finishes nothing, so the chat's record stays coherent |
| `Conversation.CancelAnywhere` | app.py:269-270 | with a pending record, `취소` drops it and changes nothing else, at any step of any command |
| `Conversation.ChoiceOutsideVocabulary` | app.py:272-305 | a word outside the offered choices at the coin/mode, target/type or target/mode step changes nothing and asks again |
| `Conversation.NotANumber` | app.py:309-327 | a non-number at a value step changes nothing and asks again |
| `Conversation.TargetValueClears` | app.py:309-314 | the last target step, with a number and a known mode, drops the record |
| `Conversation.TerminalClearsPending` | app.py:279-332 | every step that finishes a command drops the chat's pending record |
| `Conversation.CoinModeStores` | app.py:272-277 | `추가` and `삭제` store `coin_add` or `coin_del` with no data at the symbol step |
| `Conversation.CoinSymbolRuns` | app.py:279-283 | the symbol step of adding runs `act_add`, and of deleting `act_del`, on the upper-cased text, and drops the record |
| `Conversation.PriceSymbolRuns` | app.py:316-320 | the price command's symbol step answers `act_price` of the upper-cased text and drops the record, changing nothing else |
| `Conversation.PriceSymbolStep` | app.py:316-320 | the symbol written into the price record before it is dropped leaves no trace: the step is `act_price` of the upper-cased text on the state with the record dropped |
| `Conversation.SymbolStores` | app.py:316-323 | the symbol step of the cost-basis, quantity and per-coin threshold commands stores the upper-cased text as `symbol` and moves to the number step, keeping the other data |
| `Conversation.ValueRuns` | app.py:324-332 | their number step runs the command's operation on the stored symbol and the number read after dropping `,`, then drops the record |
| `Conversation.TargetSymbolStores` | app.py:286-290 | the target/stop symbol step stores the upper-cased text as `symbol` and moves to the slot step |
| `Conversation.TargetTypeStores` | app.py:291-301 | choosing `목표가` or `손절가` stores it as `which` and moves to the mode step |
| `Conversation.TargetResetRuns` | app.py:291-298 | `초기화` at the slot step runs `set_target_stop` on the stored symbol with `초기화` and drops the record |
| `Conversation.ResetStep` | app.py:295-298 | the same on the slot step itself: writing the choice into the record first changes nothing once the record is dropped |
| `Conversation.TargetModeStores` | app.py:302-308 | choosing an entry way stores its mode code as `mode` and moves to the number step |
| `Conversation.TargetValueRuns` | app.py:309-314 | with a known mode, the number step runs `set_target_stop` on the stored symbol, slot and mode and the number read after dropping `%` and `,`, then drops the record |
| `Conversation.AddIsUserChange` | app.py:146-148 | adding keeps every baseline and the invariant |
| `Conversation.DelIsUserChange` | app.py:149-155 | deleting keeps every remaining baseline and the invariant |
| `Conversation.SetAvgIsUserChange` | app.py:162-164 | setting a cost basis keeps every baseline and the invariant |
| `Conversation.SetQtyIsUserChange` | app.py:165-167 | setting a quantity keeps every baseline and the invariant |
| `Conversation.SetRateIsUserChange` | app.py:171-173 | setting a market threshold keeps every baseline and the invariant |
| `Conversation.SetRateDefaultIsUserChange` | app.py:168-170 | setting the default keeps every baseline and the invariant |
| `Conversation.SetTargetStopIsUserChange` | app.py:176-197 | setting levels keeps every baseline and the invariant |
| `Conversation.PendingIsUserChange` | app.py:133-138 | writing or dropping the chat's record touches no coin and no other chat |
| `Conversation.CommandIsUserChange` | app.py:334-361 | a top-level command keeps every baseline, other chats' records and the invariant |
| `Conversation.SymbolStepIsUserChange` | app.py:316-323 | the symbol step keeps every baseline, other chats' records and the invariant |
| `Conversation.ApplyValueIsUserChange` | app.py:328-331 | the action of a number step keeps every baseline and the invariant |
| `Conversation.ValueStepIsUserChange` | app.py:324-332 | the number step keeps every baseline, other chats' records and the invariant |
| `Conversation.TargetStepIsUserChange` | app.py:285-314 | the target/stop steps keep every baseline, other chats' records and the invariant |
| `Conversation.ContinueIsUserChange` | app.py:266-332 | any pending-step message keeps every baseline, other chats' records and the invariant |
| `Conversation.MessagesKeepBaselines` | app.py:262-361 | no message moves a baseline or gives a new coin one; other chats' records stay; the invariant holds on |
| `Bot.Store.constructor` | app.py:38-46 | the fields hold the loaded document with `float(THRESHOLD_PCT or "1.0")` as the default, and it is well formed when there is no file; an unreadable variable stops start-up |
| `Bot.Store.EnsureCoin` | app.py:143-144 | the fields become `ensure_coin` of the old document |
| `Bot.Store.Add` | app.py:146-148 | the fields and the answer are those of `act_add` on the old document |
| `Bot.Store.Del` | app.py:149-155 | the fields and the answer are those of `act_del` on the old document |
| `Bot.Store.SetAvg` | app.py:162-164 | the fields and the answer are those of `act_setavg` on the old document |
| `Bot.Store.SetQty` | app.py:165-167 | the fields and the answer are those of `act_setqty` on the old document |
| `Bot.Store.SetRateDefault` | app.py:168-170 | the fields and the answer are those of `act_setrate_default` on the old document |
| `Bot.Store.SetRateSymbol` | app.py:171-173 | the fields and the answer are those of `act_setrate_symbol` on the old document |
| `Bot.Store.SetPending` | app.py:133-136 | the fields become `set_pending` of the old document |
| `Bot.Store.ClearPending` | app.py:137-138 | the fields become `clear_pending` of the old document |
| `Bot.Store.SetTargetStop` | app.py:176-197 | the fields and the answer are those of `set_target_stop` on the old document |
| `Bot.Store.CheckCoin` | app.py:229-258 | one coin's record and notifications become those of its tick, or stay when its price cannot be read |
| `Bot.Store.TrackMove` | app.py:232-246 | the coin's record and notifications become those of the move track |
| `Bot.Store.TrackLevels` | app.py:247-258 | the coin's record and notifications become those of the level track |
| `Bot.Store.CheckLoop` | app.py:227-259 | the loop over the coins in insertion order leaves the document and notifications of one tick, and keeps the invariant |
| `Bot.Store.OnText` | app.py:262-361 | the fields and the answer are those of `on_text` on the old document, and the invariant is kept |
| `Bot.Store.Continue` | app.py:266-332 | the fields and the answer are those of the pending-step dispatch |
| `Bot.Store.TargetStep` | app.py:285-314 | the fields and the answer are those of the target/stop steps |
| `Bot.Store.SymbolStep` | app.py:316-323 | the fields and the answer are those of the symbol step |
| `Bot.Store.ValueStep` | app.py:324-332 | the fields and the answer are those of the number step |
| `Bot.Store.ApplyValue` | app.py:328-331 | the fields and the answer are those of the action a number step runs |
| `Bot.Store.Command` | app.py:334-361 | the fields and the answer are those of the top-level command table |

## Left out

- Telegram I/O is not modelled: `reply`, `send_ctx`, `main`, the `Updater`, the job queue, the keyboards and `only_owner`. Answers are `Reply` values and notifications are `Event` values. Delivery failures, which the code ignores, are not modelled either.
- Reply and notification texts are not modelled, and neither is the display code built on `fmt`, `pretty_sym`, `summary_line`, `send_view`, `send_status` and `HELP`. The answers `View`, `Status` and `Help` stand for those messages.
- `get_price` is an HTTP request. It is the `quote` parameter, and `None` stands for any exception it raises.
- The lock file, the pid liveness check and the signal handlers (app.py:16-35) are process control and are left out.
- Reading and writing the JSON file is left out, and `save_state` is a no-op. `Stored` is the already parsed file, with each top-level field possibly missing.
- Documents the bot itself never writes are not modelled: records with missing or mistyped fields, a pending record without `data` or an empty one (which `if pend:` would treat as absent), and a target or stop stored as text.
- The `act_*` functions receive the number, not the text they call `float()` on, because the handler only calls them after that text has parsed.
- Floating point is exact `real` arithmetic.
- `PyText.Upper`: upper-cases the ASCII letters only. Python also upper-cases other scripts and expands characters such as `ß`.
- `PyText.ParseFloat`: reads an optional sign, ASCII digits and at most one point, between white space. Python's `float()` also accepts exponents, `inf`, `nan`, digit-group underscores and the decimal digits of other scripts, such as the full-width `１`. The model reads all of these as not a number.
- `Bot.Store.CheckLoop`: requires the document invariant. `order` stands for the dict's own key order and must list each key once. Keys without a `-`, which would make `split("-")[1]` raise, are not modelled.
- `Alerts.CheckCoin`: a zero baseline with a threshold of at most 0 reports no move and keeps the baseline, where the code as written raises (see Findings). `Alerts.CheckCoinAsWritten` models the raise.
- Concurrency is not modelled. `main` registers `on_text` with the dispatcher and `check_loop` with the job queue (app.py:371-373), and python-telegram-bot runs them on separate threads. So a message can change the document in the middle of a tick, which is why app.py:229 walks a `list(...)` snapshot of the coins. The model treats every tick and every message as one atomic step.
- `Conversation.ParseCommand`: the `임계값 <number>` case is stated on the words `split()` returns. `Conversation.CommandWords` states the command table on the raw text, but for `임계값` it says only that the default is set or the per-coin command opens.
- naver_review_debug.py and naver_rank_debug.py are one-off scraping scripts with no state and are not part of this model.

## Findings

| source | as written | input that shows it | evidently intended | confidence | as-written member | corrected member |
|---|---|---|---|---|---|---|
| app.py:236-243 | `delta` is guarded against a zero baseline (`except: delta=0`), but the move notification's text then computes `(cur/base-1)*100` outside any handler. So a zero baseline with a threshold of at most 0 passes the comparison, then raises `ZeroDivisionError` and ends the tick before the rebase, the level track and the remaining coins; every later tick raises at the same coin | baseline 0, own threshold 0, reading 100 (`Alerts.ZeroBaselineRaises`) | the guard's fallback means no move: a zero baseline reports nothing and the baseline stays | medium; not executed | `Alerts.CheckCoinAsWritten` | `Alerts.CheckCoin` |
