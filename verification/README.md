# Verified model of the backtester's engines

A Dafny model of the stateful engines of the options backtester, with proofs of what they promise: the signal
automaton and latch loop, fixed-contract P&L and its cost billing, the rebalance kernels, the intraday hedge and
trigger scan, the streaming condition detectors, the autosave hook and the coverage cache.

Numbers that the engines hold as 64-bit floats are reals here, and a NaN or a missing value is `None`. Bars are
positions on one axis. Everything the engines fetch or are handed is an argument. Where the engine runs a loop over
variables, there is a method with that loop, proved equal to a specification function; the properties are then proved
of the function for all inputs, all bars and all runs.

| file | what it models |
|---|---|
| `Automaton.dfy`, `ChainStages.dfy` | THEN-chains: the one-candidate automaton, the many-candidate automaton, what each detects; the grouping of conditions into stages |
| `LatchSpec.dfy`, `LatchLoop.dfy`, `LatchBars.dfy`, `LatchRuns.dfy` | one bar of the latch protocol; the loop as a class; what each bar of a run does; what whole runs keep |
| `HoldPnl.dfy`, `HoldProofs.dfy`, `HoldBook.dfy`, `HoldSeams.dfy`, `HoldHedge.dfy` | joint compounding with fixed-contract legs; ruin and reconciliation; the plain quantity book; segments and the seams between them; the delta-hedge overlay |
| `HoldCosts.dfy`, `Costs.dfy` | the replay that costs are billed on; turnover, drags and reported costs |
| `Rebalance.dfy`, `RebalanceNormalized.dfy`, `PortfolioCosts.dfy` | the portfolio kernels with raw and with normalized weights; the cost overlay on them |
| `IntradayHedge.dfy` | the delta hedge, its trigger mirror, carried-forward marks |
| `Detectors.dfy` | crossing ladders, run and window tests, pulses across gaps, two-threshold episodes |
| `Autosave.dfy` | the coalescing autosave hook as an event-driven state machine |
| `CoverageCache.dfy` | the TTL and LRU cache with single-flight fetches, in steps between awaits |
| `Wrappers.dfy` | options, absolute value, maximum |

What a reader would not get from reading the code:

- The one-candidate automaton loses exactly those completions whose every match has its head matched again on the
  way. With two stages none is lost (`SingleWithinMulti`, `TwoStageEqual`), with three some are (`ThreeStageMiss`).
- The in-loop automaton, whose resets are the closes that its own fires lead to, is the stand-alone detector run on
  those closes (`FeedbackRefinement`).
- Fixed-contract P&L, written as fractions of the running equity, is a plain book that buys a quantity at each open,
  marks it to the last quote every bar and sells it at the quote of the bar that closes it, the hedge with its clip and
  freeze included, up to ruin and exactly 0 from ruin on, under two conditions (`HoldIsPlainBook`).
  - A roll that the leg is held over leaves no gap: its open is positive, or the next bar is quoted, or the leg does not
    stay in that contract. The comment that "the seam is exact" at a roll fails without it: when the open is missing, or
    quoted at 0 or below, `GapIsBooked` loses 60% of the equity to the gap between two contracts. `SeamExactIff` says
    for every roll exactly when the seam is exact.
  - The lots sold on a bar make nothing on the step into that bar. The engine does not book that step: a leg that closes
    on the move that stopped it out never books that move (`CloseIsMissed`: an equity of 1 where the book has 2;
    `CloseExactIff` for any segment). tcg/engine/hold_pnl.py:156-159 documents the position mask as "open on the step
    START", which would book it, and so do the vectorized inputs (tcg/engine/signal_exec.py:2301); the code asks for
    both ends of the step (tcg/engine/hold_pnl.py:360-365), as does tcg/engine/costs.py:181. Given the first condition
    this second one is necessary too.
- The delta overlay of a held leg leaves nothing of the hedged fraction of its delta while the cap allows, and exactly the
  excess, on the same side, beyond it (`HedgeOffsets`); it is sized on the latest rebalance bar of the leg's own segment
  (`HedgeLaw`), so that a full hedge books exactly nothing on a step that moves option and hedge together (`HedgedStep`).
- Without a rebalance the normalized kernel is buy-and-hold for all returns exactly when no leg is short or there are at
  most two bars (`NormalizedIsHoldIff`): a short leg compounds the inverted returns.
- With a boundary at every bar the periodic kernel holds what the daily kernel holds, but the cost of restoring the
  weights after a bar is charged one bar later than there (`BoundaryBilledLate`), and the first boundary is free. The
  comment at tcg/engine/metrics.py:901 has the boundary trade on the step that follows it; the trade is made before the
  boundary bar's own return.
- Recompounding the returns derived from a gross curve gives that curve back only up to its first 0 and stays at 0 from
  there (`RecompoundedGross`).
- An episode condition fires at "the first bar back past `exit`" for every operand series exactly when no bar with
  crossed thresholds lies between two bars on which both thresholds are present (`PlainReadingIff`).
- The promise of a coalesced `saveNow` says that the save launched for it is over. The hook's comments have it that the
  payload is stored by then; that holds exactly when the save succeeded or the payload was stored already, by an earlier
  save or by a faster later one after a reset (`SettledIsStoredIff`, `PromiseMeans`; `SettledIsNotStored` is a run where
  it fails). They also have it that the promise chains onward when another save is queued behind: it never does
  (`NeverChains`, `SettlesBeforeRestart`).
- The reported cost exceeds the drag that the account bore exactly when a step with a cost loses more than all of the
  equity (`ReportedCovers`).

## Model

| member | source | states |
|---|---|---|
| Automaton.SequenceActive | tcg/engine/signal_exec.py:1096-1142 | Without exit resets the detector loop fires at t if and only if a match of the groups ends at t whose head is the latest before t; with them, if and only if such a match has no reset after its head. No stage never fires, one stage is its condition |
| Automaton.FiresIff | tcg/engine/signal_exec.py:1107-1142 | It fires at t if and only if bars b0 < … = t match the groups one after the other, each at its first match inside its window with no missing operand while awaited and no reset after b0, and no head matches strictly between b0 and t |
| Automaton.MultiFiresIff | tcg/engine/signal_exec.py:1086-1095 | An automaton that follows every candidate fires at t if and only if some such match ends at t, whatever heads lie between |
| Automaton.SingleWithinMulti | tcg/engine/signal_exec.py:1086-1095 | The fires of the first are fires of the second for any number of stages, and it misses one exactly when every match ending there has its head matched again |
| Automaton.TwoStageEqual | tcg/engine/signal_exec.py:1092-1094 | With two stages both fire on the same bars |
| Automaton.TwoStageExact | tcg/engine/signal_exec.py:1069-1085 | With two stages: the second group is true, and some head within the window has no second match, no missing second operand and no reset since |
| Automaton.ThreeStageMiss | tcg/engine/signal_exec.py:1088-1092 | A concrete three-stage chain over four bars where a completion is lost |
| ChainStages.LinkGroups | tcg/engine/signal_exec.py:935-984 | The conditions are cut at exactly the in-range boundaries with a positive window, in order and without gaps; none if there is no boundary, else at least two groups and every window at least 1 |
| ChainStages.BlockChainStages | tcg/engine/signal_exec.py:1240-1298 | A stage holds when all its conditions do and is missing when one is; the block's mask is the bars on which any condition is; the chain has two stages or more |
| LatchLoop.Loop.StepBar | tcg/engine/signal_exec.py:1964-2126 | The passes of one bar, each a loop over mutable state, give the specified next state and record the exit and reset conditions that fired |
| LatchLoop.Loop.ClearPass | tcg/engine/signal_exec.py:1982-2022 | Each open entry is closed by the first exit that is true, unbound or armed, and lists it, and by nothing else; an exit is spent only if it closed something |
| LatchLoop.Loop.ResetPass | tcg/engine/signal_exec.py:2091-2114 | A reset counts down its disarmed blocks, arms those that reach zero and is recorded if it armed any |
| LatchLoop.Loop.RunAll | tcg/engine/signal_exec.py:1925-2126 | The loop over all bars computes `Run`, of which `LatchBars` and `LatchRuns` say what each bar and each run does, and the exit and reset traces of all bars |
| LatchLoop.EffectsAreFired | tcg/engine/signal_exec.py:1974-1980 | Every effective exit and every arming reset is in its trace |
| LatchLoop.Loop.DeriveTrades | tcg/engine/signal_exec.py:2569-2609 | The k-th open of an entry is paired with its k-th close, if there is one |
| LatchLoop.AdvanceCandidate | tcg/engine/signal_exec.py:2024-2063 | The duplicated in-loop automaton takes the same step as the stand-alone detector |
| LatchBars.ClosesIff | tcg/engine/signal_exec.py:1982-2009 | On every bar of a run an open entry is closed by exit j if and only if j is true, is unbound or armed, lists the entry by name, and no earlier exit does all three; nothing else closes one |
| LatchBars.EffectiveIff | tcg/engine/signal_exec.py:2010-2022 | An exit is recorded as effective on exactly the bars on which it closes an entry |
| LatchBars.LatchedIff | tcg/engine/signal_exec.py:2065-2089 | After a bar an entry is open if and only if it fired on it unbound or armed and flat once the exits had acted, or was open and no exit acted; opens and fires are recorded on exactly those bars |
| LatchBars.ArmingsIff | tcg/engine/signal_exec.py:2091-2114 | A reset is recorded as effective on exactly the bars on which it fires and a block bound to it that was or became disarmed ends up armed |
| LatchBars.PositionIsWeight | tcg/engine/signal_exec.py:2116-2126 | The position of an input at a bar, in percent, is the sum of the configured weights, signs included, of the entries open at the end of that bar |
| LatchRuns.Ledger | tcg/engine/signal_exec.py:1950-1955 | At every bar opens exceed closes by one if the entry is latched and by none otherwise, and opens[k] < closes[k] ≤ opens[k+1] |
| LatchRuns.TradesStable | tcg/engine/signal_exec.py:1950-1955 | Whether a bar lies in some trade [open, close) of an entry is whether the entry was latched at the end of that bar, whatever comes later |
| LatchRuns.ActiveIffInTrade | tcg/engine/signal_exec.py:2116-2126 | An entry is reported active on exactly the bars its trades contain |
| LatchRuns.PositionIsOpenTrades | tcg/engine/signal_exec.py:2569-2610 | The raw net position of an input at any bar is the sum of signed weights of the derived trades, in any order, whose [open, close) contains the bar |
| LatchRuns.EntryArm | tcg/engine/signal_exec.py:1925-1948 | A bound entry is armed if and only if it never opened or its reset fired at least max(1, count) times from its last open on; between two opens it always did |
| LatchRuns.ExitArm | tcg/engine/signal_exec.py:1994-2022 | The same for a bound exit and the bars on which it closed something |
| LatchRuns.ActsAtMostOnce | tcg/engine/signal_exec.py:1942-1944 | Blocks bound to a reset that does not fire act at most once |
| LatchRuns.FeedbackUpTo | tcg/engine/signal_exec.py:2024-2063 | At every bar the in-loop candidate is that of the detector reset on the entry's closes so far |
| LatchRuns.FeedbackRefinement | tcg/engine/signal_exec.py:2024-2063 | Over a whole run an in-loop chain fires on exactly the bars of the detector reset where that entry's own trades closed |
| HoldPnl.CompoundWithHold | tcg/engine/hold_pnl.py:242-629 | The sequential pass computes the equity, the loss caps and every leg's contribution of the recurrence that `HoldSeams`, `HoldHedge` and `HoldBook` spell out |
| HoldPnl.CompoundClamped | tcg/engine/signal_exec.py:1326-1352 | The loop without hold legs computes the clamped equity and loss caps |
| HoldPnl.NoHoldLegs | tcg/engine/hold_pnl.py:513-531 | Without hold legs the two compounders have the same equity and the same ruin |
| HoldProofs.EquityNonNegative | tcg/engine/hold_pnl.py:513-531 | Equity is never negative and is 0 exactly when the account is wiped |
| HoldProofs.RuinAbsorbs | tcg/engine/hold_pnl.py:353-358 | Once 0, equity is exactly 0 on every later bar |
| HoldProofs.ScaleRange | tcg/engine/signal_exec.py:1316-1323 | The step scale lies in [0, 1] |
| HoldProofs.RealizedPnl | tcg/engine/signal_exec.py:2464-2474 | The per-input series is the running sum of scaled contributions |
| HoldProofs.AccountReconciles | tcg/engine/signal_exec.py:2443-2474 | At every bar, through ruin, the inputs' realized P&L adds up to equity − 1 plus the cost drag borne |
| HoldProofs.ClampedReconciles | tcg/engine/signal_exec.py:1316-1323 | The same for the compounder without hold legs |
| HoldBook.HoldIsPlainBook | tcg/engine/hold_pnl.py:258-272 | For any mix of legs, both sizing modes, missing quotes, tail carry-forward, hedge, and rolls that leave no gap: on all bars up to t equity times capital is the NAV of a book that buys at each open, marks daily and sells at the closing quote, while that NAV has stayed positive, and 0 afterwards, if and only if the lots it sells make nothing on the steps that sell them (or ruin it either way) |
| HoldBook.HedgeScales | tcg/engine/hold_pnl.py:43-112 | The hedge is proportional to the option quantity, its guard and cap included |
| HoldHedge.HedgeOffsets | tcg/engine/hold_pnl.py:43-88 | The hedge takes the given fraction of the options' delta off: nothing of it is left while the cap allows, and beyond it exactly the excess, on the side it was on; an unusable unit delta hedges nothing |
| HoldHedge.HedgeLaw | tcg/engine/hold_pnl.py:428-512 | A step of a held segment books quantity times the move of the mark plus hedges times the move of their price; the hedges offset the leg's quantity by the delta of the latest rebalance bar of the segment that the overlay ran on, or of the first with a delta |
| HoldHedge.HedgedStep | tcg/engine/hold_pnl.py:443-456 | When the option moves by delta · x and the hedge by its unit delta · x within the cap, the step books 1 − factor of the option's move, and nothing under a full hedge |
| HoldBook.BookMatches | tcg/engine/hold_pnl.py:360-512 | One booked fraction of equity is what marking the lot makes, in dollars, hedge included, less what it makes on being sold |
| HoldBook.ResizeMatches | tcg/engine/hold_pnl.py:533-627 | Resizing a leg is trading the lot at the same open, reference price and NAV |
| HoldSeams.OpenSizes | tcg/engine/hold_pnl.py:540-625 | A segment is sized off the equity of its opening bar: quantity times open price, or times the reference future's notional per option multiplier, is sign · nav_times · equity, with the roll's or the day's price and the reference in its order of fallback; an open that cannot be sized changes no quantity |
| HoldSeams.InactiveIsFlat | tcg/engine/hold_pnl.py:360-376 | An inactive leg holds nothing, and a leg books only a step that it holds units over and is active at both ends of |
| HoldSeams.SegmentTelescopes | tcg/engine/hold_pnl.py:378-427 | Over a held segment the booked dollars are the quantity times (last quote − segment open), whatever quotes are missing |
| HoldSeams.GapIsBooked | tcg/engine/hold_pnl.py:378-393 | After a roll whose open is missing or not positive and that no quote follows, a leg loses 60% although its old contract did not move and its new one has a single quote |
| HoldSeams.SeamExactIff | tcg/engine/hold_pnl.py:378-427 | Over any roll, the dollars booked up to any later bar are the new contract's own move from its open, or else its first quote, if and only if the open is positive, or the next bar is quoted, or none is, or that level repeats the old quote, or no units are held |
| HoldSeams.CloseExactIff | tcg/engine/hold_pnl.py:360-376 | A leg that closes on bar b + 1 has booked its whole move up to the closing quote if and only if it has no quote there, or the one before again, or no units |
| HoldSeams.CloseIsMissed | tcg/engine/hold_pnl.py:360-376 | A leg bought at 10 that closes at 20: equity stays 1 where the book has 2 |
| HoldCosts.NotionalFractions | tcg/engine/hold_pnl.py:661-745 | The replay loop computes the notional fraction of the replayed segment at every bar, 0 while it holds none |
| HoldCosts.ReplayInStep | tcg/engine/hold_pnl.py:686-745 | Before ruin the replay holds the same (holding, premium, reference price) as the P&L recurrence at every bar |
| HoldCosts.FractionIsQuantity | tcg/engine/hold_pnl.py:638-648 | The billed fraction times the sizing equity is \|quantity\| times the segment premium |
| HoldCosts.OpeningFraction | tcg/engine/hold_pnl.py:638-656 | On any bar, the first included, that sizes the leg before ruin, the billed fraction times that bar's equity is \|quantity\| times the open premium |
| Costs.HoldLegTurnover | tcg/engine/costs.py:198-249 | The two billing passes give the specified turnover of each bar, on both notional bases |
| Costs.RollBillsBothSides | tcg/engine/costs.py:231-249 | A roll the leg is held across is billed the closing plus the opening fraction; any other bar the change of the fraction held |
| Costs.SegmentIsScalar | tcg/engine/costs.py:194-197 | Fed \|nav_times\| while active and 0 otherwise, the per-segment billing is the scalar one |
| Costs.LifetimeTurnover | tcg/engine/costs.py:163-180 | Lifetime turnover is \|nav_times\| × (opens + closes + 2 × rolls survived held) over bars before the last |
| Costs.EstablishTurnover | tcg/engine/costs.py:99-129 | The turnover of each bar is what it takes from the drifted weights to the new ones; none for no bars, an index error for one |
| Costs.EstablishedAnew | tcg/engine/costs.py:99-129 | The first bar, and any bar after a step that left nothing or is not finite, is billed Σ \|weight\| |
| Costs.EstablishTrades | tcg/engine/costs.py:99-129 | Any other bar is billed, per unit of what the whole has become, the distance of the legs, moved by their own returns, from the new weights of that whole |
| Costs.HeldIsEstablished | tcg/engine/costs.py:185-189 | Without rolls, a held leg is billed as the same weight would be under zero returns |
| Costs.SplitDrag | tcg/engine/costs.py:252-258 | Each drag is its basis points of the turnover |
| Costs.CumulativeCostPct | tcg/engine/costs.py:261-282 | The reported cost is 100 × Σ drag × equity at the start of the step, over the finite steps |
| Costs.ReportedCovers | tcg/engine/signal_exec.py:2459-2467 | The reported cost is never less than the drag borne, and more exactly when some step with a cost took the account below 0 |
| Costs.ReportedBeforeRuin | tcg/engine/signal_exec.py:2459-2467 | Before ruin the two are equal |
| Rebalance.DailyRebalance | tcg/engine/metrics.py:504-550 | The loop over legs and bars, compounded, gives the daily kernel's equity before costs, and every leg its weight's share of it |
| Rebalance.BuyAndHoldKernel | tcg/engine/metrics.py:594-647 | The loop over leg curves, with the leverage base shift, gives the buy-and-hold equity before costs, and the leg curves |
| Rebalance.PeriodicLevered | tcg/engine/metrics.py:734-887 | The notional loop gives the specified NAV, leg magnitudes and boundary turnover |
| Rebalance.LeveredEveryBar | tcg/engine/metrics.py:844-887 | With a boundary at every bar the raw-weight periodic equity is the daily one, for any weights |
| Rebalance.LeveredNoBoundary | tcg/engine/metrics.py:575-592 | With no interior boundary it is the buy-and-hold equity, for any weights, long or short |
| Rebalance.LeveredCash | tcg/engine/metrics.py:845-850 | Between boundaries NAV − Σ notional does not change |
| Rebalance.LeveredBoundary | tcg/engine/metrics.py:845-850 | A boundary multiplies NAV by the weighted return and by nothing else |
| Rebalance.LeveredTurnoverZero | tcg/engine/metrics.py:856-864 | A boundary is billed nothing exactly when it has nothing to trade |
| Rebalance.LeveredTurnoverTrades | tcg/engine/metrics.py:856-864 | Turnover times NAV is Σ \|target notional − drifted notional\| |
| RebalanceNormalized.PeriodicNormalized | tcg/engine/metrics.py:734-843 | The value loop gives the specified equity, leg values and boundary turnover |
| RebalanceNormalized.TurnoverZero | tcg/engine/metrics.py:801-813 | A redistribution is billed nothing exactly when it moves nothing |
| RebalanceNormalized.TurnoverTrades | tcg/engine/metrics.py:801-813 | Turnover times the total is Σ \|value after − value before\| over all legs |
| RebalanceNormalized.RefundConserves | tcg/engine/metrics.py:764-813 | A boundary redistribution conserves the total, whatever legs are dead or short |
| RebalanceNormalized.DeadStaysDead | tcg/engine/metrics.py:766-785 | A leg with a weight of 0 or more that reaches 0 is 0 on every later bar |
| RebalanceNormalized.NormalizedEveryBar | tcg/engine/metrics.py:744-843 | With a boundary at every bar, capital left and no dead long leg, it is the daily kernel, long or short |
| RebalanceNormalized.NormalizedNoBoundary | tcg/engine/metrics.py:744-843 | With no boundary, a long-only book is buy-and-hold |
| RebalanceNormalized.NormalizedIsHoldIff | tcg/engine/metrics.py:833-838 | For given weights and bars, no boundary means buy-and-hold for all returns if and only if no leg is short or there are at most two bars |
| RebalanceNormalized.ShortBookDiffers | tcg/engine/metrics.py:833-838 | The simplest short book: 25 against −25 after two bars |
| PortfolioCosts.DeriveReturns | tcg/engine/metrics.py:220-240 | The reported returns are the relative moves of the equity, and none off a 0 |
| PortfolioCosts.ApplyCosts | tcg/engine/metrics.py:657-677 | The overlay compounds the held-flat derived returns less both drags from 100, and reports of each drag 100 × Σ drag × net equity at the start of the step / first equity |
| PortfolioCosts.NetGrowth | tcg/engine/metrics.py:657-677 | Over each step that does not start at 0, net after × gross before is net before × (gross after − drag × gross before) |
| PortfolioCosts.DailyWithCosts | tcg/engine/metrics.py:519-545 | The daily kernel with costs: turnover of the daily drift plus rolls, both drags off the raw returns, compounded once |
| PortfolioCosts.DailyIsOverlay | tcg/engine/metrics.py:519-545 | That is what the overlay makes of the daily gross curve, as long as the gross curve has not touched 0 |
| PortfolioCosts.RecompoundedGross | tcg/engine/metrics.py:243-272 | Without drags that gives the gross curve back up to the first bar at 0, and 0 from then on |
| PortfolioCosts.CostsNeverHelp | tcg/engine/metrics.py:657-677 | With drags of 0 or more, while the gross curve is positive and no step costs more than it leaves, the net curve lies between 0 and the gross one |
| PortfolioCosts.BoundaryBilledLate | tcg/engine/metrics.py:897-902 | With a boundary at every bar, the turnover of bar s + 1 is what the daily kernel is billed on bar s |
| PortfolioCosts.FirstBoundaryFree | tcg/engine/metrics.py:855-864 | The first boundary is billed nothing |
| IntradayHedge.LastKnownAtOrBefore | tcg/engine/intraday_backtest.py:143-159 | The latest bar at or before the time, or none when all are later |
| IntradayHedge.SnapNearest | tcg/engine/intraday_backtest.py:117-140 | The earliest bar at the least distance, or none when no bar is within the tolerance |
| IntradayHedge.RunHedge | tcg/engine/intraday_backtest.py:767-830 | The hedge loop records the trades and the P&L of the specified walk, and every trade leaves of its net delta what the target says |
| IntradayHedge.TradesOnTarget | tcg/engine/intraday_backtest.py:604-620 | Every trade recorded leaves of the net delta nothing, the band on the delta's side, or 1 − ratio of it |
| IntradayHedge.EntryTraded | tcg/engine/intraday_backtest.py:712-736 | The first trade is the entry's, at its price and to the target, whatever the conditions |
| IntradayHedge.TradedWhenDue | tcg/engine/intraday_backtest.py:623-736 | A later bar records a trade if and only if it lies before the endpoint, the interval, delta drift or sigma move since the last trade is reached, and every condition lets the trade to the target through; it is at the bar's price, and nothing else is recorded |
| IntradayHedge.FindTriggerFire | tcg/engine/intraday_backtest.py:496-576 | The scan returns the first fire on the same walk up to the scheduled exit |
| IntradayHedge.EvalIff | tcg/engine/intraday_backtest.py:408-458 | A trigger fires with v if and only if v is the quantity that it watches, in its unit, and is past its level: a loss trigger on a loss of the amount, a profit trigger on a gain |
| IntradayHedge.FireIff | tcg/engine/intraday_backtest.py:496-576 | The scan returns the trigger that is met at the earliest point, the first listed at that point, with its time and quantity, and nothing exactly when none is met |
| IntradayHedge.PositionIs | tcg/engine/intraday_backtest.py:526-528 | The P&L that triggers see is the gain of the marks on the premium for a long straddle, its negative for a short one, plus the hedge's |
| IntradayHedge.BlotterIdentity | tcg/engine/intraday_backtest.py:779-830 | The path-summed P&L is final quantity × off price − Σ (change of quantity) × underlying over the recorded trades alone; none is recorded at the endpoint |
| IntradayHedge.MirrorAgrees | tcg/engine/intraday_backtest.py:681-705 | Hedge and mirror have the same state, P&L and trades at every ES bar strictly before both endpoints, whatever the endpoints' prices |
| IntradayHedge.NoLookAhead | tcg/engine/intraday_backtest.py:496-576 | Whether and how a trigger fires at or before t is unchanged by any bar or mark after t: for t before the scheduled exit, and for the exit itself when some ES bar is known by then |
| IntradayHedge.BlindAfterExitIff | tcg/engine/intraday_backtest.py:595-597 | For a given day, no bar or mark after the exit changes what fires if and only if some ES bar is known by the exit |
| Detectors.CrossSinceReset | tcg/engine/signal_exec.py:757-773 | Fires on exactly the crossings whose number since the last reset is a multiple of the count |
| Detectors.ConsecutiveTrue | tcg/engine/signal_exec.py:776-799 | The prefix-sum test is a full trailing window of true bars |
| Detectors.CrossCount | tcg/engine/signal_exec.py:689-701 | The prefix-sum test is at least `count` crossings in the trailing window, the current bar unmasked |
| Detectors.ToPulse | tcg/engine/signal_exec.py:1027-1046 | Masked pulses are the plain rising edges of the series with its gap bars deleted, put back on their bars |
| Detectors.HysteresisEpisode | tcg/engine/signal_exec.py:825-847 | The latch loop fires on the bars of `EpisodeFires` |
| Detectors.PlainReadingIff | tcg/engine/signal_exec.py:808-824 | For given thresholds and direction, "the first valid bar past `exit` after a bar past `enter`" holds of every operand series if and only if no bar with crossed thresholds lies between two bars where both are present |
| Detectors.EpisodeFiresIff | tcg/engine/signal_exec.py:825-847 | For any thresholds the latch fires at exactly the first valid bar past `exit` after a bar past `enter` that did not fire itself |
| Detectors.EpisodeExact | tcg/engine/signal_exec.py:808-824 | With thresholds that do not cross: exactly the first valid bar past `exit` after a bar past `enter` |
| Detectors.CrossedThresholds | tcg/engine/signal_exec.py:811-814 | An input with crossed thresholds where that reading fails |
| Autosave.StepKeeps | frontend/src/hooks/useBackendAutosave.js:135-285 | Every event keeps: one live save, payloads in order, nothing unsent unscheduled, at most one promise queued, every promise served by a later save |
| Autosave.AutosaveRuns | frontend/src/hooks/useBackendAutosave.js:30-60 | Over every run: at most one non-aborted save in flight; saves in edit order; when idle after a success with nothing discarded, the newest payload was the last sent, and it succeeded; a coalesced promise settles by a reset or by a later save with a payload at least as new that is over, and none dangles |
| Autosave.SupersededNeverRestarts | frontend/src/hooks/useBackendAutosave.js:159-193 | An aborted save that settles launches nothing and changes no status |
| Autosave.FlushSaves | frontend/src/hooks/useBackendAutosave.js:201-235 | A flush, like the timer, saves what is scheduled at once or queues it behind the save in flight, and does nothing when nothing is scheduled |
| Autosave.SettleShows | frontend/src/hooks/useBackendAutosave.js:157-193 | When the active save settles a queued restart sends the newest payload; otherwise success, failure and abort show as saved, error and idle |
| Autosave.SettledIsStoredIff | frontend/src/hooks/useBackendAutosave.js:128-147 | When the save that a promise waits for settles, so does the promise, and its payload is then stored if and only if that save succeeded or one stored it before: an earlier save, or a later one if this one was aborted |
| Autosave.PromiseMeans | frontend/src/hooks/useBackendAutosave.js:107-113 | The same over every run: a promise that a save settles does so on that save's settlement, with that meaning |
| Autosave.SettledIsNotStored | frontend/src/hooks/useBackendAutosave.js:140-147 | A run in which a coalesced promise settles although its payload's save failed |
| Autosave.NeverChains | frontend/src/hooks/useBackendAutosave.js:143-146 | When a restart is queued behind that save, the promise settles while the restart's own save is in flight |
| Autosave.SettlesBeforeRestart | frontend/src/hooks/useBackendAutosave.js:143-146 | A run where that happens |
| Autosave.Hook.OnSettle | frontend/src/hooks/useBackendAutosave.js:157-193 | The settlement handlers take the specified step |
| Autosave.Hook.OnSaveNow | frontend/src/hooks/useBackendAutosave.js:249-267 | An explicit save launches or queues, and hands back the matching promise |
| Autosave.Hook.OnReset | frontend/src/hooks/useBackendAutosave.js:210-228 | A reset drops the timer, the queue and the promise and aborts the live save |
| Autosave.Hook.OnFlush | frontend/src/hooks/useBackendAutosave.js:230-235 | A flush saves only what is scheduled |
| Autosave.Hook.OnTimer | frontend/src/hooks/useBackendAutosave.js:277-281 | A due debounce launches, or queues behind the live save |
| CoverageCache.StepKeeps | tcg/data/_options_coverage_cache.py:161-225 | Every step between awaits keeps: one fetch per key, the store in order of use and within capacity, entries backed by the last result, waiters tied to their flight |
| CoverageCache.CacheRuns | tcg/data/_options_coverage_cache.py:187-225 | Over every interleaving: one running fetch per key; a leader has what its fetch returned or raised, and an answered waiter has the same; a hit is the latest success for its key, every fetch in between having failed, no older than the TTL; the store never exceeds its capacity |
| CoverageCache.LeastRecentlyUsed | tcg/data/_options_coverage_cache.py:161-185 | After any run, where a key is used by a call served from the store or a fetch that succeeds: a stored key has fewer than `max_entries` unexpired keys used since its last use; a key that left without expiring has at least that many; so while nothing has expired the store holds exactly the keys with fewer |
| CoverageCache.EvictsLeastRecent | tcg/data/_options_coverage_cache.py:178-185 | A fetch that succeeds after any run stores its result, changes no other entry, and removes a key only from a full store: one, whose last use is the earliest of all stored |
| CoverageCache.RefetchedOnlyIfGone | tcg/data/_options_coverage_cache.py:187-211 | A key used before is fetched again only if its entry is too old, expired before, or made room for that many keys used since |
| CoverageCache.FreshIsHit | tcg/data/_options_coverage_cache.py:161-176 | A call is served from the store if and only if its key's entry is no older than the TTL; only an entry that is too old leaves |
| CoverageCache.FailureIsRetried | tcg/data/_options_coverage_cache.py:212-219 | A failed fetch leaves the store alone, and the next call for its key fetches |
| CoverageCache.Cache.Begin | tcg/data/_options_coverage_cache.py:201-212 | A call up to its first await is a hit, a wait or a new fetch, as specified |
| CoverageCache.Cache.Complete | tcg/data/_options_coverage_cache.py:221-225 | A fetched span is stored, its key freed and its flight resolved |
| CoverageCache.Cache.Abandon | tcg/data/_options_coverage_cache.py:214-219 | A failure frees the key and fails the flight, and stores nothing |
| CoverageCache.Cache.Lookup | tcg/data/_options_coverage_cache.py:161-176 | A lookup drops an entry that is too old, returns a fresh one and moves it to the recent end, and changes nothing else |
| CoverageCache.Cache.Store | tcg/data/_options_coverage_cache.py:178-185 | Storing puts the entry at the recent end and evicts from the other while over capacity |

## Left out

- Floating-point rounding and overflow: values are reals, so claims about identical bytes are not modelled, nor are the
  branches for a non-finite step, factor or equity.
- Logarithmic returns, annualisation, Sharpe, volatility and the other summary metrics; only simple returns are modelled.
- Operand fetching, calendar alignment, indicators, and the plain comparison, range and rolling conditions: conditions
  arrive as truth and missing-data arrays.
- Which bars of an input contribute to the vectorized step (price guards, position lag): the summed steps are inputs.
- LatchLoop.Loop.DeriveTrades: without names and direction labels, which are functions of the blocks, and without the
  final sort by open bar and block id: `PositionIsOpenTrades` holds of the trades in any order.
- Blocks are told apart by position, which presumes distinct ids; entry names are distinct.
- The one-stage return of the stand-alone detector ignores exit resets; grouping never produces one stage.
- CrossCount: assumes a window of at least 1, as the API validates.
- The option pricing kernel: an arbitrary function of time, forward and marks; so is the square root of time to expiry.
- Leg entry and exit scans, day simulation and aggregation of the intraday backtest.
- Rebalance.DailyRebalance: before costs; with costs it is `PortfolioCosts.DailyWithCosts`.
- Rebalance.BuyAndHoldKernel: before costs; the overlay that its equity goes through is `PortfolioCosts.ApplyCosts`.
- The calendar rule that makes a rebalance boundary: the mask of boundaries is an input.
- Turnover of continuous-future rolls and `roll_turnover_from_flags`: shallow sums.
- Unmounting the autosave hook, remounts, `setStatus` from outside, and the in-flight promise ref, which only its own
  bookkeeping reads.
  A settlement and its handler are one step, and so are an edit and its effects; the debounce period is fixed.
- Cancelling a task that waits for the cache; the cache-key builders and the environment switches. Keys, spans and
  errors are numbers, and the clock does not run backwards.
- The cache over SQLite, the repository over PostgreSQL, the series LRU caches and the statistics helpers: shallow, or
  resting on the database.
