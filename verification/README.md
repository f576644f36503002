# Apex Trader: a verified model

Apex Trader sizes equity trades, passes them through three risk layers, sends them to a broker, keeps a portfolio
ledger mirrored in a database, and writes a hash-chained compliance log. This project models the stateful and
arithmetic core of that program in Dafny and proves what it promises. Code that changes state step by step is modelled
as classes and loops that are proved against specification functions; code that only computes is modelled as
functions; laws over whole runs are lemmas.

| module | what it models |
|---|---|
| `OrderBook`, `Venue` | the account at the broker, and the broker and market as an adversary that moves at every await |
| `TradeTable` | the trade-record table |
| `LiveLedger`, `LiveSafety`, `LiveResults`, `ExecutionEngine` | the live order protocol: positions and their rows, entries, protective stops, exits, the position monitor, the square-off, the kill switch, reconciliation and its retry, restarts |
| `LiveHazards` | the states and interleavings in which that protocol breaks its promises, and exactly when |
| `Protection`, `Reconciliation` | checking a stop report, and comparing the ledger with the broker |
| `Idempotency` | order keys by time bucket and claims that expire |
| `Sizing`, `Risk`, `Limits` | the position sizer, the three risk layers, and the pipeline that joins them to the ledger |
| `Ledger`, `PortfolioStore`, `PortfolioMirror`, `LiveMirror` | the portfolio ledger, its database mirror, crash recovery, and ledger and database as the live protocol sees them |
| `Backtest`, `BacktestLaws` | the simulator and its laws |
| `EventStore`, `EventStoreLaws`, `Replay` | the hash-chained log and the reconstruction of the portfolio from it |

## The live protocol

Every await of the application is one turn of a script it cannot see (`Venue.Turn`): orders fill or end before and
after the call takes effect, the call may raise or be cancelled, the process may be killed, a write may commit
although it raised, a reply may be lost although the order was accepted, and a submission the application gave up on
may reach the broker at any later moment (`OrderBook.Arrive`). While one task waits, others take turns: a
reconciliation retry goes on or starts, saves run, a kill switch halts trading, an operator resumes it, and the
monitor's listing puts the degraded flag up (`ExecutionEngine.Engine.Others`, inside every await of an order step).
The theorems hold for every script. What the broker is trusted with is written out as predicates, and a reply that
breaks them reads as a failed query:

- fills are cumulative and final once the status is terminal, and a fill has a positive average price
  (`Venue.Truthful`);
- a position report lists every nonzero net, and the only row of a symbol carries its net (`Venue.Accurate`);
- nothing else trades the account;
- storage calls either take effect or do not, and the degraded flag is in force from the moment it is set.

*No oversell.* A symbol is *covered* when its net quantity is at least what its sell orders, working or under way, may
still sell; that is exactly when no sequence of arrivals and fills can make the net negative
(`OrderBook.CoveredMeansNeverShort`). The broker of the model notes every symbol that was uncovered at any moment. An
*orphan* is a sell order that went out and that the ledger does not know, or lost; it *works* while it can still sell,
also before it has arrived. Over any session of order steps, kills and restarts (`ExecutionEngine.LiveSession`,
`ExecutionEngine.Engine.Perform`):

- a step uncovers a symbol only if an orphan of that very symbol was working as the step began, or the ledger listed
  the symbol more than once, and all other symbols are covered throughout;
- a symbol that was never uncovered is safe as soon as its orphans have ended (`LiveSafety.SafeWithoutOrphan`);
- orphans arise in four ways: a stop goes out and its reply is lost or late; a stop is accepted and the await for its
  confirmation raises, is cancelled or killed before the id is stored; the process restarts and the database has
  another stop than the ledger did, or several open rows of the symbol; or a symbol is listed more than once, the stop
  of a later position sells, and the fill is booked on the first, whose stop stays behind. `CloseAndProtect`,
  `ProtectPurchase`, `Reload` and `BookStopSale` say so in their contracts, and a restart forgets a sell of a symbol
  exactly when the stored position is not safe without it (`LiveSafety.ForgetsExactly`), which never happens where the
  database has just the ledger's position of the symbol (`LiveSafety.AgreedIsKept`).

Each of the first three leads to a sale of shares the account does not have, the last of them in two ways.
`LiveHazards.OrphanedStopOversells`, `LiveHazards.LostReplyOversells`, `LiveHazards.LateStopOversells`,
`LiveHazards.RestartOversells` and `LiveHazards.DuplicateOversells` start from states in order and end ten shares
short with every guard of the exit satisfied; in `RestartOversells` nothing raised at all. The exact condition has two
parts: an exit that passes every guard stays covered in every market if and only if no sell order of the symbol is
working at the broker, and none is still under way (`LiveHazards.PassingExitSafeExactly`). The first is a question the
exit could put to the broker before it sells. The second is not: in `LateStopOversells` no sell works when the exit
checks, and the stop that timed out arrives after the sale. But the application's own record bounds it: only a
submission whose reply brought no id can still be under way, so with no such sell of the symbol outstanding the first
half is the whole condition (`LiveHazards.HeardExitSafeExactly`). `SubmitSale` ties this to the order sent: the sale
uncovers its symbol exactly when it exceeds the cover of the book it reaches.

*One symbol, several rows.* Nothing keeps a symbol to one open row. When a closing write fails, the row stays open; a
later fill of the symbol is stored beside it; a load brings both back, the stale position first; every lookup finds
the first, the closing write refuses two rows, and the comparison with the broker keeps the last, so that it can come
out clean over a first position whose stop is gone. `LiveMirror.FailedCloseDuplicates` is that run on the portfolio
store and `LiveHazards.DuplicateOversells` what the next exit does with it. The live model carries all of it: the
table has any number of rows a symbol, a ledger position has a `next` of the same symbol (`LiveLedger`). The exact
conditions: a stored fill leaves the database agreeing with the ledger about its symbol, and every symbol with one
open row, if and only if the symbol had none (`LiveLedger.RecordedAgreesExactly`, `LiveMirror.FillKeepsOnceExactly`),
which could be looked up before `record_fill`; and a load lists every symbol once if and only if no symbol has two
open rows (`LiveMirror.LoadListsOnceExactly`). The ghost set `overlaid` holds the symbols a fill was stored for over
an open row; no other symbol ever has two (`LiveSession`).

*Protected or degraded.* After every step each ledger position has a tracked stop whose last report confirmed a
working sell stop for exactly the position's quantity, or the degraded flag is up; exempt are the symbols in the ghost
set `exposed`. Only a restart or the verdict of a reconciliation retry takes the flag down
(`ExecutionEngine.Engine.Perform`), and the retry is a task of its own: its turns fall between the order steps and
into their awaits. Inside a step the contracts therefore speak of `alarm`, which says that the flag went up; it *is*
up as long as no retry gave a verdict meanwhile (`ExecutionEngine.Engine.FlagKept`), and between steps the two are
one. If no order step came between a retry's first read and its verdict, the verdict is right (`RetryTurn`,
`RetryConfirms`). Otherwise it may take the flag down over a stop that no longer confirms:
`LiveHazards.RetryClearsTooMuch` is an interleaving. The verdict comes in the same turn as the last of the retry's
answers, so whatever other tasks do comes before an answer, the first or a later one, and never after the last.
`LiveHazards.VerdictRightExactly` says when it does harm: for any rows, any ledger, and any number of looks of the
monitor and of entries before each answer, the verdict is right whatever looks, entries and answers say if and only if
the rows could not come out clean anyway, or no look comes after the first answer and no entry at all. `exposed` holds
the positions that verdicts left open, and the symbols a load listed more than once. It grows only with a verdict that
an order step came in between (counted by `disturbed`), or at a restart with overlaid symbols, and the next look that
confirms the stop takes a symbol listed once out of it.

*Bounded uncertainty.* After every step, also one that raised or was killed half-way, at most one entry in all and at
most one exit per symbol is unresolved.

`LiveMirror` reads the protocol's ledger and table off the portfolio in memory and the position table of
`PortfolioStore`, and proves each repository call to be the step the protocol takes it for, whether the storage fails
or not, and however many rows and positions a symbol has.

## Where the code does less than its documentation

- Exits can oversell, a retry can take the degraded flag down too early, and a restart can report OK over a position
  whose stop is gone: see above.
- A call that raises may leave shares bought with no unresolved row and no flag up: after its row says bought and
  before the ledger does, or under a key whose earlier row is finished, then even before a stop went out
  (`LiveHazards.PurchaseUnseen`). In every other case something is left to see (`LeftToSee` in the contracts of
  `PlaceOrder` and `EnterPosition`).
- `repair_chain` on an empty ledger leaves a stale head file in place, so the next append is broken
  (`EventStoreLaws.StaleHeadSurvivesRepair`); `EventStoreLaws.AppendAfterRepair` gives the exact condition.
- A cached verification stays in force for two minutes after somebody else edits the log, and is right then exactly
  when the edit left the result alone (`EventStore.Store.VerifyEdited`); a record that lost its hash goes unseen
  (`EventStoreLaws.EditUnseen`). It equals a fresh one as long as only `append` and `repair_chain` write
  (`EventStore.Store.VerifyChain`).
- Reading the open orders is outside the square-off's exception handling: when that raises, trading is not halted,
  even after an exit failed. When the square-off raises at all, and no operator lifts a halt meanwhile, trading is
  halted if and only if it was halted before the call, one of its exits halted it (an order left unknown, or a booking
  not stored), another task did, or it was the last save that raised (`ExecutionEngine.Engine.EodSquareOff`).
- A zero peak is stored as the equity; a reload gives the ledger back exactly when the peak is not zero or equals the
  equity (`PortfolioMirror.ReloadIsLedger`).
- Two orders can go out for one time bucket when the first one's position was closed and a call claims the id two
  buckets after making it (`Idempotency.LateClaimDuplicates`). `Idempotency.SecondOrderExactly` says when: the first
  order's row is no longer open, which takes a closing or a rejection, and its claim is gone.
- The final quantity exceeds the sized one exactly when loss streak, volatility multiplier and throttle together add a
  whole share (`Risk.FinalQuantity`); a volatility multiplier of 1.5 does it (`Risk.MultipliersGrow`), and with
  multipliers of at most one it never happens (`Risk.ThrottledNeverGrows`).
- Every target exit the reward filter lets through wins if and only if exit slippage leaves at least the share `1 / (1
  + m)` of the price, `m` being the filter's ratio (`BacktestLaws.TargetWinsExactly`); `BacktestLaws.TargetMayLose` is
  a losing one.
- A purchase that polling could not settle keeps its unknown mark even after its end was confirmed and its stop
  attached (`CancelPurchase`), so its row blocks further entries (`PlaceOrder`, `PreExecutionBlock`).

## Model

| member | source | states |
|---|---|---|
| `ExecutionEngine.LiveSession` | services/execution/execution_engine.py:24-659 | from an empty ledger, any sequence of steps in any market, with submissions that arrive late, other tasks taking turns inside the steps, and any number of open rows a symbol: only a symbol one of whose sells the ledger lost was ever uncovered, no other can be taken short, and none without a working orphan is unsafe; while the process runs every position is confirmed or the flag is up, but for symbols exposed, and none is exposed unless a retry gave its verdict after an order step came in between, or a fill of it was stored over an open row; no other symbol has two open rows; uncertainty bounded |
| `ExecutionEngine.Engine.Run` | services/execution/execution_engine.py:137-659 | those invariants are inductive over entries, monitor passes, single checks, square-offs, kill switches, resumes, saves, the turns of a retry, and restarts, each free to raise or be killed at any await, and with the turns of other tasks inside the order steps |
| `ExecutionEngine.Engine.Perform` | services/gateway/main.py:36-75 | one step keeps the invariants and uncovers no symbol but one with an orphan working as it began, or one listed more than once; only a restart or a retry's verdict takes the flag down; only a verdict that an order step came in between exposes a position, or a restart an overlaid symbol; a symbol becomes overlaid only by an entry stored over an open row |
| `ExecutionEngine.Engine.PlaceExit` | services/execution/execution_engine.py:532-541 | an exception or cancellation inside an exit comes back as an unresolved exit with the degraded flag up, a kill leaves everything but the symbol's protection; a fill is that of a finished broker order and at most the position; booking it restores every invariant; the symbol is uncovered only over a working orphan; nothing is sent while an exit of the symbol is unresolved |
| `ExecutionEngine.Engine.PlaceExitInner` | services/execution/execution_engine.py:543-611 | whichever way an exit ends, the ledger changes only in the stop of its symbol, the account stays safe with the exit's fill booked, and new orphans are stops of that symbol, with the flag up or the call raised |
| `ExecutionEngine.Engine.ReleaseStop` | services/execution/execution_engine.py:561-577 | going on means no stop is tracked, and the one that was is final at the broker with nothing sold; a stop that sold ends the exit with its own fill, capped by the position, and the degraded flag up |
| `ExecutionEngine.Engine.CheckHolding` | services/execution/execution_engine.py:578-583 | going on means the broker's net equals the position and, orphans aside, nothing offers shares of the symbol |
| `ExecutionEngine.Engine.SubmitSale` | services/execution/execution_engine.py:585-587 | the sale decided on the book as it is uncovers its symbol exactly when it exceeds the cover of the book it reaches, and never in an exit that began with no orphan working |
| `ExecutionEngine.Engine.SettleSale` | services/execution/execution_engine.py:588-598 | a settled sale is final at the broker with exactly the fill reported; otherwise the row is marked and the degraded flag is up |
| `ExecutionEngine.Engine.CloseAndProtect` | services/execution/execution_engine.py:601-610 | what the sale left is covered by a stored stop confirmed for exactly the rest, or the degraded flag is up; every order placed is the stored stop or an orphan, whether its reply was lost or the call raised |
| `ExecutionEngine.Engine.AttachStop` | services/execution/execution_engine.py:481-530 | a stop handed back is the one the broker accepted, and either its last report confirms the whole quantity or the degraded flag is up and the row marked; an accepted stop may also go unheard |
| `ExecutionEngine.Engine.PlaceOnce` | services/execution/execution_engine.py:424-443 | one submission at most; whatever is not plainly accepted or refused is unknown, marked and degraded |
| `ExecutionEngine.Engine.MarkUnknown` | services/execution/execution_engine.py:400-406 | the degraded flag goes up before any of its awaits, even when one raises, and stays up but for a retry's verdict; on a normal return trading was halted, and is unless an operator resumed it meanwhile, and the row says unknown; the save writes the ledger or nothing |
| `ExecutionEngine.Engine.RecordResult` | services/execution/execution_engine.py:275-327 | the row carries the mapped status, unknown winning over a placed stop and a placed stop over the order status |
| `ExecutionEngine.Engine.PreExecutionBlock` | services/execution/execution_engine.py:241-273 | an entry passes only when no order at all is unresolved, never when trading was halted and nobody resumed it, and never when the flag was up and no retry took it down meanwhile; no order is sent here |
| `ExecutionEngine.Engine.SettlePurchase` | services/execution/execution_engine.py:377-398 | a purchase's reported fill is bought, never more than the order bought, covered by what the account holds, and stopped and confirmed or degraded |
| `ExecutionEngine.Engine.CancelPurchase` | services/execution/execution_engine.py:379-392 | a purchase asked about after its cancellation is settled with its final fill and keeps the unknown mark polling left, or it is marked and the degraded flag is up |
| `ExecutionEngine.Engine.ProtectPurchase` | services/execution/execution_engine.py:388-394 | the filled part is stopped and confirmed, or the flag is up; its stop uncovers nothing; when the call returns, every order placed is the stop handed back, an orphan, or can sell nothing |
| `ExecutionEngine.Engine.SubmitLive` | services/execution/execution_engine.py:367-398 | the same whatever raises on the way; an exception after acceptance leaves the row unresolved or the flag up, an unsettled order comes back marked and degraded with nothing to record, and nothing bought is lost silently |
| `ExecutionEngine.Engine.PlaceOrder` | services/execution/execution_engine.py:137-235 | degraded with no verdict meanwhile, halted with no resume meanwhile, or unresolved means no order reaches the broker, and none ever does without its row in the table; a fill handed to the ledger is backed and protected or degraded; a raise leaves nothing bought, an unresolved row, the flag up, or a row that says bought, unless the key had a finished row; an unknown result leaves a row that blocks further entries |
| `ExecutionEngine.Engine.EnterPosition` | services/core/orchestrator.py:317-360 | at most one new position, only in a symbol not held, of no more than its purchase bought, and exactly that when the result says filled, with the proposal's stop and target; a raise without a new position leaves what `PlaceOrder` leaves; no symbol is uncovered |
| `ExecutionEngine.Engine.StoreFill` | services/portfolio/manager.py:34-58 | on return trading was halted, or the row is stored: then the database has just the ledger's position of the symbol if it had no open row of it, and two open rows if it had one |
| `ExecutionEngine.Engine.AddPosition` | services/portfolio/repository.py:86-128 | a new row is added without looking for another; a symbol is noted as overlaid only when it had one; success leaves the database with two open rows of the symbol if it had one, and agreeing with the ledger otherwise |
| `ExecutionEngine.Engine.RecordExit` | services/portfolio/manager.py:60-120 | the fill leaves the first position of the symbol before the first await; on return the database has just what the ledger has of the symbol, or trading was halted |
| `ExecutionEngine.Engine.CloseStored` | services/portfolio/repository.py:149-190 | success leaves the database agreeing about the symbol; no open row, or several, never succeed |
| `ExecutionEngine.Engine.LookAtStop` | services/execution/lifecycle.py:75-104 | a position of the symbol is confirmed exactly when its stop's report passes, sold exactly when the report is complete for the whole quantity at a positive price, and degraded otherwise; with the flag down, no retry on its way and nobody else putting it up, report and flag change exactly as `LiveResults.AfterLook` says |
| `ExecutionEngine.Engine.CheckPosition` | services/execution/lifecycle.py:75-145 | the ledger changes at one symbol by exactly the shares of a finished broker sale, every invariant is kept, and the symbol is uncovered only over a working orphan; a new orphan comes with the flag up, or its symbol was listed more than once |
| `ExecutionEngine.Engine.BookStopSale` | services/execution/lifecycle.py:88-97 | a stop that sold its position is booked on the first position of the symbol, up to its quantity; when that goes and was another one, its stop becomes an orphan |
| `ExecutionEngine.Engine.TargetExit` | services/execution/lifecycle.py:106-143 | no order goes out unless the price read just before reached a positive target; what leaves the ledger is exactly what a finished broker sale sold |
| `ExecutionEngine.Engine.ClosePosition` | services/execution/lifecycle.py:179-212 | exactly the confirmed fill, capped by the first position of the symbol and only at a positive price, leaves the ledger; the latest open purchase is closed exactly when that position is gone and was the one meant |
| `ExecutionEngine.Engine.Tick` | services/execution/lifecycle.py:37-73 | a monitor pass over every position keeps every invariant, takes the degraded flag down on no path of its own, and uncovers only symbols with an orphan working as it began, or listed more than once |
| `ExecutionEngine.Engine.SquareOffOne` | services/execution/execution_engine.py:627-644 | what leaves the ledger is exactly what a finished broker sale sold, also when something raises after the booking |
| `ExecutionEngine.Engine.EodSquareOff` | services/execution/execution_engine.py:620-659 | each symbol holds what it did less exactly the fills booked; ok means every position was accounted for, the ledger is empty, nothing is unresolved and every net at the broker is zero; returning not ok means trading was halted; when it raises with no resume meanwhile, trading is halted exactly when it was before the call, an exit marked it, another task halted it or the last save raised, and an exception comes only from reading the open orders; only symbols with an orphan working at the start, or listed more than once, are uncovered |
| `ExecutionEngine.Engine.KillSwitch` | services/execution/execution_engine.py:613-618 | trading is halted before any await, whatever raises, and the invariants hold |
| `ExecutionEngine.Engine.Reconcile` | services/execution/reconciliation.py:6-50 | with nothing else running: OK means not degraded, nothing unresolved and the last position of every symbol confirmed by the report just received, which for a symbol listed once is its protection; the flag is down on no other path; the ledger is only read |
| `ExecutionEngine.Engine.BeginRetry` | services/execution/execution_engine.py:108-119 | a retry starts only while degraded, with what its first read says |
| `ExecutionEngine.Engine.RetryTurn` | services/execution/execution_engine.py:108-131 | one turn of a retry, from await to await, between order steps or inside one: reports change only while the flag is up; with no order step since its first read it keeps what it has established, and a verdict that takes the flag down means nothing unresolved and every position of a symbol listed once confirmed |
| `ExecutionEngine.Engine.EndOfRows` | services/execution/reconciliation.py:40-45 | the verdict falls in the turn of the last answer, from the answers alone: the flag goes down exactly then, every such verdict is counted, and it is right when what the answers established still holds |
| `ExecutionEngine.Engine.AskOne` | services/execution/reconciliation.py:21-39 | a row is counted clean exactly when it is the first of its symbol and the answer just received confirms the stop it matches; what was established about earlier rows still holds |
| `ExecutionEngine.Engine.RetryConfirms` | services/execution/reconciliation.py:40-45 | an undisturbed comparison without issues means nothing unresolved and every ledger position of a symbol listed once confirmed |
| `ExecutionEngine.Engine.Others` | services/gateway/main.py:36-57 | whatever turns a retry, saves, a kill switch, an operator and the monitor's listing take during an await, ledger and rows stay, the table gets the ledger's positions or nothing, reports change only under the flag, the flag goes down only by a counted verdict, and the halt changes only as counted |
| `ExecutionEngine.Engine.Store` | services/portfolio/manager.py:30-32 | a save writes the stored positions and the halt flag or nothing, and may do so although it failed |
| `ExecutionEngine.Engine.Reload` | services/portfolio/repository.py:18-63 | the ledger is every open row of the database, in order, and a stored halt stays in force; only sells of symbols on which database and ledger disagreed become orphans; symbols listed more than once are exposed, and every symbol is kept safe |
| `ExecutionEngine.Engine.Restart` | services/core/orchestrator.py:68-91 | a restart runs only after load and reconciliation, and then the flag is up or every position of a symbol the database lists once is confirmed, and a stored halt is in force |
| `ExecutionEngine.Engine.Resume` | services/portfolio/manager.py:130-134 | lifting the halt leaves protected-or-degraded and everything else as it was |
| `LiveResults.CleanIsProtected` | services/execution/reconciliation.py:20-45 | a comparison without issues confirms the stop of the last position of every symbol for its whole quantity, which protects every symbol listed once |
| `LiveResults.RowsOfFinds` | services/execution/execution_engine.py:579-580 | exactly one matching row means it is the symbol's only row; none means the symbol is not listed |
| `OrderBook.CoveredMeansNeverShort` | services/execution/execution_engine.py:543-611 | a symbol is covered if and only if no sequence of market moves takes it short |
| `OrderBook.SubmitCover` | services/execution/execution_engine.py:585-585 | a submission takes exactly its quantity off the cover of the symbol it sells and nothing off any other |
| `OrderBook.SaleSafeExactly` | services/execution/execution_engine.py:578-585 | a sale stays within the cover in every market that may come before it arrives if and only if the net holds it and everything other sells offer; for the whole net, if and only if nothing is offered |
| `OrderBook.MoveIsLater` | services/brokers/kite.py:100-158 | arrivals, fills and ends of orders never lower what the account reaches, covers or has to spare |
| `LiveSafety.SafeWithoutOrphan` | services/execution/execution_engine.py:543-611 | a symbol without a working orphan that was never uncovered cannot be taken short, and the next exit, of its first position, is clear or held back |
| `LiveSafety.ReloadKeeps` | services/portfolio/repository.py:38-59 | reading every open row back, orphaning what the first position does not know and exposing what is listed twice keeps every symbol safe |
| `LiveSafety.ForgetsExactly` | services/portfolio/repository.py:38-59 | a restart orphans a sell of a symbol if and only if the stored position is not safe, a second open row included |
| `LiveSafety.AgreedIsKept` | services/portfolio/repository.py:65-84 | where the database has just the ledger's position of the symbol, the stored position is safe |
| `LiveLedger.RecordedAgreesExactly` | services/portfolio/repository.py:86-128 | a stored fill leaves the database with just the ledger's position of its symbol if and only if it had no open row of it |
| `LiveLedger.RecordedOnceExactly` | services/portfolio/repository.py:86-128 | a stored fill keeps every symbol at one open row if and only if it was so and the symbol had none |
| `LiveLedger.LoadsOnceExactly` | services/portfolio/repository.py:38-59 | a load lists every symbol once if and only if none has two open rows |
| `LiveLedger.RebookedAgrees` | services/portfolio/repository.py:149-190 | a closing write that finds its row leaves the database agreeing about the symbol |
| `LiveLedger.AgreeExactly` | services/portfolio/repository.py:38-59 | the database agrees about a symbol exactly when its only open row has quantity and stop of the ledger's only position, or neither has one |
| `LiveHazards.PassingExitSafeExactly` | services/execution/execution_engine.py:556-585 | an exit that passes every guard stays within the cover in every market if and only if no sell order of the symbol is working at the broker and none is under way |
| `LiveHazards.HeardExitSafeExactly` | services/execution/execution_engine.py:498-508 | a sell still under way had a reply without an id; with no such sell of the symbol outstanding, the exit is safe if and only if none is working |
| `LiveHazards.OnlyOrphansOversell` | services/execution/execution_engine.py:556-585 | in a consistent state such an exit can oversell only while an orphan of the symbol can still sell |
| `LiveHazards.OrphanedStopOversells` | services/execution/execution_engine.py:602-610 | from a state in order, a replacement stop accepted but not stored leaves a closed row, every guard of the next exit satisfied, and ten shares sold short |
| `LiveHazards.RestartOversells` | services/execution/execution_engine.py:603-610 | nothing raised and the replacement stop stored in memory: after a restart the next exit passes every guard and sells against it |
| `LiveHazards.DuplicateOversells` | services/execution/reconciliation.py:20-45 | a fill stored over the open row of a failed close: from a state in order, after a restart the comparison is clean over the stale first position, every guard of the next exit is satisfied, and ten shares are sold against the working stop |
| `LiveHazards.LostReplyOversells` | services/execution/execution_engine.py:498-508 | an entry whose stop was accepted and its reply lost, its row marked and the flag up: the next exit passes every guard and sells against it |
| `LiveHazards.LateStopOversells` | services/execution/execution_engine.py:500-504 | a replacement stop whose call timed out has not arrived when the next exit checks: no sell of the symbol works, every guard is satisfied, and sale and late stop leave ten shares short |
| `LiveHazards.PurchaseUnseen` | services/execution/execution_engine.py:167-233 | a call that raised after its row said that the stop was placed, or under a key with a finished row before any stop went out, leaves ten shares held with everything in order, no flag up and no row unresolved |
| `LiveHazards.RetryClearsTooMuch` | services/gateway/main.py:36-57 | the retry hears that the first stop works; the broker rejects it, and a look puts the flag up; the retry hears that the second works, and its verdict takes the flag down over ten shares without a working stop |
| `LiveHazards.VerdictRightExactly` | services/execution/reconciliation.py:20-45 | for any rows, ledger and numbers of looks and entries before each answer, the verdict is right whatever looks, entries and answers say if and only if the rows could not be clean anyway, or no look comes after the first answer and no entry at all |
| `LiveHazards.AskedIsRound` | services/execution/reconciliation.py:30-39 | what the engine's retry records for a row is a round of that comparison, and raises no issue exactly when the round is clean |
| `LiveSafety.StopReleased` | services/execution/execution_engine.py:561-577 | a stop that ended unfilled leaves its symbol exactly as clear as it was |
| `LiveSafety.Landed` | services/execution/execution_engine.py:589-603 | once a sale is final, nothing but orphans offers the symbol, and in a quiet exit the account still holds the position less exactly what was sold |
| `LiveSafety.AcceptedBuy` | services/execution/execution_engine.py:367-380 | what a purchase has bought is to spare from its acceptance on, however the market moves |
| `LiveSafety.AcceptedStop` | services/execution/execution_engine.py:481-512 | a stop for no more than the cover leaves the rest of the account covering it ever after |
| `LiveSafety.BlockedIsSafe` | services/execution/execution_engine.py:556-560 | while an exit's row is unresolved its symbol is kept safe whatever is booked |
| `LiveSafety.UpdateKeepsOne` | services/trades/repository.py:52-92 | rewriting an unresolved row, or one without unresolved rivals, keeps uncertainty bounded |
| `TradeTable.CreateKeepsOne` | services/trades/repository.py:13-50 | a new row keeps uncertainty bounded if and only if no rival of it is unresolved |
| `TradeTable.TradeRepository.CreatePending` | services/trades/repository.py:13-50 | a new id becomes a pending row; an existing row is untouched |
| `TradeTable.TradeRepository.UpdateStatus` | services/trades/repository.py:52-92 | only the named row's status changes; an unknown id creates nothing |
| `TradeTable.TradeRepository.GetOpenBySymbol` | services/trades/repository.py:109-120 | the latest open purchase of the symbol, and none exactly when there is none |
| `Venue.Broker.ReconcileOrder` | services/brokers/kite.py:86-172 | FILLED is final with exactly that fill; REJECTED is final with none; PARTIAL is a positive fill; anything else claims no fill |
| `Venue.Broker.PlaceOrder` | services/brokers/kite.py:57-84 | an acknowledged order has reached the broker, and its id is the accepted order's; a lost reply or an exception may hide an order that has arrived, or one that arrives at any later moment, and is never called rejected; a symbol becomes uncovered here or nowhere |
| `Venue.Broker.FetchStatus` | services/brokers/kite.py:381-402 | a failed query answers UNKNOWN; a terminal answer carries the order's final fill |
| `Venue.Broker.FetchPositions` | services/brokers/kite.py:351-379 | an answer is an accurate list of nonzero nets; every failure raises |
| `Venue.TruthfulIsReliable` | services/brokers/kite.py:391-399 | a truthful history entry gives a report that may be relied on, missing quantities read as zero |
| `Protection.PassingStop` | services/execution/protection.py:5-30 | exactly which reports pass; for whole shares the tolerance means equality |
| `Reconciliation.ReconcileOnStartup` | services/execution/reconciliation.py:6-50 | OK if and only if nothing is unresolved, the positions could be read, and broker and ledger correspond one to one by symbol, all long, equal in quantity, each with a confirmed stop |
| `Reconciliation.CountIssues` | services/execution/reconciliation.py:17-42 | no issue if and only if every broker row is new, long and matched, and no ledger symbol is absent |
| `Reconciliation.CleanIsInStep` | services/execution/reconciliation.py:20-42 | the loop's row-by-row test agrees with the one-to-one correspondence |
| `Idempotency.AtMostOncePerBucket` | services/execution/idempotency.py:20-28 | of all calls for one upper-cased symbol, strategy, side and bucket that claim within a bucket's length of making the id, at most one goes out and is not rejected, whatever is closed meanwhile |
| `Idempotency.HistoryExclusive` | services/execution/idempotency_store.py:11-41 | in every history a key has at most one live call, and its claim outlasts every claim its bucket can still see |
| `Idempotency.InBucket` | services/execution/idempotency.py:20-25 | a moment lies in its own bucket, which is no longer than configured |
| `Idempotency.RowGuards` | services/execution/execution_engine.py:147-158 | until a closing or a rejection, a key has at most one live call, however late the claims |
| `Idempotency.SecondOrderExactly` | services/execution/execution_engine.py:147-165 | with a live order of the key, a further call goes out if and only if that order's row is not open and its claim is gone, and the row is let go only by a closing or a rejection |
| `Idempotency.LateClaimDuplicates` | services/execution/idempotency_store.py:16-30 | an order, the closing of its position, and a claim two buckets late send a second order for one key; without the closing the late call is refused |
| `Idempotency.ClaimStore.Claim` | services/execution/idempotency_store.py:16-30 | acquired if and only if no unexpired claim is held; a refusal changes nothing |
| `Idempotency.ClaimStore.Release` | services/execution/idempotency_store.py:33-41 | only the released key is freed |
| `Idempotency.ClaimStore.Seed` | services/execution/idempotency_store.py:44-53 | recovery claims a key whoever held it |
| `Sizing.SizeFitsEveryBudget` | services/sizing/engine.py:52-117 | a positive size of any method fits the trade, daily and heat budgets including costs, and the value, reserve and exposure caps |
| `Sizing.LotsWithinRisk` | services/sizing/engine.py:86-103 | the risk percentage of a computed size never exceeds the scaled limit |
| `Sizing.BreachBranchUnreachable` | services/sizing/engine.py:97-112 | the breach-tolerance branch is never taken |
| `Risk.ApprovedMeansWithinLimits` | services/risk/unified.py:47-105 | an approved entry respects the count and heat limits, is whole, and duplicates no held symbol |
| `Risk.FinalQuantity` | services/risk/unified.py:71-105 | the final quantity is the proposal times loss-streak factor, volatility multiplier and throttle, truncated, and exceeds it exactly when they add a share |
| `Risk.MultipliersGrow` | services/risk/advanced.py:86-92 | with a volatility multiplier of 1.5 an approved ten shares become fifteen |
| `Risk.ThrottledNeverGrows` | services/risk/unified.py:71-105 | with multipliers of at most one the final quantity never exceeds the proposal |
| `Risk.SizePassesRiskChecks` | services/risk/engine.py:99-162 | a positive size can fail neither the daily-budget, nor the per-trade, nor the heat check on the same figures |
| `Risk.SizeMeetsLimits` | services/risk/engine.py:144-162 | a positive size keeps heat plus its own risk within the limit |
| `Limits.Orchestrator.AnalyzeSymbol` | services/core/orchestrator.py:227-360 | whatever the storage does, the ledger takes the step the laws over runs are about, up to the row key and a halt, and stays within its limits; a held symbol is never entered again; a reported entry leaves the database mirroring the ledger, and an unreported one halts |
| `Limits.SentOrder` | services/core/orchestrator.py:227-335 | an order that is sent was sized, is under the count limit, duplicates nothing, and keeps recorded heat within the limit plus half a rounding unit |
| `Limits.OrderFitsEveryBudget` | services/core/orchestrator.py:227-335 | after all three risk layers the order is at least one share and still fits every budget and cap of the sizer |
| `Limits.RecordedRisk` | services/sizing/engine.py:102-117 | the recorded risk percentage exceeds the true one by at most half a unit of the third decimal |
| `Limits.LimitsHoldOverRuns` | services/core/orchestrator.py:346-360 | over any run of entries and exits symbols stay distinct, positions within the maximum, and recorded heat within the maximum plus 0.0005 |
| `Common.RoundIsClose` | services/sizing/engine.py:114-117 | rounding moves a value by at most half a unit in the last place kept |
| `Ledger.Conservation` | services/portfolio/manager.py:34-95 | over any run, cash plus cost basis less equity grows by exactly the fees charged and the cash clamped at zero |
| `Ledger.FullEquityBasis` | services/portfolio/models.py:41-46 | from an equal start and without a broker sync the risk basis is the full equity |
| `Ledger.SplitExit` | services/portfolio/manager.py:74-95 | splitting one exit into partial exits at one price changes neither cash, equity, peak, period P&L nor the positions left |
| `Ledger.PeakCoversEquity` | services/portfolio/manager.py:80-82 | equity never stands above its recorded peak, over any run |
| `PortfolioStore.PortfolioManager.RecordFill` | services/portfolio/manager.py:34-58 | ledger and tables move as one fill step, halting exactly when it is not reported as stored |
| `PortfolioStore.PortfolioManager.RecordExit` | services/portfolio/manager.py:60-120 | ledger and tables move as one exit step; a missing position or a bad quantity changes nothing |
| `PortfolioStore.PortfolioManager.BookExit` | services/portfolio/manager.py:74-95 | the in-memory bookings of one exit, statement by statement, are the ledger's exit |
| `PortfolioStore.PortfolioManager.EmergencyShutdown` | services/portfolio/manager.py:122-124 | both halt flags go up and nothing else moves |
| `PortfolioStore.PortfolioManager.ResumeTrading` | services/portfolio/manager.py:130-134 | all three flags come down and nothing else moves |
| `PortfolioStore.PortfolioRepository.Load` | services/portfolio/repository.py:18-63 | a failed load changes nothing; a first load creates the system row; any other gives the stored ledger |
| `PortfolioStore.PortfolioRepository.Save` | services/portfolio/repository.py:65-84 | a save is all or nothing, and writes the table state that crash recovery is proved about |
| `PortfolioStore.PortfolioRepository.AddPosition` | services/portfolio/repository.py:86-128 | on success the new position carries its own row's key; on failure every row is as it was, and a key handed out before the failing commit stays in memory |
| `PortfolioStore.PortfolioRepository.ClosePosition` | services/portfolio/repository.py:149-190 | succeeds only for a single open row of the symbol; on failure the tables are untouched |
| `PortfolioMirror.CrashRecovery` | services/portfolio/repository.py:18-63 | after any run of bookings that all returned True, a load into any state gives back positions, equity, cash, P&L, peak, loss streak and halt flags |
| `PortfolioMirror.RunRecoverable` | services/portfolio/manager.py:34-120 | every such run keeps tables and ledger aligned row by row |
| `PortfolioMirror.ReloadIsLedger` | services/portfolio/repository.py:201-211 | a mirrored ledger reloads to itself if and only if its peak is not zero or its equity is |
| `PortfolioMirror.ExitMirrors` | services/portfolio/manager.py:60-120 | an exit that returned True leaves tables that mirror the ledger; one that returned False had a storage fault |
| `PortfolioMirror.FillMirrors` | services/portfolio/manager.py:34-58 | a fill that returned True leaves tables that mirror the ledger |
| `LiveMirror.SaveIsSynced` | services/portfolio/repository.py:65-84 | whatever the table, a save writes the open row of every position that has one and no other, which is the live protocol's save |
| `LiveMirror.CloseIsRebooked` | services/portfolio/repository.py:149-190 | whatever the table, the closing write is the live protocol's, and fails exactly when the symbol has no open row or several |
| `LiveMirror.FillIsRecorded` | services/portfolio/manager.py:34-58 | whatever the storage does and the table holds, a fill adds one position to the ledger and its row exactly when it was stored; a success leaves the two agreeing about the symbol exactly when it had no open row |
| `LiveMirror.ExitIsRebooked` | services/portfolio/manager.py:60-120 | whatever the storage does and the table holds, an exit rebooks the database or leaves it, succeeds exactly when nothing failed and the symbol had one open row, and then the two agree about it unless it is listed twice |
| `LiveMirror.ExitIsBooked` | services/portfolio/manager.py:74-95 | a booked exit of whole shares takes the fill off the first position of the symbol as the live protocol books it, and the next takes its place |
| `LiveMirror.LoadIsLoaded` | services/portfolio/repository.py:38-59 | a load gives every open row back as a position, in order, keyed to its row, whatever the table |
| `LiveMirror.FillKeepsOnceExactly` | services/portfolio/manager.py:34-58 | a stored fill keeps every symbol at one open row if and only if it was so and no open row has its symbol |
| `LiveMirror.LoadListsOnceExactly` | services/portfolio/repository.py:38-59 | the loaded positions have distinct symbols if and only if no symbol has two open rows |
| `LiveMirror.FailedCloseDuplicates` | services/portfolio/manager.py:97-106 | an exit whose closing write fails, a resume and a fill that reports success leave two open rows of the symbol, which load as two positions with the stale one first |
| `Backtest.Run` | services/backtest/engine.py:43-102 | the simulation's loops compute the step-by-step account that the laws are about |
| `Backtest.FindExit` | services/backtest/engine.py:76-90 | the inner loop finds the first touch |
| `Backtest.FirstTouchIsFirst` | services/backtest/engine.py:76-90 | the exit is on the first bar touching stop or target, the stop winning a tie, a gap closing at the open, and at the window's end if and only if nothing touches |
| `BacktestLaws.Causality` | services/backtest/engine.py:55-102 | two series that agree up to the last bar a signal can reach give identical accounts there |
| `BacktestLaws.ExtensionKeepsTrades` | services/backtest/engine.py:55-102 | extending the series keeps every earlier trade, equity, peak and drawdown |
| `BacktestLaws.HoldingsDisjoint` | services/backtest/engine.py:55-57 | holding intervals never overlap |
| `BacktestLaws.TradeBounds` | services/backtest/engine.py:67-97 | a stop or time exit loses at most the risk limit of the equity at entry, any exit at most the value cap with fees; stop exits lose and target exits win at realistic slippage |
| `BacktestLaws.TargetWins` | services/backtest/engine.py:70-72 | the reward filter makes a target exit win when the slippage is within its margin |
| `BacktestLaws.TargetWinsExactly` | services/backtest/engine.py:70-72 | every target exit the filter lets through wins if and only if exit slippage leaves at least the share 1 / (1 + m) of the price |
| `BacktestLaws.TargetMayLose` | services/backtest/engine.py:70-92 | a trade the filter passes whose target exit loses 17.05 a share |
| `BacktestLaws.Solvency` | services/backtest/engine.py:93-96 | when the value cap with fees is below the whole equity, equity stays positive and above a geometric bound in the trade count |
| `BacktestLaws.DrawdownIsExact` | services/backtest/engine.py:96-97 | while every equity point is positive, the running peak is the highest equity point and the running drawdown the deepest fall over all ordered pairs |
| `BacktestLaws.CappedDrawdownIsExact` | services/backtest/engine.py:93-97 | a value cap that with its fees stays below the whole equity keeps every equity point positive and so the figures exact |
| `EventStore.Store.Append` | services/compliance/store.py:114-128 | the new record continues the stored head, the head file follows, the cache is dropped |
| `EventStore.Store.VerifyChain` | services/compliance/store.py:163-203 | the loop computes verification of the records; a cached result equals a fresh one while only append and repair write |
| `EventStore.Store.VerifyEdited` | services/compliance/store.py:163-175 | after somebody else's edit the answer is right if and only if the cached one is no longer in force or the edit left the verification alone |
| `EventStore.Store.RepairChain` | services/compliance/store.py:205-239 | keeps exactly the longest valid prefix with its head; an empty ledger is left alone |
| `EventStoreLaws.VerifyIsExact` | services/compliance/store.py:176-203 | valid if and only if every record continues the chain; otherwise the index is the first that does not |
| `EventStoreLaws.EditUnseen` | services/compliance/store.py:163-203 | whichever record of a valid ledger loses its hash, a fresh verification names it, while a result still in force says valid |
| `EventStoreLaws.LongestPrefix` | services/compliance/store.py:211-223 | a prefix verifies if and only if it is within the valid one |
| `EventStoreLaws.AppendVerifies` | services/compliance/store.py:114-128 | an append keeps a valid ledger valid if and only if the head it read is the ledger's |
| `EventStoreLaws.AppendsVerify` | services/compliance/store.py:114-128 | any number of completed appends verifies and keeps every body in order |
| `EventStoreLaws.RepairIsLongestAndIdempotent` | services/compliance/store.py:205-239 | repair keeps a valid prefix, no longer one is valid, its length is the broken index, and repairing again changes nothing |
| `EventStoreLaws.AppendAfterRepair` | services/compliance/store.py:205-239 | after a repair the next append verifies if and only if the ledger was non-empty or its head reads genesis |
| `EventStoreLaws.StaleHeadSurvivesRepair` | services/compliance/store.py:207-209 | the counterexample of an empty ledger with a stale head |
| `EventStoreLaws.TamperEvidence` | services/compliance/store.py:114-200 | two valid ledgers with one head hold the same bodies in the same order, unless their own hashed strings collide or hash to genesis |
| `Replay.ReplayLog` | services/compliance/replay.py:37-71 | the loop folds the events in order |
| `Replay.CompareReference` | services/compliance/replay.py:102-122 | a field is reported if and only if it differs by more than a cent, or the position counts differ |
| `Replay.SuffixReconstructs` | services/compliance/replay.py:42-100 | any suffix holding a full portfolio snapshot reconstructs the same portfolio, whatever came before |
| `Replay.ReplayRoundTrip` | services/compliance/recorder.py:17-41 | replaying the log of any non-empty run of fills, exits and capital syncs gives a state the comparison accepts against the live ledger |

## Left out

- LiveSession: starts from an empty ledger and an empty database.
- VerdictRightExactly: is about looks and entries; an exit between the answers can also make rows match that did not, and is only in `Perform` and `RetryTurn`.
- PlaceOrder: that a raising call leaves something to see is promised only where it is true (`LiveHazards.PurchaseUnseen`).
- CloseStored: the closing write keeps the row's own stop price and target, so `Agree` is about quantity and stop order.
- ReconcileOrder: the deadline is a number of polls chosen by the environment, not a clock.
- ReleaseStop: a terminal stop report that leaves out the filled quantity is trusted to mean no fill, as the program reads it.
- PlaceExit: prices do not enter the order book, so which price a market or stop order fills at is open.
- EnterPosition: sizing and risk approval are in `Limits`; here the proposal is given, and the circuit breaker, operator pause and live gate are answers of the environment.
- RecordExit: cash, equity and P&L of a live exit are booked as in `Ledger`; the live engine keeps quantities and stops only.
- AtMostOncePerBucket: needs less than one bucket between making and claiming an id; without it the statement is false (`LateClaimDuplicates`), and `SecondOrderExactly` takes its place. Looking up the row, claiming and writing the pending row are one event, as `order_lock` makes them.
- TamperEvidence: hash collisions are not excluded, they are the alternative in the conclusion.
- Solvency: assumes non-negative prices with the close not below the low, and exit slippage of at most the whole price.
- CrashRecovery: assumes upper-case distinct symbols; the last operation is a booking, because a stop id renamed in memory is unsaved until the next one.
- Live quantities are whole shares, so the 0.0001 tolerance means equality; ledger symbols are upper-case.
- Paper and shadow modes, the retrying branch for simulated brokers, and the simulated broker itself.
- The HTTP gateway, authentication, middleware, user interface, scripts, alerts, journal and logging.
- Broker connectivity, OAuth, order-parameter building, tick rounding and market-data fetching.
- Strategies, the regime detector, AI ranking, data quality, Sharpe and Sortino: uninterpreted functions or inputs.
- The chaos suite, resilience report, go-live checks, ICB, governance states and circuit breaker: threshold lists and wall-clock checks.
- The recorder's pending buffer, torn log lines, the Redis copy of flags and claims with its in-process fallback, and the execution-owner lock.
- Truncating the order-id digest to 24 hex digits: keys are taken to be distinct when their parts are.
- JSON encoding of events: an abstract injective canonical form.
- Rounding of floats, except the three-decimal risk percentage.
- Buying power and unrealized P&L, which the program does not store; the confidence column and row timestamps.
- Broker capital sync outside `Replay`, PnL-period resets, and the legacy flatten commands.
