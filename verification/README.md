# Cost Governor: a verified model

Cost Governor is the single authority over money budgets, priced usage and plan selection in a system
that runs work on accelerators. This project models its behaviour in Dafny and proves what it keeps over
whole runs: the budget ledger and its fencing, exact billing, the choice among plans, the durable
snapshot and its checksum, the restart of a coordinator, the framed protocol and the concurrent sessions.

`dafny verify dfyconfig.toml` checks the whole project.

## How it is laid out

| files | what they hold |
|---|---|
| `Types`, `Money`, `Octets`, `Sums`, `Keys` | entities and integer widths, checked arithmetic, little-endian octets, sums, ordered maps |
| `Pricing`, `Projection`, `Billing`, `Lookup`, `Freshness` | price lookup, the projection as the source runs it, and what it computes as mathematics |
| `Planning`, `Ranking`, `Orders`, `Steering`, `Admission` | plan evaluation, the ranked choice, budgets along runs, exact conditions of success |
| `GovernorModel`, `Governor` | the governor as a value and as the object with fields that its methods update, each method proved against the value |
| `Ledger`, `Closure`, `Fencing`, `Attempts` | runs of the governor: conservation, limits and expiry, authority, evidence and history |
| `Crc`, `Records`, `Tables`, `Snapshot`, `Codec`, `Integrity`, `Restart` | the checksum, the record codec, the sealed snapshot, its reader and writer, damage, and restarts |
| `Frames`, `Messages`, `Sessions`, `Interleaving`, `Witnesses` | framed streams over a socket that cuts as it likes, wire records, interleaved handlers, and runs that reach the failing states |

Every public operation of the governor runs under one mutex, so a run is a sequence of the functions of
`GovernorModel`. Exceptions are `Result` values or a `Threw` outcome; an operation that throws half way
leaves the fields it had already assigned. Time is a parameter. The iteration order of a hash map is a
parameter too, and results are proved for every order. Signed overflow is taken to wrap in two's
complement, which is what the source's tests after the operation rely on. Enumerations stored in a
snapshot keep their octet, because the decoder casts any octet.

## Where the code and its documentation differ

The model follows the code.

- The documentation says that terminal lifecycles remain terminal. A release of an active reservation
  reopens a terminal budget, and nothing else does (`Closure.TerminalReopens`). Its limit and expiry still
  hold (`Closure.ClosedMeansClosed`).
- Commit and release are idempotent on one reservation, but the coordinator's handlers each work on a copy:
  two overlapping commits of one token can charge it twice (`Interleaving.OverlapChargesTwice`), and any two
  overlapping calls can take it off `reserved` twice (`Interleaving.OverlapLowersTwice`); without overlap
  they cannot (`Interleaving.ChargedAtMostOnce`, `Interleaving.SessionsBalance`).
- A hand-back lowers `reserved` before it finds that `released` cannot hold the amount. That is the one
  step that breaks the account (`Ledger.StepConserves`).
- The freshness check skips prices whose label the policy refuses, the projection does not
  (`Lookup.RefusedLabelIsStillPriced`); `Lookup.LookupsAgreeExactly` says when that makes no difference.
- Recomputation is priced as accelerator time but has no freshness check of its own: a plan that recomputes
  and uses no accelerator time can be feasible on a stale price (`Freshness.StaleRecomputation`).
- A coordinator restart takes one epoch more than the saved one, so two restarts from states saved at one
  epoch share theirs (`Restart.RebootEpochs`).
- A direct charge is not fenced by the governor's epoch (`Admission.ConsumeSucceeds`,
  `Witnesses.DirectChargeReached`).
- Plan selection is documented as deterministic. Where one hard budget refuses a plan and another throws, the
  iteration order of the hash map decides which the caller sees (`Orders.PlanOrderFreeExactly`,
  `Witnesses.MixedReached`).
- The frame checksum covers the payload only (`Frames.HeaderOctetChanged`).

## Model

| member | source | states |
|---|---|---|
| `Money.CheckedAdd` | include/costgovernor/money.hpp:80-85 | the test made after the wrapped addition accepts exactly the sums that fit 64 bits, and then the sum is exact |
| `Money.CheckedSub` | include/costgovernor/money.hpp:86-89 | subtraction succeeds exactly when the subtrahend is not the least value and the difference fits |
| `Money.CheckedMulExact` | include/costgovernor/money.hpp:90-98 | multiplication succeeds exactly when the true product fits, for every pair of signs |
| `Money.CheckedDivExact` | include/costgovernor/money.hpp:44-55 | division is the true truncation, ceiling or floor for every combination of signs |
| `Money.RoundingUnique` | include/costgovernor/money.hpp:44-55 | the ceiling and the floor that the previous lemma speaks of are determined by the operands |
| `Pricing.FindPrice` | src/cost.cpp:71-82 | the scan over the schedule computes the lookup function whose rule is given below |
| `Pricing.CheckPrice` | src/governor.cpp:26-52 | the freshness check's own scan computes its specification |
| `Pricing.CeilMulDivExact` | src/cost.cpp:40-56 | the guarded multiply-divide succeeds exactly when the product fits 64 bits unsigned and its ceiling fits 64 bits signed; it is then that ceiling |
| `Pricing.PriceComponent` | src/cost.cpp:86-95 | pricing one amount is the lookup followed by the rounded multiply-divide |
| `Pricing.ProjectAttempts` | src/cost.cpp:97-166 | the three loops of the projection, with their early exits, compute the specification the next rows are about |
| `Pricing.ProjectRetries` | src/cost.cpp:143-157 | skipping the last success by position in the retry pass changes nothing |
| `Projection.ProjectWithExact` | src/cost.cpp:97-166 | with any pricer that never prices below zero, projection returns exactly when each line can be priced and the mathematical total fits, and every component holds its mathematical sum |
| `Billing.ProjectExact` | src/cost.cpp:97-166 | projection returns exactly when every used amount has an applicable price, products and quotients fit, and the total fits; the total is the sum of the rounded lines |
| `Billing.ProjectOrderFree` | src/cost.cpp:97-166 | the whole breakdown is the same for every order of the attempts |
| `Billing.ProjectConcat` | src/cost.cpp:97-166 | bills add up over concatenation, component by component, and exist together exactly when both parts exist and the sum fits |
| `Billing.RetryIsSubTotal` | src/cost.cpp:143-163 | RETRY is the six-component cost of exactly the failed completions, never exceeds components 0 to 5, and is not counted again in the total |
| `Billing.TotalRoundsUp` | src/cost.cpp:40-56 | a request is billed at least its exact rational cost and less than one micro more per priced amount |
| `Billing.SplitLine` | src/cost.cpp:110-142 | splitting an attempt's usage of one component never lowers its bill and raises it by at most one micro per extra part |
| `Billing.SplitBill` | src/cost.cpp:110-142 | splitting one attempt of a longer request into k never lowers the request's bill and raises it by at most k-1 micros per amount, and fails only when that pushes the total out of range |
| `Lookup.FindChoosesWinner` | src/cost.cpp:58-82 | the lookup returns the one observation that satisfies the scope rule, for every schedule and query |
| `Lookup.WinnerUnique` | src/cost.cpp:71-82 | at most one observation satisfies the rule |
| `Lookup.ScopedPricesWin` | src/cost.cpp:77-79 | an unscoped price is never chosen when a scoped one applies, and the first fully scoped one always wins |
| `Lookup.CheckChoosesWinner` | src/governor.cpp:33-47 | the freshness check follows the same rule among the observations whose label the policy accepts |
| `Lookup.LookupsAgreeExactly` | src/governor.cpp:33-45 | the check chooses the very observation the projection uses exactly when its label is accepted and, if it is scoped by one half, every earlier accepted one of that half is followed by an accepted one of the other |
| `Lookup.LookupsAgree` | src/governor.cpp:33-45 | under that condition, and so whenever every applicable label is accepted, the two lookups return the same |
| `Lookup.AcceptedIsHarmless` | src/governor.cpp:37 | a policy that accepts every applicable label meets the condition |
| `Lookup.CheckedImpliesFound` | src/governor.cpp:33-45 | the check never finds a price where the projection finds none |
| `Lookup.RefusedLabelIsStillPriced` | src/cost.cpp:89 | they do differ: a refused device price is skipped by the check and used by the projection |
| `Lookup.AcceptedWinnerStillDiffers` | src/cost.cpp:89 | they differ even on an accepted winner, when a refused price displaced the one before it |
| `Freshness.FeasibleIsPricedFresh` | src/governor.cpp:297-302 | every amount a feasible plan uses is priced from a fresh observation, recomputation too when the plan also uses accelerator time, provided refused labels do not disturb the lookup |
| `Freshness.FeasibleFreshExactly` | src/governor.cpp:297-302 | a feasible plan is priced only from fresh observations exactly when its recomputation, if it has any without accelerator time beside it, would pass the check that is not made |
| `Freshness.RecomputeIsNotChecked` | src/governor.cpp:53-63 | a plan that only recomputes is feasible however old its price is, at the rounded cost of its recomputation |
| `Freshness.StaleRecomputation` | src/governor.cpp:53-63 | a feasible plan whose recomputation is priced from a stale observation |
| `Planning.EvaluatePlanLocked` | src/governor.cpp:287-326 | the evaluation of one plan, loop by loop and exit by exit, computes its specification |
| `Planning.EvaluatePlans` | src/governor.cpp:407-413 | evaluating plans in turn stops at the first that throws |
| `Ranking.BetterIsLex` | src/governor.cpp:417-433 | the comparison written out key by key is the lexicographic order of eight keys |
| `Ranking.StableSortSorts` | src/governor.cpp:440 | the sort returns an ordered permutation |
| `Ranking.SelectIsLeast` | src/governor.cpp:407-448 | with distinct ids the selected plan is the lexicographic minimum of the feasible plans, and none is selected exactly when none is feasible |
| `Ranking.SelectionOrderFree` | src/governor.cpp:407-448 | every permutation of the plans gives the same selection |
| `Orders.PlanOrderFreeExactly` | src/governor.cpp:314-323 | every two walks of the budgets agree on whether evaluating a plan throws, what it throws, whether the plan is feasible, and its economics when it is, exactly when the plan has no price, or no budget refuses it, or no budget throws; the reason of a refusal may differ |
| `Orders.SelectionHashOrderFree` | src/governor.cpp:407-448 | under that condition for each plan the selection is the same for every walk, whether it throws or not |
| `Orders.MixedDiffers` | src/governor.cpp:314-323 | with one refusing and one throwing budget, one walk refuses and another throws |
| `Orders.EvaluateOrderFree` | src/governor.cpp:400-456 | when what is left of every hard budget is a 64-bit amount, the walk changes neither whether nor what an evaluation throws, nor the plan, projection, rejected plans and authority |
| `Orders.EvaluateThrowsExactly` | src/governor.cpp:400-456 | such an evaluation throws exactly when evaluating the plans does, or when a plan is selected and a threshold of some hard budget does not fit |
| `Orders.SelectThrowsAlike` | src/governor.cpp:407-448 | under any two sets of budgets of that kind selecting among the same plans throws the same or not at all |
| `Orders.BalancedIsPayable` | src/governor.cpp:199-281 | every governor whose account balances is of that kind |
| `Ranking.SelectionStable` | src/governor.cpp:407-448 | adding or removing infeasible or lower-ranked plans does not change the selection |
| `Ranking.GateMeaning` | src/governor.cpp:314-323 | when it does not throw, the budget gate lets exactly the affordable plans through, unchanged |
| `Ranking.FeasibleMeaning` | src/governor.cpp:287-326 | a plan is feasible exactly when it is so without budgets and every hard budget can pay; neither hash order nor counters show in its economics |
| `Ranking.BudgetsNeverSteer` | src/governor.cpp:314-323 | any two sets of budgets under which some plan is feasible select the same plan with the same economics |
| `Ranking.TighterBudgetsStayClosed` | src/governor.cpp:314-323 | budgets that can pay no more than others cannot bring a feasible plan back |
| `Steering.RunKeepsChoice` | src/governor.cpp:400-456 | along any run of budget operations, evaluating the same plans picks one constant plan and projection until it finds none, and then never finds one again |
| `Steering.RunKeepsSelection` | src/governor.cpp:407-448 | along any run of budget operations that keeps the account, selecting among the same plans throws the same, gives the same, or finds none where it found one |
| `Steering.RunKeepsThrowing` | src/governor.cpp:400-456 | along such a run an evaluation that throws goes on throwing the same until no plan is left to select |
| `Admission.FeasibleExactly` | src/governor.cpp:287-326 | a plan is feasible exactly when it is supported, meets its objective, prices are current, every used amount has a fresh accepted price, its bill exists and fits, and every hard budget can pay it |
| `Admission.BudgetsAreFiled` | src/governor.cpp:130-141 | over every run the budgets are exactly those it began with and those filed at a step where the limit was not negative, currency, epoch and policy were current and the identity was new; each keeps the terms it came with |
| `Admission.LastPriceIsHeld` | src/governor.cpp:163-176 | over every run the schedule holds, per identity, exactly the last price published with the current epoch, its worker's current boot if any, the current currency and no negative amount |
| `Admission.ReserveSucceeds` | src/governor.cpp:199-222 | a reservation is made exactly when the budget is open in the current epoch and its limit covers all that is reserved; consumption does not count against it |
| `Admission.CommitSucceeds` | src/governor.cpp:224-246 | an active reservation is turned into consumption exactly under the stated conditions, and the amount then moves from reserved to consumed |
| `Admission.ReleaseSucceeds` | src/governor.cpp:248-264 | an active reservation is handed back whenever it is current and the counters fit, whatever the budget's lifecycle |
| `Admission.ConsumeSucceeds` | src/governor.cpp:266-281 | a direct charge needs the budget's own epoch only, not the governor's |
| `Admission.OldBudgetsAreFrozen` | src/governor.cpp:199-264 | after an epoch advance no continuation changes what is reserved or released of an earlier budget; without direct charges nothing about it changes |
| `Admission.OtherBootIsStale` | src/governor.cpp:465 | a decision for another incarnation of its worker is stale and stays so until that worker boots again |
| `Admission.UpsertMeaning` | src/governor.cpp:169-174 | a published price replaces the first observation with its identity and nothing else, or is appended |
| `Ledger.StepConserves` | src/governor.cpp:199-281 | every operation keeps the account (each counter the sum over the reservations in its state, plus direct charges, and 0 <= reserved <= limit), except exactly a hand-back that released cannot hold |
| `Ledger.RunConserves` | src/governor.cpp:199-281 | the account is kept over every run |
| `Ledger.FinishedIsInert` | src/governor.cpp:224-255 | committing or releasing a finished reservation changes nothing |
| `Ledger.FreshIsConserved` | src/governor.cpp:83-105 | a governor without budgets starts every such run |
| `Closure.ClosedMeansClosed` | src/governor.cpp:208-281 | over every run consumption never falls, a hard budget stays within its limit, and once used up or expired no continuation raises its consumption |
| `Closure.TerminalReopens` | src/governor.cpp:248-264 | a terminal budget goes back to a live lifecycle exactly when an active reservation of it is released that is current and for which the counters have room |
| `Closure.ReleaseReopens` | src/governor.cpp:259-262 | the reservations a release looks at are never updated, so it leaves its budget RESERVED |
| `Fencing.DecisionIsAuthorized` | src/governor.cpp:343-356 | an authorization carries the epoch and the price generation it was made under, so the next two rows apply to it |
| `Fencing.FencingIsPermanent` | src/governor.cpp:458-466 | after an accepted price or an epoch advance every earlier authorization is stale for ever |
| `Fencing.DecisionsAreFenced` | src/governor.cpp:458-466 | a decision made at any moment of a run is stale for ever once the run revokes, whatever comes before and after |
| `Fencing.OldReservationsAreInert` | src/governor.cpp:229-231 | after an epoch advance no reservation of an earlier epoch changes the governor or itself through commit or release |
| `Fencing.DispatchExactly` | src/governor.cpp:458-477 | an authorization may be dispatched exactly when its authority is current, prices are not awaiting revalidation and its plan is still offered and feasible; the second budget check never refuses |
| `Fencing.FreshDecisionValidates` | src/governor.cpp:458-477 | with nothing in between, a fresh authorization over distinct plans validates |
| `Fencing.AuthorizationMeaning` | src/governor.cpp:400-456 | an authorization names the selected plan, its projection and the authority it was made under |
| `Attempts.LastAcceptedIsStored` | src/governor.cpp:178-197 | over every run the governor holds, per attempt, exactly the last acceptable evidence with a new generation |
| `Attempts.LastAcceptedUnique` | src/governor.cpp:178-197 | that evidence is determined by the deliveries |
| `Attempts.UnacceptableLeavesNoTrace` | src/governor.cpp:180-187 | a stale or invalid delivery leaves no trace wherever it is inserted |
| `Attempts.RepeatLeavesNoTrace` | src/governor.cpp:190-191 | a delivery repeated at once is charged once |
| `Attempts.LateRepeatReplaces` | src/governor.cpp:190-193 | a delivery repeated after another generation replaces the newer evidence |
| `Attempts.RealizedIsBill` | src/governor.cpp:585-593 | after any deliveries for a new request its cost is the bill of the last accepted evidence of each delivered attempt, each attempt once, and exists exactly when that bill does |
| `Attempts.FinalizeAppends` | src/governor.cpp:594-607 | finalizing records a request once, at the cost realized at that moment |
| `Attempts.HistoryOnlyGrows` | src/governor.cpp:594-607 | over every run the history gains at most one entry per request, and an entry never changes |
| `Governor.CostGovernor.CreateBudget` | src/governor.cpp:130-141 | the fields and the status after the call are the model's: refused for a negative limit, another currency, epoch or policy generation or a known identity, otherwise filed ACTIVE with its counters as given |
| `Governor.CostGovernor.PublishPrice` | src/governor.cpp:163-176 | the fields and the status after the call are the model's, through the loop that replaces an observation in place; an accepted price moves the generation and ends revalidation |
| `Governor.CostGovernor.RecordAttempt` | src/governor.cpp:178-197 | the fields and the status after the call are the model's: the newest accepted generation of an attempt replaces the one held |
| `Governor.CostGovernor.Reserve` | src/governor.cpp:199-222 | the fields, the outcome and the caller's reservation after the call are the model's, also when the addition throws |
| `Governor.CostGovernor.Commit` | src/governor.cpp:224-246 | the fields, the outcome and the caller's reservation after the call are the model's, also when an expired hand-back throws half way with the reservation already marked expired |
| `Governor.CostGovernor.Release` | src/governor.cpp:248-264 | the fields, the outcome and the caller's reservation after the call are the model's, also when the hand-back throws with reserved already lowered; the stored copies are searched by a loop |
| `Governor.CostGovernor.Consume` | src/governor.cpp:266-281 | the fields and the outcome after the call are the model's |
| `Governor.CostGovernor.Evaluate` | src/governor.cpp:400-456 | the decision is the model's, through the candidate, feasibility, rejection, remaining and state loops |
| `Governor.CostGovernor.ValidateForDispatch` | src/governor.cpp:458-477 | the status is the model's, through the plan search and the budget recheck |
| `Governor.CostGovernor.FinalizeRequest` | src/governor.cpp:594-607 | the state and outcome are the model's, through the history search |
| `Governor.CostGovernor.StateOf` | src/governor.cpp:328-341 | the cost state of a total is computed budget by budget in the walked order |
| `Governor.CostGovernor.Snapshot` | src/governor.cpp:528-540 | the snapshot lists the budgets in ascending identity |
| `Governor.CostGovernor.LoadFrom` | src/governor.cpp:543-557 | a load leaves exactly the loaded state |
| `Crc.ComputeCrc32` | src/persistence.cpp:135-142 | the two loops compute the register fold |
| `Crc.BurstDetected` | src/persistence.cpp:135-142 | data that differ only within 32 consecutive bits have different checksums, wherever these bits begin and whatever surrounds them |
| `Crc.FoldIsFeed` | src/persistence.cpp:135-142 | absorbing octets whole is feeding their bits one by one, lowest first |
| `Crc.OctetsAreBurst` | src/persistence.cpp:135-142 | a change of up to four consecutive octets is one within 32 bits |
| `Records.ReadPrinted` | src/persistence.cpp:13-54 | reading what was printed gives the fields back and leaves what follows |
| `Records.PrintRead` | src/persistence.cpp:33-54 | whatever is read prints back to the same octets |
| `Records.Writer.PutRecord` | src/persistence.cpp:13-31 | writing field by field appends the printed record, and refuses exactly a string over the bound |
| `Records.Reader.GetRecord` | src/persistence.cpp:33-54 | the cursor reads exactly what the parser function reads, or fails where it fails |
| `Tables.HeadPrints` | src/persistence.cpp:95-112 | a policy flag octet above 1 is read as true and written back as 1: a head survives exactly when its flags are 0 or 1 |
| `Tables.ObservationExact` | src/persistence.cpp:78-93 | observations and field lists of their shapes correspond one to one |
| `Tables.BudgetExact` | src/persistence.cpp:59-76 | budgets and field lists of their shapes correspond one to one |
| `Snapshot.RoundTrip` | src/persistence.cpp:144-212 | decoding an encoding returns the snapshot exactly when its strings and counts are within the parser's bounds |
| `Snapshot.SealUnsealed` | src/persistence.cpp:169-187 | a string with a good header is the seal of its payload, octet for octet |
| `Snapshot.OldFormat` | src/persistence.cpp:170-182 | the unsupported-version error is given exactly for version 1 behind a good magic; every other refusal is corruption |
| `Codec.EncodeSnapshot` | src/persistence.cpp:144-167 | the writer produces exactly the encoding, or the resource error |
| `Codec.DecodeSnapshot` | src/persistence.cpp:169-212 | the parser returns exactly what the decoding function returns |
| `Codec.TakenMeansFits` | src/persistence.cpp:19-23 | the writer refuses exactly the snapshots with a string too long for its count |
| `Integrity.Canonical` | src/persistence.cpp:169-212 | an accepted string encodes back to itself exactly when its four policy flag octets, at the stated offsets, are 0 or 1 |
| `Integrity.PrefixFree` | src/persistence.cpp:183-187 | no accepted string is a proper prefix of another |
| `Integrity.OctetDamage` | src/persistence.cpp:169-187 | changing any one octet of an accepted string makes it refused |
| `Integrity.BurstDamage` | src/persistence.cpp:186-187 | so does any change within 32 consecutive bits of the payload |
| `Integrity.HeaderDamage` | src/persistence.cpp:169-187 | so does any change confined to the header |
| `Restart.RestartIsTransparent` | src/governor.cpp:528-557 | saving, decoding into a fresh governor and setting the schedule again gives the same decision or the same exception for all plans, only without a worker boot |
| `Restart.RestartKeepsChoice` | src/governor.cpp:528-557 | with the budgets walked in any other order, the evaluation throws the same or returns the same kind, plan, projection, rejected plans and authority, when what is left of every hard budget is a 64-bit amount |
| `Restart.RestartKeepsRecords` | src/governor.cpp:528-557 | epoch, policy, prices, history and interventions come back from the octets as they were |
| `Restart.NothingBeforePrices` | src/governor.cpp:400-405 | after a load and any run short of an accepted price, every evaluation asks for revalidation and no authorization can be dispatched |
| `Restart.StepKeepsKeyed` | src/governor.cpp:130-141 | every operation keeps budgets filed under their own identity |
| `Restart.RunKeepsKeyed` | src/governor.cpp:130-141 | so does every run, in particular from a new governor |
| `Restart.LoadedIsKeyed` | src/governor.cpp:551 | so does a load |
| `Restart.LoadedFirst` | src/governor.cpp:551 | of budgets with one identity the first is the one loaded |
| `Restart.FileBudgets` | src/governor.cpp:550-551 | the loading loop computes that map |
| `Restart.RebootFencesHandles` | distributed/coordinator.cpp:161-169 | reservations up to the saved epoch are inert for ever after a coordinator restart |
| `Restart.RebootFencesDecisions` | distributed/coordinator.cpp:161-169 | authorizations up to the saved epoch, also under prices accepted after the last save, are stale for ever after a coordinator restart |
| `Restart.RebootEpochs` | distributed/coordinator.cpp:166-169 | a restart gets a later epoch than the previous one exactly when the saved epoch moved in between |
| `Frames.ReceiveSent` | distributed/chan.hpp:153-190 | any list of messages is received as that list, and what follows as if alone |
| `Frames.DeliverPieces` | distributed/chan.hpp:134-175 | an endpoint fed the frames of any list of messages, cut into any non-empty pieces, receives exactly that list |
| `Frames.Truncated` | distributed/chan.hpp:156-170 | a stream that ends inside a frame loses that message and nothing before it |
| `Frames.DamageCostsOneMessage` | distributed/chan.hpp:171-172 | damage within 32 consecutive bits of one payload is noticed and costs exactly that message |
| `Frames.HeaderOctetChanged` | distributed/chan.hpp:156-175 | one changed header octet: magic, version or checksum is refused, the kind gives another message, the flags nothing, and a changed length is accepted exactly when the differently cut payload has the stored checksum |
| `Frames.Sock.ReceiveExactly` | distributed/chan.hpp:134-148 | the read loop returns exactly the next n octets whatever the pieces, or fails with the stream used up |
| `Frames.Sock.SendAll` | distributed/chan.hpp:113-132 | the write loop writes everything, or fails having written a prefix |
| `Frames.FramedEndpoint.Recv` | distributed/chan.hpp:156-175 | a receive depends on the stream alone, not on its pieces |
| `Frames.FramedEndpoint.Send` | distributed/chan.hpp:176-189 | a frame is written whole or as a prefix; an oversized payload is refused before anything is written |
| `Frames.FramedEndpoint.ReceiveEverything` | distributed/coordinator.cpp:28-48 | the session's receive loop goes on after refused frames and ends with the stream |
| `Messages.PriceRoundTrip` | distributed/msgs.hpp:13-30 | every observation that fits a frame survives the trip |
| `Messages.EvidenceRoundTrip` | distributed/msgs.hpp:61-87 | all evidence survives the trip |
| `Messages.PlanTrip` | distributed/msgs.hpp:32-59 | a plan arrives with everything but its placement and recovery fields |
| `Messages.StrippedIsCheaper` | distributed/msgs.hpp:32-59 | over the wire a plan is projected at its total less exactly its recomputation line |
| `Messages.FeasibleOverTheWire` | distributed/msgs.hpp:32-59 | a plan that is feasible as it is stays feasible, and no dearer, when it comes over the wire |
| `Sessions.MoveSimulates` | distributed/coordinator.cpp:87-107 | every piece of every handler, between any two locks, is a step of the sequential ledger or none |
| `Sessions.ThrowChangesNothing` | distributed/coordinator.cpp:102-104 | a governor call that throws has changed nothing, so skipping the write-back loses nothing |
| `Interleaving.InterleavingRefines` | distributed/coordinator.cpp:87-107 | every interleaving in which no two handlers work on one token ends in the governor of a sequential run, with the same reservations in the same states |
| `Interleaving.SessionsBalance` | distributed/coordinator.cpp:87-107 | after it each counter is the sum over the table's reservations, with the copies still in handlers' hands in place of theirs |
| `Interleaving.QuietDesk` | distributed/coordinator.cpp:95-104 | with no handler at work that is the table itself |
| `Interleaving.ChargedAtMostOnce` | distributed/coordinator.cpp:99-107 | in such an interleaving no token is charged twice |
| `Interleaving.OverlapChargesTwice` | distributed/coordinator.cpp:99-107 | two commits that looked one token up before either wrote back both charge exactly when the reservation is active, the first goes through, and the budget stays live, covers the amount twice if hard, and its counters fit |
| `Interleaving.OverlapLowersTwice` | distributed/coordinator.cpp:99-107 | two handlers that looked one token up before either wrote back, in each of the four pairs of commit and release, both take its amount off `reserved` exactly under the stated conditions on the state before them |
| `Interleaving.OverlapUnbalances` | distributed/coordinator.cpp:99-107 | after that no state of the reservation makes the account balance |
| `Interleaving.FreshSimulates` | distributed/coordinator.cpp:192-194 | an empty coordinator starts every such interleaving |
| `Witnesses.StrandReached` | src/governor.cpp:256-257 | a run of a new governor reaches a release that breaks the account |
| `Witnesses.ReopeningReached` | src/governor.cpp:258-262 | a run of a new governor reaches a release that reopens an exhausted budget |
| `Witnesses.MixedReached` | src/governor.cpp:314-323 | a run of a new governor files a refusing and a throwing budget and publishes a price, and then one walk of the budgets refuses a plan of one micro and the other throws |
| `Witnesses.DirectChargeReached` | src/governor.cpp:266-281 | a run of a new governor charges a budget of the first epoch in the second |
| `Witnesses.DoubleChargeReached` | distributed/coordinator.cpp:99-107 | two sessions of a new coordinator charge one reservation of five twice |
| `Witnesses.DoubleLoweringReached` | distributed/coordinator.cpp:99-107 | whether each of them commits or releases, minus five are left reserved |

## Left out

- Sockets, threads, accept loops, signals and process control: only an abstract stream of non-empty pieces and the handlers' steps between locks are modelled.
- File handling of the state store: a saved state is the octet string of its encoding; temporary files and renames are not modelled.
- The intervention lifecycle, explanations, what-would-change alternatives, name tables, CUDA, benchmarks, examples and the command line: they would only add easy members.
- `budget.hpp` transition tables and the near-budget test: no operation of the governor calls them.
- Record codecs are driven by field tables here, one table per record, where the source writes one statement per field; the order, widths and bounds of the fields are the source's.
- The reply octets of the session handlers and the wire form of a decision are not modelled: they would only add easy members.
- `expected_retries`, hysteresis, cooldown and the recovery budget are carried but read by no modelled operation, as in the source.
- Ledger.RunConserves: supposes that budgets enter the run with zero counters, which `create_budget` does not check, and that no step hands back more than `released` can hold, which is exactly the condition of Ledger.StepConserves along the run.
- Ranking.SelectionOrderFree: says that the two orders throw together, not that they throw the same exception, because the plan that throws first depends on the order.
- Orders.SelectionHashOrderFree: the exact condition is stated for one plan by Orders.PlanOrderFreeExactly; for a list it is required of each plan, although a plan that always throws would hide the later ones.
- Fencing.FencingIsPermanent: supposes that no 64-bit generation wraps within the run, and leaves out policy, schedule and load, which may overwrite generations with anything.
- Interleaving.InterleavingRefines: supposes that reservation numbers do not wrap and that no hand-back overflows; the exclusion of overlapping handlers is the condition that Interleaving.OverlapLowersTwice and Interleaving.OverlapUnbalances show to be needed.
- Frames.FramedEndpoint.Send: the error of a failing system call is a short write of zero octets; retries on a socket that would block are not modelled.
