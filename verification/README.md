# IFO contribution and reward-claim decision logic

A Dafny model of the two pieces of decision logic inside the trading platform's web
front-end dialogs:

- **The IFO contribution dialog** (`ContributeModal`). It computes the largest
  amount the typed value is checked against (`maximumLpCommitable`) from the
  per-user LP limit, the amount already committed and the wallet balance. It raises
  the input warning when the value, scaled by 10^18, exceeds that maximum. It gates
  the Approve and Confirm buttons on the approve/confirm hook's flags. It also
  builds the callbacks handed to that hook: the allowance check (true when some
  allowance exists, false when the query throws), the `approve(MaxUint256)` call,
  the `depositPool(amount, 0 | 1)` call and the success callback (dismiss, then
  notify the parent).
- **The trading-competition claim dialog** (`ClaimModal`). It is an event-driven
  machine whose only state is `isConfirming`. The inputs are a click and the claim
  transaction's `sending`, `receipt` and `error` notifications. Each input yields
  the next state and the ordered effects: submitting `claimReward()`, toasts,
  dismissing and reporting success.

Files:

- `amounts.dfy` (module `Amounts`) models the arbitrary-precision decimal type as
  far as the dialog uses it. A finite amount is `units / 10^exp`, and `NaN` stands
  for an empty or unparseable input. `isGreaterThan` and `eq(0)` are false on NaN.
  Scaling by 10^18 is also here, with the lemma that a value with at most 18
  decimals becomes a whole number of base units.
- `contribute_modal.dfy` (module `ContributeModal`) holds the contribution rules.
- `claim_modal.dfy` (module `ClaimModal`) holds the claim machine and lemmas over
  whole event traces.
- `optional.dfy` (module `Optional`) holds an option type. It stands for
  JavaScript's `undefined`: the optional `onDismiss` prop and the optional error
  message.

## The maximum rule as written

A natural reading of "maximum committable" is a remaining-cap rule:
`min(max(limit − committed, 0), balance)` under a positive limit, and the balance
otherwise. The code does something else (`ContributeModal.tsx:84-85`). When
`limit − committed ≤ balance` it returns the whole `limitPerUserInLP`, not the
remaining headroom. The model follows the code (`ContributeModal.MaximumLpCommitable`).

The remaining-cap rule is kept as `ContributeModal.IntendedMaximum`, for comparison
only. `AsWrittenVersusIntended` proves that the code's value is never below it. It
also proves that the two agree exactly when nothing has been committed yet or when
the balance is the binding constraint. `BoundaryTable` evaluates both rules on four
inputs (limit, committed, balance):

- (0, 0, B): both give B.
- (100, 40, 30): both give 30.
- (100, 100, 50): the code gives 100, the remaining-cap rule 0.
- (100, 40, 1000): the code gives 100, the remaining-cap rule 60.

## Model

| member | source | states |
|---|---|---|
| Amounts.ScaledDenotesBaseUnits | src/views/Ifos/components/IfoFoldableCard/IfoPoolCard/ContributeModal.tsx:47 | a typed value with at most 18 decimals, multiplied by 10^18, is exactly the whole number `units * 10^(18 - exp)` of base units |
| Amounts.DenotedComparisons | src/views/Ifos/components/IfoFoldableCard/IfoPoolCard/ContributeModal.tsx:115 | comparing a whole-number amount with `isGreaterThan`/`eq(0)` gives the same answer as comparing the number, whatever its decimal representation |
| ContributeModal.MaximumLpCommitable | src/views/Ifos/components/IfoFoldableCard/IfoPoolCard/ContributeModal.tsx:82-89 | the maximum is always exactly the limit or the balance; with a positive limit and a non-negative committed amount it never exceeds the limit; with a non-negative balance it is never negative |
| ContributeModal.NoCap | src/views/Ifos/components/IfoFoldableCard/IfoPoolCard/ContributeModal.tsx:83-88 | a limit that is not positive means no cap: the maximum is the balance |
| ContributeModal.HeadroomFitsInBalance | src/views/Ifos/components/IfoFoldableCard/IfoPoolCard/ContributeModal.tsx:84-85 | with a positive limit and `limit − committed ≤ balance` the maximum is the full limit |
| ContributeModal.FullyCommittedStillOffersLimit | src/views/Ifos/components/IfoFoldableCard/IfoPoolCard/ContributeModal.tsx:84-85 | a user who has already committed the whole limit is still offered the whole limit, not zero, for any non-negative balance |
| ContributeModal.HeadroomExceedsBalance | src/views/Ifos/components/IfoFoldableCard/IfoPoolCard/ContributeModal.tsx:84-86 | with a positive limit and `limit − committed > balance` the maximum is the balance, which is then below the limit |
| ContributeModal.AsWrittenVersusIntended | src/views/Ifos/components/IfoFoldableCard/IfoPoolCard/ContributeModal.tsx:82-89 | the dialog's maximum is never below min(remaining cap, balance), and equals it iff nothing is committed or the balance binds |
| ContributeModal.BoundaryTable | src/views/Ifos/components/IfoFoldableCard/IfoPoolCard/ContributeModal.tsx:83-88 | on (0,0,B) and (100,40,30) the dialog's rule and the remaining-cap rule agree; on (100,100,50) and (100,40,1000) the dialog gives 100 where the remaining-cap rule gives 0 and 60 |
| ContributeModal.WarningIffOverMaximum | src/views/Ifos/components/IfoFoldableCard/IfoPoolCard/ContributeModal.tsx:115 | the input warning is raised iff the typed value in base units (value × 10^18) is strictly greater than the maximum |
| ContributeModal.NoNumberNoWarning | src/views/Ifos/components/IfoFoldableCard/IfoPoolCard/ContributeModal.tsx:143-145 | an empty or unparseable input (NaN) never raises the warning and always keeps Confirm disabled |
| ContributeModal.ApproveGating | src/views/Ifos/components/IfoFoldableCard/IfoPoolCard/ContributeModal.tsx:141 | Approve is enabled iff not approved, not confirming and not confirmed |
| ContributeModal.ConfirmGating | src/views/Ifos/components/IfoFoldableCard/IfoPoolCard/ContributeModal.tsx:143-145 | Confirm is enabled iff approved, not confirmed, and the value in base units is a number other than zero |
| ContributeModal.ButtonsExclusive | src/views/Ifos/components/IfoFoldableCard/IfoPoolCard/ContributeModal.tsx:141-145 | Approve and Confirm are never enabled together, and once confirmed both are disabled |
| ContributeModal.ConfirmGateOmissions | src/views/Ifos/components/IfoFoldableCard/IfoPoolCard/ContributeModal.tsx:143-145 | the `isConfirmDisabled` prop is false for an approved, unconfirmed user with an over-maximum value while `isConfirming` is set, and for a negative value |
| ContributeModal.AllowanceCheckIff | src/views/Ifos/components/IfoFoldableCard/IfoPoolCard/ContributeModal.tsx:57-65 | the allowance check is true iff the query returned an allowance greater than zero; a throwing query or an unparseable response gives false and nothing escapes |
| ContributeModal.Approve | src/views/Ifos/components/IfoFoldableCard/IfoPoolCard/ContributeModal.tsx:66-70 | the approval targets the given pool contract |
| ContributeModal.ApprovalCoversEveryDeposit | src/views/Ifos/components/IfoFoldableCard/IfoPoolCard/ContributeModal.tsx:66-75 | the granted allowance, MaxUint256, is at least the base-unit amount of every deposit to either pool whose amount fits in a uint256 |
| ContributeModal.DepositPoolIndexRoundTrip | src/views/Ifos/components/IfoFoldableCard/IfoPoolCard/ContributeModal.tsx:73 | the basic pool deposits with index 0 and the other pool with index 1, and the index identifies the pool back |
| ContributeModal.Deposit | src/views/Ifos/components/IfoFoldableCard/IfoPoolCard/ContributeModal.tsx:71-75 | the deposit carries the scaled value, which the source sends as its decimal string, and an index that names the chosen pool |
| ContributeModal.OnSuccess | src/views/Ifos/components/IfoFoldableCard/IfoPoolCard/ContributeModal.tsx:76-79 | the success callback throws iff `onDismiss` was not supplied, and the parent is notified iff it was |
| ContributeModal.SuccessReportsDeposit | src/views/Ifos/components/IfoFoldableCard/IfoPoolCard/ContributeModal.tsx:71-79 | both callbacks of one render use the same `valueWithTokenDecimals`: the success callback dismisses first, then notifies the parent once with the amount that render's deposit callback sends |
| ClaimModal.Step | src/views/TradingCompetition/components/ClaimModal/index.tsx:43-59 | only `sending` and `error` change the flag; success is reported only on `receipt`; a submission happens only on a click while the button is enabled |
| ClaimModal.InitialState | src/views/TradingCompetition/components/ClaimModal/index.tsx:33 | the dialog starts not confirming with the button enabled, so a first click submits the claim |
| ClaimModal.SendingOnlySetsConfirming | src/views/TradingCompetition/components/ClaimModal/index.tsx:47-49 | `sending` sets the flag, disabling the button, and emits nothing |
| ClaimModal.NoResubmissionWhileConfirming | src/views/TradingCompetition/components/ClaimModal/index.tsx:91-96 | while confirming the button is disabled and a click neither submits nor changes anything |
| ClaimModal.ReceiptEffects | src/views/TradingCompetition/components/ClaimModal/index.tsx:50-54 | `receipt` emits the success toast, then dismiss, then success, each once, and does not reset the flag |
| ClaimModal.ErrorEffects | src/views/TradingCompetition/components/ClaimModal/index.tsx:55-58 | `error` emits one error toast carrying the error's message and clears the flag, so the next click submits again |
| ClaimModal.ClicksBeforeSendingBothSubmit | src/views/TradingCompetition/components/ClaimModal/index.tsx:43-49 | the button is gated only once `sending` arrives: two clicks before it submit twice, a click after it does not |
| ClaimModal.SuccessOnlyOnReceipt | src/views/TradingCompetition/components/ClaimModal/index.tsx:47-58 | over any trace, success reports, dismissals and success toasts each occur exactly as often as `receipt` events |
| ClaimModal.NoSubmitUntilError | src/views/TradingCompetition/components/ClaimModal/index.tsx:43-58 | once confirming, no sequence of events without an `error` submits another claim, and the flag stays set |
| ClaimModal.FinalFlagIsLastToggle | src/views/TradingCompetition/components/ClaimModal/index.tsx:47-58 | after any trace the flag is what the most recent `sending` (true) or `error` (false) made it, or its initial value if neither occurred |

## Left out

- The approve/confirm sequencing hook (`hooks/useApproveConfirmTransaction`) is not part of this model. Only the flags it returns and the callbacks the dialog hands it are modelled; no phase machine is invented for it. That includes what it does with the allowance check's answer and whether it guards double submission.
- The contract calls and wallet sends (`allowance`, `approve`, `depositPool`, `claimReward`, `.send`) are foreign web3 I/O. Their outcomes enter the model as inputs: `AllowanceQuery` and the claim `Event`s.
- Parsing the typed string is left out. The typed value enters as an already-parsed `Amount`, and NaN stands for an empty or unparseable string. Values with more than 18 decimals are representable, but the base-unit lemmas are stated only for at most 18.
- The multiplier buttons, balance and price display, `getBalanceNumber`, `formatNumber` and `toFixed(2)` are left out: they involve floating-point multipliers and formatting only.
- Rendering, styling, translated text, images and the prediction label, prizes text, store, provider and menu files are left out: they hold no decision logic.
- ClaimModal.Step: events are taken in any order and are not tied to the click that caused them. Several in-flight sends all share the one flag, which is what the component does.
- ClaimModal: `onDismiss` and `onClaimSuccess` are assumed present. Their prop types (`CompetitionProps`) are not part of this model.
- The source's `PoolIds` enum is not part of this model. The pool is one of the two IFO pools, and every pool other than the basic one deposits with index 1.
- ContributeModal.Deposit: the amount is sent as `valueWithTokenDecimals.toString()`, and the format of that string is not modelled. For example, the decimal library may print exponential notation for large values, or a fraction for a value with more than 18 decimals.
- ContributeModal.ConfirmGateOmissions: it states only what the `isConfirmDisabled` prop is. The buttons component (`ApproveConfirmButtons`) also receives `isConfirming` and may disable or spin the button itself. That component is not part of this model.
- ContributeModal.SuccessReportsDeposit: it holds only for callbacks built in the same render. The approve/confirm hook decides which render's `onConfirm` and `onSuccess` it calls, and that hook is not part of this model.
