/** The decision logic of the IFO contribution dialog.

All token amounts coming from the chain (the per-user limit, the amount already
committed, the wallet balance, an allowance) are whole numbers of base units. The
value the user types is an `Amount`, scaled by 10^18 before it is compared or sent.
The approve/confirm sequencing hook only reaches this model through the flags it
returns (`TxFlags`) and the callbacks it is given.
 */
module ContributeModal {
  import opened Amounts
  import opened Optional

  /** The two sale pools of an IFO. */
  datatype PoolId = PoolBasic | PoolUnlimited

  /** The status flags returned by the approve/confirm transaction hook. */
  datatype TxFlags = TxFlags(isApproving: bool, isApproved: bool, isConfirming: bool, isConfirmed: bool)

  /** Outcome of the raising-token `allowance(owner, spender)` query. */
  datatype AllowanceQuery = Returned(response: Amount) | Threw(message: string)

  /** Arguments of the two transactions the dialog submits. */
  datatype ApproveArgs = ApproveArgs(spender: string, amount: nat)
  datatype DepositArgs = DepositArgs(amount: Amount, poolIndex: nat)

  /** Observable effects of the success callback, in order. */
  datatype Effect = Dismiss | NotifyParent(amount: Amount)

  /** What the success callback did, and whether it ended by throwing. */
  datatype SuccessOutcome = SuccessOutcome(effects: seq<Effect>, threw: bool)

  // ---------------------------------------------------------------------------
  // Maximum committable amount

  /** The largest amount the input is checked against, as the dialog computes it:
      with a positive per-user limit, the full limit when the remaining headroom fits
      in the balance and the balance otherwise; with no limit, the balance. */
  function MaximumLpCommitable(limitPerUserInLP: int, amountTokenCommittedInLP: int, userCurrencyBalance: int): (r: int)
    ensures r == limitPerUserInLP || r == userCurrencyBalance
    ensures limitPerUserInLP > 0 && amountTokenCommittedInLP >= 0 ==> r <= limitPerUserInLP
    ensures userCurrencyBalance >= 0 ==> r >= 0
  {
    if limitPerUserInLP > 0 then
      if limitPerUserInLP - amountTokenCommittedInLP <= userCurrencyBalance then limitPerUserInLP
      else userCurrencyBalance
    else
      userCurrencyBalance
  }

  /** A remaining-cap rule, `min(max(limit - committed, 0), balance)` under a positive
      cap and the balance otherwise; used only as a reference to compare the dialog's
      rule against. */
  function IntendedMaximum(perUserCap: int, alreadyCommitted: int, availableBalance: int): (r: int)
    ensures perUserCap > 0 ==> r <= availableBalance && (r <= perUserCap - alreadyCommitted || r <= 0)
    ensures perUserCap > 0 && availableBalance >= 0 ==> r >= 0
  {
    if perUserCap > 0 then
      var remaining := if perUserCap - alreadyCommitted < 0 then 0 else perUserCap - alreadyCommitted;
      if remaining <= availableBalance then remaining else availableBalance
    else
      availableBalance
  }

  lemma NoCap(limit: int, committed: int, balance: int)
    requires limit <= 0
    ensures MaximumLpCommitable(limit, committed, balance) == balance
  {
  }

  /** When the headroom fits in the balance the full limit comes back. */
  lemma HeadroomFitsInBalance(limit: int, committed: int, balance: int)
    requires limit > 0 && limit - committed <= balance
    ensures MaximumLpCommitable(limit, committed, balance) == limit
  {
  }

  /** A user who has already committed the whole limit is still offered the whole
      limit, never zero, whatever their balance. */
  lemma FullyCommittedStillOffersLimit(limit: int, committed: int, balance: int)
    requires limit > 0 && committed == limit && balance >= 0
    ensures MaximumLpCommitable(limit, committed, balance) == limit
    ensures MaximumLpCommitable(limit, committed, balance) > limit - committed
  {
  }

  lemma HeadroomExceedsBalance(limit: int, committed: int, balance: int)
    requires limit > 0 && limit - committed > balance
    ensures MaximumLpCommitable(limit, committed, balance) == balance
    ensures committed >= 0 ==> balance < limit
  {
  }

  /** The dialog's rule never allows less than the reference rule, and agrees with it
      exactly when nothing is committed yet or the balance is the binding constraint. */
  lemma AsWrittenVersusIntended(limit: int, committed: int, balance: int)
    requires committed >= 0 && balance >= 0
    ensures IntendedMaximum(limit, committed, balance) <= MaximumLpCommitable(limit, committed, balance)
    ensures limit <= 0 ==> MaximumLpCommitable(limit, committed, balance) == IntendedMaximum(limit, committed, balance)
    ensures limit > 0 ==>
      (MaximumLpCommitable(limit, committed, balance) == IntendedMaximum(limit, committed, balance)
       <==> committed == 0 || limit - committed > balance)
  {
  }

  /** Both rules on four boundary inputs (limit, committed, balance): they agree on
      (0, 0, b) and (100, 40, 30) and differ on (100, 100, 50) and (100, 40, 1000). */
  lemma BoundaryTable(b: nat)
    ensures MaximumLpCommitable(0, 0, b) == b == IntendedMaximum(0, 0, b)
    ensures MaximumLpCommitable(100, 40, 30) == 30 == IntendedMaximum(100, 40, 30)
    ensures MaximumLpCommitable(100, 100, 50) == 100 && IntendedMaximum(100, 100, 50) == 0
    ensures MaximumLpCommitable(100, 40, 1000) == 100 && IntendedMaximum(100, 40, 1000) == 60
  {
  }

  // ---------------------------------------------------------------------------
  // Input warning and button gating

  /** The input is flagged when the scaled value exceeds the maximum. */
  predicate IsWarning(valueWithTokenDecimals: Amount, maximum: int) {
    GreaterThan(valueWithTokenDecimals, maximum)
  }

  predicate IsApproveDisabled(flags: TxFlags) {
    flags.isConfirmed || flags.isConfirming || flags.isApproved
  }

  predicate IsConfirmDisabled(flags: TxFlags, valueWithTokenDecimals: Amount) {
    !flags.isApproved || flags.isConfirmed || valueWithTokenDecimals.NaN? || IsZero(valueWithTokenDecimals)
  }

  /** For a typed value with at most 18 decimals the warning is raised exactly when
      its amount in base units is strictly above the maximum. */
  lemma WarningIffOverMaximum(units: int, exp: nat, maximum: int)
    requires exp <= TokenDecimals
    ensures IsWarning(ScaleToBaseUnits(Finite(units, exp)), maximum)
            <==> units * Pow10(TokenDecimals - exp) > maximum
  {
    ScaledDenotesBaseUnits(units, exp);
    DenotedComparisons(ScaleToBaseUnits(Finite(units, exp)), units * Pow10(TokenDecimals - exp), maximum);
  }

  /** An empty or unparseable input never raises the warning and never enables Confirm. */
  lemma NoNumberNoWarning(maximum: int, flags: TxFlags)
    ensures !IsWarning(ScaleToBaseUnits(NaN), maximum)
    ensures IsConfirmDisabled(flags, ScaleToBaseUnits(NaN))
  {
  }

  lemma ApproveGating(flags: TxFlags)
    ensures !IsApproveDisabled(flags) <==> !flags.isApproved && !flags.isConfirming && !flags.isConfirmed
  {
  }

  /** An enabled Confirm button means: approved, not yet confirmed, and a number that
      is not zero. For a typed value with at most 18 decimals, "not zero" is about its
      amount in base units. */
  lemma ConfirmGating(flags: TxFlags, units: int, exp: nat)
    requires exp <= TokenDecimals
    ensures !IsConfirmDisabled(flags, ScaleToBaseUnits(Finite(units, exp)))
            <==> flags.isApproved && !flags.isConfirmed && units * Pow10(TokenDecimals - exp) != 0
  {
    ScaledDenotesBaseUnits(units, exp);
    DenotedComparisons(ScaleToBaseUnits(Finite(units, exp)), units * Pow10(TokenDecimals - exp), 0);
  }

  /** Approve and Confirm are never enabled together, and a confirmed deposit disables both. */
  lemma ButtonsExclusive(flags: TxFlags, value: Amount)
    ensures IsApproveDisabled(flags) || IsConfirmDisabled(flags, value)
    ensures flags.isConfirmed ==> IsApproveDisabled(flags) && IsConfirmDisabled(flags, value)
  {
  }

  /** The `isConfirmDisabled` prop depends neither on the warning, nor on the
      `isConfirming` flag, nor on the sign of the value: it is false for an approved,
      unconfirmed user with an over-maximum amount while `isConfirming` is set, and
      for a negative amount. What the buttons component does with its own
      `isConfirming` prop is not part of this model. */
  lemma ConfirmGateOmissions()
    ensures var over := ScaleToBaseUnits(Finite(2, 0));
            IsWarning(over, MaximumLpCommitable(Pow10(TokenDecimals), 0, 5 * Pow10(TokenDecimals)))
            && !IsConfirmDisabled(TxFlags(false, true, true, false), over)
    ensures !IsConfirmDisabled(TxFlags(false, true, false, false), ScaleToBaseUnits(Finite(-1, 0)))
  {
  }

  // ---------------------------------------------------------------------------
  // Callbacks handed to the approve/confirm hook

  /** The approval check: true when some allowance is already granted, false when the
      query fails instead of letting the failure escape. */
  function AllowanceCheck(query: AllowanceQuery): bool {
    match query
    case Returned(response) => GreaterThan(response, 0)
    case Threw(_) => false
  }

  lemma AllowanceCheckIff(query: AllowanceQuery, allowance: int)
    ensures query.Threw? ==> !AllowanceCheck(query)
    ensures query.Returned? && Denotes(query.response, allowance) ==> (AllowanceCheck(query) <==> allowance > 0)
    ensures query.Returned? && query.response.NaN? ==> !AllowanceCheck(query)
  {
    if query.Returned? && Denotes(query.response, allowance) {
      DenotedComparisons(query.response, allowance, 0);
    }
  }

  /** The approval transaction grants the pool contract the largest uint256 allowance. */
  function Approve(spender: string): (r: ApproveArgs)
    ensures r.spender == spender
  {
    ApproveArgs(spender, MaxUint256)
  }

  /** The granted allowance covers every later deposit whose amount in base units
      fits in a uint256, so one approval serves every contribution to either pool. */
  lemma ApprovalCoversEveryDeposit(spender: string, valueWithTokenDecimals: Amount, pool: PoolId, u: int)
    requires Denotes(Deposit(valueWithTokenDecimals, pool).amount, u)
    requires 0 <= u < Uint256Modulus
    ensures u <= Approve(spender).amount
    ensures Approve(spender).amount + 1 == Uint256Modulus
  {
  }

  /** The index `depositPool` takes: 0 for the basic pool, 1 otherwise. */
  function DepositPoolIndex(pool: PoolId): (r: nat)
    ensures r < 2
  {
    if pool == PoolBasic then 0 else 1
  }

  function PoolOfDepositIndex(index: nat): Option<PoolId> {
    if index == 0 then Some(PoolBasic) else if index == 1 then Some(PoolUnlimited) else None
  }

  lemma DepositPoolIndexRoundTrip(pool: PoolId, index: nat)
    ensures PoolOfDepositIndex(DepositPoolIndex(pool)) == Some(pool)
    ensures PoolOfDepositIndex(index) == Some(pool) ==> DepositPoolIndex(pool) == index
  {
  }

  /** The deposit transaction: the scaled value into the chosen pool. The source
      sends the value as its decimal string; that string form is not modelled. */
  function Deposit(valueWithTokenDecimals: Amount, pool: PoolId): (r: DepositArgs)
    ensures r.amount == valueWithTokenDecimals
    ensures PoolOfDepositIndex(r.poolIndex) == Some(pool)
  {
    DepositArgs(valueWithTokenDecimals, DepositPoolIndex(pool))
  }

  /** The success callback: dismiss the dialog, then hand the scaled value to the
      parent. `onDismiss` is optional in the dialog's props but called without a
      check, so without it the callback throws before the parent hears of success. */
  function OnSuccess(onDismiss: Option<()>, valueWithTokenDecimals: Amount): (r: SuccessOutcome)
    ensures r.threw <==> onDismiss.None?
    ensures NotifyParent(valueWithTokenDecimals) in r.effects <==> onDismiss.Some?
  {
    match onDismiss
    case Some(_) => SuccessOutcome([Dismiss, NotifyParent(valueWithTokenDecimals)], false)
    case None => SuccessOutcome([], true)
  }

  /** Both callbacks built in one render close over the same `valueWithTokenDecimals`:
      when the dialog can be dismissed, the success callback notifies the parent once,
      after dismissing, with the amount that render's deposit callback sends. Which
      render's callbacks the approve/confirm hook calls is not part of this model. */
  lemma SuccessReportsDeposit(valueWithTokenDecimals: Amount, pool: PoolId)
    ensures var effects := OnSuccess(Some(()), valueWithTokenDecimals).effects;
            |effects| == 2 && effects[0] == Dismiss
            && effects[1] == NotifyParent(Deposit(valueWithTokenDecimals, pool).amount)
  {
  }
}
