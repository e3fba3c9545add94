/** The reward-claim dialog of the trading competition as an event-driven machine.

Its only state is `isConfirming`. The inputs are the user's click on the Confirm
button and the three notifications of the claim transaction (`sending`, `receipt`,
`error`); each input yields the next state and the effects emitted, in order.
 */
module ClaimModal {
  import opened Optional

  datatype ClaimState = ClaimState(isConfirming: bool)

  datatype Event =
    | Click
    | Sending
    | Receipt
    | TxError(message: Option<string>)

  datatype Effect =
    | SubmitClaim
    | ToastSuccess(title: string)
    | ToastError(title: string, description: Option<string>)
    | Dismiss
    | ClaimSuccess

  datatype Reaction = Reaction(next: ClaimState, effects: seq<Effect>)

  const ClaimedText: string := "You have claimed your rewards!"
  const ErrorTitle: string := "Error"

  /** The dialog opens with no claim being confirmed. */
  const Initial: ClaimState := ClaimState(false)

  /** The Confirm button is disabled while a claim is being confirmed. */
  predicate ButtonDisabled(s: ClaimState) {
    s.isConfirming
  }

  /** One input. A click on a disabled button does nothing; an enabled click submits
      `claimReward()` without changing the state. */
  function Step(s: ClaimState, e: Event): (r: Reaction)
    ensures r.next != s ==> e.Sending? || e.TxError?
    ensures ClaimSuccess in r.effects ==> e.Receipt?
    ensures SubmitClaim in r.effects ==> e.Click? && !ButtonDisabled(s)
  {
    match e
    case Click => if ButtonDisabled(s) then Reaction(s, []) else Reaction(s, [SubmitClaim])
    case Sending => Reaction(ClaimState(true), [])
    case Receipt => Reaction(s, [ToastSuccess(ClaimedText), Dismiss, ClaimSuccess])
    case TxError(message) => Reaction(ClaimState(false), [ToastError(ErrorTitle, message)])
  }

  /** A sequence of inputs, processed first to last; effects are concatenated in order. */
  function Run(s: ClaimState, es: seq<Event>): (r: Reaction)
    decreases |es|
  {
    if |es| == 0 then Reaction(s, [])
    else
      var first := Step(s, es[0]);
      var rest := Run(first.next, es[1..]);
      Reaction(rest.next, first.effects + rest.effects)
  }

  function Occurrences<T(==)>(x: T, xs: seq<T>): (n: nat)
    ensures n <= |xs|
    ensures n == 0 <==> x !in xs
  {
    if |xs| == 0 then 0
    else (if xs[0] == x then 1 else 0) + Occurrences(x, xs[1..])
  }

  /** Reference for the final flag: the most recent `sending` or `error` decides it,
      and without either the flag keeps its initial value. */
  function LastToggle(initial: bool, es: seq<Event>): bool
    decreases |es|
  {
    if |es| == 0 then initial
    else match es[|es| - 1]
      case Sending => true
      case TxError(_) => false
      case _ => LastToggle(initial, es[..|es| - 1])
  }

  // ---------------------------------------------------------------------------
  // Single inputs

  lemma InitialState()
    ensures !Initial.isConfirming && !ButtonDisabled(Initial)
    ensures Step(Initial, Click).effects == [SubmitClaim]
  {
  }

  /** `sending` marks the claim as confirming and does nothing else. */
  lemma SendingOnlySetsConfirming(s: ClaimState)
    ensures Step(s, Sending) == Reaction(ClaimState(true), [])
    ensures ButtonDisabled(Step(s, Sending).next)
  {
  }

  /** While confirming, a click reaches a disabled button and submits nothing. */
  lemma NoResubmissionWhileConfirming(s: ClaimState)
    requires s.isConfirming
    ensures ButtonDisabled(s)
    ensures Step(s, Click) == Reaction(s, [])
  {
  }

  /** `receipt` toasts success, then dismisses, then reports success, each once, and
      leaves the flag as it was. */
  lemma ReceiptEffects(s: ClaimState)
    ensures Step(s, Receipt).effects == [ToastSuccess(ClaimedText), Dismiss, ClaimSuccess]
    ensures Step(s, Receipt).next == s
  {
  }

  /** `error` toasts the error's message and clears the flag, so a retry is possible;
      success is not reported. */
  lemma ErrorEffects(s: ClaimState, message: Option<string>)
    ensures Step(s, TxError(message)).effects == [ToastError(ErrorTitle, message)]
    ensures !ButtonDisabled(Step(s, TxError(message)).next)
    ensures Run(s, [TxError(message), Click]).effects == [ToastError(ErrorTitle, message), SubmitClaim]
  {
    assert [TxError(message), Click][1..] == [Click];
    assert [Click][1..] == [];
    assert Run(ClaimState(false), [Click]).effects == [SubmitClaim];
  }

  /** The button is only disabled once `sending` arrives: two clicks before it submit
      the claim twice. */
  lemma ClicksBeforeSendingBothSubmit()
    ensures Run(Initial, [Click, Click]).effects == [SubmitClaim, SubmitClaim]
    ensures Run(Initial, [Click, Sending, Click]).effects == [SubmitClaim]
  {
  }

  // ---------------------------------------------------------------------------
  // Whole traces

  lemma {:induction false} OccurrencesAppend<T>(x: T, a: seq<T>, b: seq<T>)
    ensures Occurrences(x, a + b) == Occurrences(x, a) + Occurrences(x, b)
    decreases |a|
  {
    if |a| > 0 {
      assert (a + b)[1..] == a[1..] + b;
      OccurrencesAppend(x, a[1..], b);
    } else {
      assert a + b == b;
    }
  }

  lemma {:induction false} RunAppend(s: ClaimState, a: seq<Event>, b: seq<Event>)
    ensures Run(s, a + b).next == Run(Run(s, a).next, b).next
    ensures Run(s, a + b).effects == Run(s, a).effects + Run(Run(s, a).next, b).effects
    decreases |a|
  {
    if |a| > 0 {
      assert (a + b)[0] == a[0];
      assert (a + b)[1..] == a[1..] + b;
      RunAppend(Step(s, a[0]).next, a[1..], b);
    } else {
      assert a + b == b;
    }
  }

  /** Over any trace, success is reported, the dialog dismissed and the success toast
      shown exactly as many times as receipts arrived. */
  lemma {:induction false} SuccessOnlyOnReceipt(s: ClaimState, es: seq<Event>)
    ensures Occurrences(ClaimSuccess, Run(s, es).effects) == Occurrences(Receipt, es)
    ensures Occurrences(Dismiss, Run(s, es).effects) == Occurrences(Receipt, es)
    ensures Occurrences(ToastSuccess(ClaimedText), Run(s, es).effects) == Occurrences(Receipt, es)
    decreases |es|
  {
    if |es| > 0 {
      var first := Step(s, es[0]);
      SuccessOnlyOnReceipt(first.next, es[1..]);
      OccurrencesAppend(ClaimSuccess, first.effects, Run(first.next, es[1..]).effects);
      OccurrencesAppend(Dismiss, first.effects, Run(first.next, es[1..]).effects);
      OccurrencesAppend(ToastSuccess(ClaimedText), first.effects, Run(first.next, es[1..]).effects);
    }
  }

  /** Once confirming, no click submits again until an `error` arrives. */
  lemma {:induction false} NoSubmitUntilError(s: ClaimState, es: seq<Event>)
    requires s.isConfirming
    requires forall i :: 0 <= i < |es| ==> !es[i].TxError?
    ensures SubmitClaim !in Run(s, es).effects
    ensures Run(s, es).next.isConfirming
    decreases |es|
  {
    if |es| > 0 {
      NoSubmitUntilError(Step(s, es[0]).next, es[1..]);
    }
  }

  /** After any trace the flag is what the most recent `sending` or `error` made it. */
  lemma {:induction false} FinalFlagIsLastToggle(s: ClaimState, es: seq<Event>)
    ensures Run(s, es).next.isConfirming == LastToggle(s.isConfirming, es)
    decreases |es|
  {
    if |es| > 0 {
      var init := es[..|es| - 1];
      var last := es[|es| - 1];
      assert es == init + [last];
      FinalFlagIsLastToggle(s, init);
      RunAppend(s, init, [last]);
    }
  }
}
