/** The transaction monitor and the revert-message classification that
    components/burn/BurnButton.tsx and components/claim/ClaimButton.tsx each carry: wait
    for one confirmation of the pending transaction, report it, and settle the button. */
module TxMonitor {
  import opened Optional
  import opened Strings

  /** How submitting the call ends: a transaction hash, or an exception with its
      message (absent when the thrown value has none). */
  datatype SubmitOutcome = Sent(hash: string) | SubmitThrows(message: Option<string>)

  /** How `waitForTransaction` ends: a receipt (`None` for a null receipt) with its
      status, or an exception. */
  datatype WaitOutcome = Mined(status: Option<int>) | WaitThrows

  /** What one run of the monitor does: the hash it reports to the page, the message
      key it shows, and whether its `finally` block settles the button. */
  datatype MonitorResult = MonitorResult(confirmed: Option<string>, error: Option<string>, settle: bool)

  /** One run of `monitorTransaction` for `pendingTx`. `subscribed` is whether the
      effect is still current when the wait returns; without a provider the run
      returns before waiting, while still subscribed. */
  function Monitor(pendingTx: string, hasProvider: bool, outcome: WaitOutcome, subscribed: bool): (r: MonitorResult)
    ensures r.confirmed.Some? <==> hasProvider && subscribed && outcome == Mined(Some(1))
    ensures r.confirmed.Some? ==> r.confirmed.value == pendingTx
    ensures r.error == Some("errors.transaction.failed") <==>
      hasProvider && subscribed && outcome.Mined? && outcome.status != Some(1)
    ensures r.error == Some("errors.transaction.monitoring") <==> hasProvider && outcome.WaitThrows?
    ensures r.error.Some? ==> r.confirmed.None?
    ensures r.settle <==> !hasProvider || subscribed
  {
    if !hasProvider then MonitorResult(None, None, true)
    else match outcome
      case WaitThrows => MonitorResult(None, Some("errors.transaction.monitoring"), subscribed)
      case Mined(status) =>
        if !subscribed then MonitorResult(None, None, false)
        else if status == Some(1) then MonitorResult(Some(pendingTx), None, true)
        else MonitorResult(None, Some("errors.transaction.failed"), true)
  }

  /** Once unsubscribed, a wait that returns changes nothing; only the `catch` block,
      which the flag does not guard, still shows its message. */
  lemma UnsubscribedRunIsSilent(pendingTx: string, outcome: WaitOutcome)
    ensures outcome.Mined? ==> Monitor(pendingTx, true, outcome, false) == MonitorResult(None, None, false)
    ensures outcome.WaitThrows? ==>
      Monitor(pendingTx, true, outcome, false) == MonitorResult(None, Some("errors.transaction.monitoring"), false)
  {
  }

  /** The two revert reasons a button recognises, each with its message key, and the
      key used for everything else. */
  datatype ErrorRules = ErrorRules(firstReason: string, firstKey: string,
                                   secondReason: string, secondKey: string, fallbackKey: string)

  /** The `catch` block's classification of `error.message` (absent or empty counts as
      falsy): revert reasons only under "execution reverted", the user-rejection text
      only without it, and the fallback key for everything else. */
  function Classify(rules: ErrorRules, message: Option<string>): (key: string)
    ensures message.None? ==> key == rules.fallbackKey
    ensures message.Some? ==> (
      var m := message.value;
      (Contains(m, "execution reverted") && Contains(m, rules.firstReason) ==> key == rules.firstKey) &&
      ((Contains(m, "execution reverted") && !Contains(m, rules.firstReason) && Contains(m, rules.secondReason))
         ==> key == rules.secondKey) &&
      ((!Contains(m, "execution reverted") && Contains(m, "user rejected transaction"))
         ==> key == "errors.transaction.userRejected") &&
      ((!Contains(m, "execution reverted") && !Contains(m, "user rejected transaction"))
         ==> key == rules.fallbackKey) &&
      ((Contains(m, "execution reverted") && !Contains(m, rules.firstReason) && !Contains(m, rules.secondReason))
         ==> key == rules.fallbackKey))
  {
    match message
    case None => rules.fallbackKey
    case Some(m) =>
      if m == "" then rules.fallbackKey
      else if Contains(m, "execution reverted") then
        if Contains(m, rules.firstReason) then rules.firstKey
        else if Contains(m, rules.secondReason) then rules.secondKey
        else rules.fallbackKey
      else if Contains(m, "user rejected transaction") then "errors.transaction.userRejected"
      else rules.fallbackKey
  }

  /** A revert whose message also mentions a user rejection is still classified by its
      revert reason, never as a rejection. */
  lemma RevertTakesPrecedence(rules: ErrorRules, m: string)
    requires Contains(m, "execution reverted")
    requires rules.fallbackKey != "errors.transaction.userRejected"
    requires rules.firstKey != "errors.transaction.userRejected"
    requires rules.secondKey != "errors.transaction.userRejected"
    ensures Classify(rules, Some(m)) != "errors.transaction.userRejected"
  {
    assert m != "" by {
      var i := IndexOf(m, "execution reverted").value;
      assert OccursAt(m, "execution reverted", i);
    }
  }
}
