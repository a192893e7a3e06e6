/** What becomes of a withdrawal, section by section: which status it takes, for what reason, and what is recorded. */
module WithdrawOutcomes {
  import opened Prelude
  import opened Amounts
  import opened Withdraw
  import opened WithdrawFacts
  import Deposit

  /** The sixth failed try of a status is the last, and so is the first that is not transient. */
  predicate LastTry(r: Record, f: Fault) {
    !f.transient || Tries(r, r.status) >= 5
  }

  /** A try that failed is counted, dated, and changes nothing else. */
  lemma WhatAFaultLeaves(r: Record, f: Fault, now: nat)
    ensures var n := AfterFault(r, f, now);
            && Tries(n, r.status) == Tries(r, r.status) + 1 && n.lastErrorAt == Some(now)
            && (forall s | s != r.status :: Tries(n, s) == Tries(r, s))
            && n.hashes == r.hashes && n.landing == r.landing && n.waitPolls == r.waitPolls
                && n.amountUsdc == r.amountUsdc
            && n.receivedUsdc == r.receivedUsdc && n.amountTry == r.amountTry
            && (if LastTry(r, f) then n.status.Failed? && n.error == Some(StepError(f.code))
                else n.status == r.status && n.error == r.error && n.history == r.history)
  {
  }

  /** A new withdrawal is for exactly the stroops that were typed, and claims nothing. */
  lemma NewWithdrawal(stroops: nat, stellar: bool)
    ensures var r := Opened(stroops, stellar);
            && ToStroops(r.amountUsdc) == Some(stroops) && r.stellar == stellar && r.status.Created?
                && r.landing == None
            && r.hashes == Hashes(None, None, None, None, false) && r.waitPolls == 0 && (forall s :: Tries(r, s) == 0)
  {
    StroopsRoundTrip(stroops);
  }

  // --- the reverse bridge -----------------------------------------------------------------------

  /**
   A withdrawal to an address needs no bridge. One through the anchor waits for its USDC exactly when the bridge was
   built, and then it is for the record's own amount and cannot be aborted; a missing anchor is tried again.
   */
  lemma WhenBuilt(r: Record, a: Answer, now: nat)
    requires r.status.Created? && ToStroops(r.amountUsdc).Some?
    ensures var n := Advanced(r, a, now);
            && (n.status.AwaitingUsdc? <==> r.stellar || (r.anchor && a.build.Ok?))
            && (n.status.AwaitingUsdc? ==>
                  && n.landing == (if r.stellar then r.landing
                                   else Some(Deposit.Plan(ToStroops(r.amountUsdc).value, false)))
                  && n.hashes == r.hashes && n.amountUsdc == r.amountUsdc && n.attempts == r.attempts)
            && (!r.stellar && !r.anchor ==> n == AfterFault(r, ANCHOR_PATH_GONE, now) && ANCHOR_PATH_GONE.transient)
            && (!r.stellar && r.anchor && a.build.Err? ==> n == AfterFault(r, a.build.error, now))
  {
    if !r.stellar { BuildStep(r, a, now); }
  }

  lemma BuildStep(r: Record, a: Answer, now: nat)
    requires r.status.Created? && !r.stellar && ToStroops(r.amountUsdc).Some?
    ensures r.anchor && a.build.Ok? ==>
              Step(r, a, now) == Ok(r.(sep6 := true, status := AwaitingUsdc,
                                       landing := Some(Deposit.Plan(ToStroops(r.amountUsdc).value, false))))
    ensures !r.anchor ==> Step(r, a, now) == Err(ANCHOR_PATH_GONE)
    ensures r.anchor && a.build.Err? ==> Step(r, a, now) == Err(a.build.error)
  {
  }

  // --- paying the anchor ------------------------------------------------------------------------

  /** To an address there is nothing left to pay: the transfer was the payout. */
  lemma WhenSentToAnAddress(r: Record, a: Answer, now: nat)
    requires r.status.UsdcSent? && r.stellar
    ensures var n := Advanced(r, a, now);
            n.status.Completed? && n.hashes == r.hashes && n.history == r.history + [Completed]
  {
  }

  ghost predicate Bridged(r: Record, amount: nat) {
    !r.stellar && r.landing.Some? && ToStroops(r.amountUsdc) == Some(amount)
  }

  /** The payment is submitted exactly when the balance read covers it, and recorded exactly when it is reported. */
  lemma WhenPaid(r: Record, a: Answer, now: nat, amount: nat)
    requires r.status.UsdcSent? && Bridged(r, amount)
    ensures var n := Advanced(r, a, now);
            && (n.status.Paid? <==> a.balance.Ok? && a.balance.value >= amount && a.submit.Ok?)
            && (n.status.Paid? ==>
                  n.hashes == r.hashes.(payment := Some(a.submit.value)) && n.waitPolls == r.waitPolls
                      && n.attempts == r.attempts)
            && (a.balance.Err? ==> n == AfterFault(r, a.balance.error, now))
            && (a.balance.Ok? && a.balance.value >= amount && a.submit.Err? ==> n == AfterFault(r, a.submit.error, now))
  {
    PayOutCases(r, a, now, amount);
    assert Step(r, a, now) == PayOut(r, a, now);
  }

  /** Short of the amount it only waits: sixty times, and the sixty-first fails it. */
  lemma WhenShort(r: Record, a: Answer, now: nat, amount: nat)
    requires r.status.UsdcSent? && Bridged(r, amount) && a.balance.Ok? && a.balance.value < amount
    ensures var n := Advanced(r, a, now);
            && n.waitPolls == r.waitPolls + 1 && n.attempts == r.attempts && n.hashes == r.hashes
            && (if r.waitPolls < 60 then n.status.UsdcSent? && n.lastErrorAt == Some(now)
                else n.status.Failed? && n.error == Some(UsdcNotReceived))
  {
    assert Step(r, a, now) == PayOut(r, a, now);
  }

  // --- waiting for the payout -------------------------------------------------------------------

  ghost predicate Pollable(r: Record) {
    r.status.Paid? && r.sep6 && r.anchor
  }

  predicate Says(a: Answer, s: Deposit.AnchorStatus) {
    !a.tokenExpired && a.poll.Ok? && a.poll.value.status == s
  }

  /** The anchor gave up on it. */
  predicate GaveUp(a: Answer) {
    || Says(a, Deposit.AnchorError) || Says(a, Deposit.Expired) || Says(a, Deposit.Refunded)
    || Says(a, Deposit.NoMarket) || Says(a, Deposit.TooSmall) || Says(a, Deposit.TooLarge)
  }

  lemma PaidPoll(r: Record, a: Answer, now: nat)
    requires Pollable(r)
    ensures PollSep6(r, a).Ok? ==> Advanced(r, a, now) == WithHistory(r, PollSep6(r, a).value)
    ensures PollSep6(r, a).Err? ==> Advanced(r, a, now) == AfterFault(r, PollSep6(r, a).error, now)
  {
  }

  /** The payout is reported to the user exactly when the anchor says completed. */
  lemma WhenCompleted(r: Record, a: Answer, now: nat)
    requires Pollable(r)
    ensures Advanced(r, a, now).status.Completed? <==> Says(a, Deposit.Completed)
    ensures Says(a, Deposit.Completed) ==>
              var (n, tx) := (Advanced(r, a, now), a.poll.value);
              && n.receivedUsdc == (if tx.amountIn.Some? then tx.amountIn else r.receivedUsdc)
              && n.amountTry == (if tx.amountOut.Some? then tx.amountOut else r.amountTry)
              && n.hashes.payment == r.hashes.payment && n.hashes.vault == r.hashes.vault
              && (r.landing.Some? && a.submit.Ok? ==>
                    n.hashes.cleanup == Some(Deposit.Tx(a.submit.value))
                        && n.hashes.cleanupError == r.hashes.cleanupError)
              && (r.landing.Some? && a.submit.Err? ==> n.hashes.cleanup == r.hashes.cleanup && n.hashes.cleanupError)
              && (r.landing.None? ==> n.hashes == r.hashes)
  {
    PaidPoll(r, a, now);
  }

  /** It fails when its token has run out, when the anchor gave up, with the anchor's own word, and after 120 waits. */
  lemma WhenThePayoutFails(r: Record, a: Answer, now: nat)
    requires Pollable(r)
    ensures var n := Advanced(r, a, now);
            && (a.tokenExpired ==> n.status.Failed? && n.error == Some(AuthExpired))
            && (GaveUp(a) ==> n.status.Failed? && n.error == Some(AnchorReported(a.poll.value.status)))
            && (!a.tokenExpired && a.poll.Err? ==> n == AfterFault(r, a.poll.error, now))
            && (n.status.Failed? ==>
                  || a.tokenExpired || GaveUp(a)
                  || (a.poll.Err? && LastTry(r, a.poll.error))
                  || (a.poll.Ok? && r.waitPolls >= 120 && n.error == Some(NotMatched)))
  {
    PaidPoll(r, a, now);
  }

  /** Any other answer is one more wait. */
  lemma WhenThePayoutWaits(r: Record, a: Answer, now: nat)
    requires Pollable(r) && !a.tokenExpired && a.poll.Ok? && !GaveUp(a) && !Says(a, Deposit.Completed)
    ensures var n := Advanced(r, a, now);
            && n.waitPolls == r.waitPolls + 1 && n.attempts == r.attempts && n.hashes == r.hashes
            && n.receivedUsdc == r.receivedUsdc && n.amountTry == r.amountTry
            && (if r.waitPolls < 120 then n.status.Paid? else n.status.Failed? && n.error == Some(NotMatched))
  {
    PaidPoll(r, a, now);
  }

  // --- what the browser does --------------------------------------------------------------------

  /** Polls leave alone what waits for the browser and what is finished. */
  lemma WhenThereIsNothingToDo(r: Record, a: Answer, now: nat)
    requires r.status.AwaitingUsdc? || r.status.Completed? || r.status.Failed?
    ensures Advanced(r, a, now) == r
  {
  }

  /** The report that the USDC was sent counts once, while it is awaited. */
  lemma WhenUsdcIsReported(r: Record, vault: nat, transfer: nat)
    ensures var n := Do(r, UsdcReport(vault, transfer));
            if r.status.AwaitingUsdc? then
              && n.status.UsdcSent? && n.history == r.history + [UsdcSent] && n.landing == r.landing
              && n.hashes == Hashes(Some(vault), Some(transfer), r.hashes.payment, r.hashes.cleanup,
                  r.hashes.cleanupError)
            else n == r
  {
  }

  /**
   The vault transaction is remembered once, before the USDC is sent; a later report is refused unless it is
   known.
   */
  lemma WhenTheVaultIsReported(r: Record, vault: nat)
    ensures VaultReported(r, vault).None? <==> r.hashes.vault.None? && !r.status.Created? && !r.status.AwaitingUsdc?
    ensures var n := Do(r, VaultReport(vault));
            && n.status == r.status && n.history == r.history
            && n.hashes.vault == (if r.hashes.vault.None? && (r.status.Created? || r.status.AwaitingUsdc?)
                                  then Some(vault) else r.hashes.vault)
            && n == r.(hashes := r.hashes.(vault := n.hashes.vault))
  {
  }
}
