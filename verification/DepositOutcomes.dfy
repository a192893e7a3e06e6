/** What becomes of a deposit, section by section: which status it takes, for what reason, and what is recorded. */
module DepositOutcomes {
  import opened Prelude
  import opened Amounts
  import opened Deposit
  import opened DepositFacts

  // --- polling the anchor -----------------------------------------------------------------------

  /** Waiting for the anchor, with everything a poll needs. */
  predicate Pollable(r: Record) {
    (r.status.AwaitingTransfer? || r.status.TransferReceived? || r.status.OnrampPending?)
    && r.sep6.Some? && r.landing.Some? && r.anchor
  }

  predicate Answered(a: Answer) {
    !a.tokenExpired && a.poll.Ok?
  }

  predicate Says(a: Answer, s: AnchorStatus) {
    Answered(a) && a.poll.value.status == s
  }

  /** The amount the anchor says it paid, in stroops; nothing said is zero, and what is no number is None. */
  function PaidOut(a: Answer): Option<nat>
    requires a.poll.Ok?
  {
    ToStroops(match a.poll.value.amountOut case Some(s) => s case None => "0")
  }

  /** The sixth failed try of a status is the last, and so is the first that is not transient. */
  predicate LastTry(r: Record, f: Fault) {
    !f.transient || Tries(r, r.status) >= 5
  }

  /** Every reason for which a poll can fail a waiting deposit. */
  function WhyFailed(r: Record, a: Answer): Option<ErrorCode>
    requires r.landing.Some?
  {
    if a.tokenExpired then Some(StepError(ANCHOR_AUTH_EXPIRED.code))
    else if a.poll.Err? then if LastTry(r, a.poll.error) then Some(StepError(a.poll.error.code)) else None
    else match a.poll.value.status
      case PendingTrust => Some(PendingTrustCode)
      case AnchorError => Some(AnchorReported(AnchorError))
      case Expired => Some(AnchorReported(Expired))
      case Refunded => Some(AnchorReported(Refunded))
      case NoMarket => Some(AnchorReported(NoMarket))
      case TooSmall => Some(AnchorReported(TooSmall))
      case TooLarge => Some(AnchorReported(TooLarge))
      case Completed =>
        (match PaidOut(a)
         case None => Some(StepError(STEP_FAILED.code))
         case Some(paid) => if paid == r.landing.value.amountStroops then None else Some(AmountMismatch))
      case _ => None
  }

  /** The answered poll, before the history entry. */
  lemma Polled(r: Record, a: Answer)
    requires Pollable(r) && Answered(a)
    ensures PollSep6(r, a).Err? <==> Says(a, Completed) && PaidOut(a).None?
    ensures PollSep6(r, a).Ok? ==>
              var n := PollSep6(r, a).value;
              && (n.status.Failed? <==> WhyFailed(r, a).Some?) && (n.status.Failed? ==> n.error == WhyFailed(r, a))
              && (n.status.OnrampPaid? <==> Says(a, Completed) && WhyFailed(r, a).None?)
              && (!n.status.Failed? && !n.status.OnrampPaid? ==> n.status == Onward(r.status, Working(a)))
  {
    if Says(a, Completed) { PolledCompleted(r, a); }
  }

  lemma PolledCompleted(r: Record, a: Answer)
    requires Pollable(r) && Says(a, Completed)
    ensures var paid := if a.poll.value.amountOut.Some? then a.poll.value.amountOut.value else "0";
            PollSep6(r, a) == Judged(r.(sep6 := Some(Completed), money := Settled(r.money, a.poll.value, paid)),
                                     r.landing.value.amountStroops, PaidOut(a))
  {
  }

  /** One status further while the anchor is working. */
  function Onward(s: Status, working: bool): Status {
    match s
    case AwaitingTransfer => if working then TransferReceived else s
    case TransferReceived => if working then OnrampPending else s
    case _ => s
  }

  /** A poll fails the deposit for exactly those reasons, and says which. */
  lemma WhenAPollFails(r: Record, a: Answer, now: nat)
    requires Pollable(r)
    ensures var n := Advanced(r, a, now);
            && (n.status.Failed? <==> WhyFailed(r, a).Some?)
            && (n.status.Failed? ==> n.error == WhyFailed(r, a))
  {
    if Answered(a) {
      Polled(r, a);
      PollAnswered(r, a, now);
    }
  }

  lemma PollAnswered(r: Record, a: Answer, now: nat)
    requires Pollable(r) && Answered(a)
    ensures PollSep6(r, a).Ok? ==> Advanced(r, a, now) == WithHistory(r, PollSep6(r, a).value)
    ensures PollSep6(r, a).Err? ==> PollSep6(r, a).error == STEP_FAILED
    ensures PollSep6(r, a).Err? ==> Advanced(r, a, now) == AfterFault(r, STEP_FAILED, now)
  {
  }

  /** onramp_paid is reached by a poll exactly when the anchor says completed with the very amount of the plan. */
  lemma WhenAPollIsPaid(r: Record, a: Answer, now: nat)
    requires Pollable(r)
    ensures Advanced(r, a, now).status.OnrampPaid? <==>
            Says(a, Completed) && PaidOut(a) == Some(r.landing.value.amountStroops)
  {
    if Answered(a) {
      Polled(r, a);
      PollAnswered(r, a, now);
    }
  }

  /** The anchor works on the transfer. */
  predicate Working(a: Answer) {
    Says(a, PendingAnchor) || Says(a, PendingExternal) || Says(a, PendingStellar)
        || Says(a, PendingUserTransferComplete)
  }

  /** The anchor still waits for the transfer, or for the customer's data. */
  predicate NotYet(a: Answer) {
    || Says(a, PendingUserTransferStart) || Says(a, Incomplete) || Says(a, PendingCustomerInfoUpdate)
    || Says(a, PendingTransactionInfoUpdate) || Says(a, PendingUser)
  }

  /** Failed for a reason, paid once completed, and otherwise one status further or where it was. */
  lemma StatusAfterPoll(r: Record, a: Answer, now: nat)
    requires Pollable(r)
    ensures Advanced(r, a, now).status ==
            if WhyFailed(r, a).Some? then Failed
            else if Says(a, Completed) then OnrampPaid
            else Onward(r.status, Working(a))
  {
    if !Answered(a) {
      WhenAPollFaults(r, a, now);
      WhatAFaultLeaves(r, if a.tokenExpired then ANCHOR_AUTH_EXPIRED else a.poll.error, now);
    } else {
      Polled(r, a);
      PollAnswered(r, a, now);
    }
  }

  /** The two statuses in between are entered one at a time, exactly when the anchor is working. */
  lemma WhenAPollMovesOn(r: Record, a: Answer, now: nat)
    requires Pollable(r)
    ensures var n := Advanced(r, a, now);
            && (n.status.TransferReceived? && !r.status.TransferReceived? <==> r.status.AwaitingTransfer? && Working(a))
            && (n.status.OnrampPending? && !r.status.OnrampPending? <==> r.status.TransferReceived? && Working(a))
            && (n.status == r.status <==>
                  WhyFailed(r, a).None? && !Says(a, Completed) && (Working(a) ==> r.status.OnrampPending?))
  {
    StatusAfterPoll(r, a, now);
    assert Working(a) ==> WhyFailed(r, a).None? && !Says(a, Completed);
  }

  /** A try that failed is counted, dated, and changes nothing else. */
  lemma WhatAFaultLeaves(r: Record, f: Fault, now: nat)
    ensures var n := AfterFault(r, f, now);
            && Tries(n, r.status) == Tries(r, r.status) + 1 && n.lastErrorAt == Some(now)
            && (forall s | s != r.status :: Tries(n, s) == Tries(r, s))
            && n.money == r.money && n.hashes == r.hashes && n.sep6 == r.sep6 && n.landing == r.landing
            && n.abandonedFrom == r.abandonedFrom && n.bankPlayed == r.bankPlayed
            && (if LastTry(r, f) then n.status.Failed? && n.error == Some(StepError(f.code))
                else n.status == r.status && n.error == r.error && n.history == r.history)
  {
  }

  lemma WhenAPollFaults(r: Record, a: Answer, now: nat)
    requires Pollable(r)
    ensures a.tokenExpired ==> Advanced(r, a, now) == AfterFault(r, ANCHOR_AUTH_EXPIRED, now)
    ensures !a.tokenExpired && a.poll.Err? ==> Advanced(r, a, now) == AfterFault(r, a.poll.error, now)
  {
  }

  /** A record without the anchor's transaction, or without its plan, fails at once. */
  lemma WhenSomethingIsMissing(r: Record, a: Answer, now: nat)
    requires !Final(r.status) && !r.status.InWallet?
    ensures Rank(r.status) <= Rank(OnrampPending) && r.sep6.None? ==>
              Advanced(r, a, now).status.Failed? && Advanced(r, a, now).error == Some(StepError(ANCHOR_PATH_GONE.code))
    ensures r.sep6.Some? && r.landing.None? ==>
              Advanced(r, a, now).status.Failed? && Advanced(r, a, now).error == Some(StepError(STEP_FAILED.code))
  {
  }

  /** What a poll records of the money: what was paid once it is completed, what was received when it is first seen. */
  lemma WhatAPollRecords(r: Record, a: Answer, now: nat)
    requires Pollable(r) && Answered(a)
    ensures var n := Advanced(r, a, now);
            && n.hashes == r.hashes && n.abandonedFrom == r.abandonedFrom && n.bankPlayed == r.bankPlayed
            && n.money == (if !Says(a, Completed) then MoneyBefore(r, a)
                           else if PaidOut(a).Some? then MoneyOnceCompleted(r, a) else r.money)
  {
    PollAnswered(r, a, now);
    Polled(r, a);
    if PollSep6(r, a).Ok? { PolledMoney(r, a); } else { WhatAFaultLeaves(r, STEP_FAILED, now); }
  }

  function FirstOf(a: Option<string>, b: Option<string>): Option<string> {
    if a.Some? then a else b
  }

  function FirstHash(a: Option<nat>, b: Option<nat>): Option<nat> {
    if a.Some? then a else b
  }

  lemma PolledMoney(r: Record, a: Answer)
    requires Pollable(r) && Answered(a) && PollSep6(r, a).Ok?
    ensures var (n, tx) := (PollSep6(r, a).value, a.poll.value);
            && n.hashes == r.hashes && n.abandonedFrom == r.abandonedFrom && n.bankPlayed == r.bankPlayed
            && n.money == if Says(a, Completed) then MoneyOnceCompleted(r, a) else MoneyBefore(r, a)
  {
    if Says(a, Completed) {
      PolledCompleted(r, a);
    } else if NotYet(a) {
      PolledNotYet(r, a);
    } else {
      PolledLater(r, a);
    }
  }

  lemma PolledNotYet(r: Record, a: Answer)
    requires Pollable(r) && NotYet(a)
    ensures PollSep6(r, a).Ok?
    ensures var n := PollSep6(r, a).value;
            && n.hashes == r.hashes && n.abandonedFrom == r.abandonedFrom && n.bankPlayed == r.bankPlayed
            && n.money == r.money.(instructions := r.money.instructions || a.poll.value.instructions)
  {
  }

  lemma PolledLater(r: Record, a: Answer)
    requires Pollable(r) && Answered(a) && !NotYet(a) && !Says(a, Completed)
    ensures PollSep6(r, a).Ok?
    ensures var n := PollSep6(r, a).value;
            && n.hashes == r.hashes && n.abandonedFrom == r.abandonedFrom && n.bankPlayed == r.bankPlayed
            && n.money == (if Working(a) && r.status.AwaitingTransfer?
                           then r.money.(receivedTry := FirstOf(a.poll.value.amountIn, Some(r.money.amountTry)))
                               else r.money)
  {
  }

  function MoneyOnceCompleted(r: Record, a: Answer): Money
    requires a.poll.Ok?
  {
    var tx := a.poll.value;
    Money(r.money.amountTry, FirstOf(tx.amountIn, FirstOf(r.money.receivedTry, Some(r.money.amountTry))),
          Some(if tx.amountOut.Some? then tx.amountOut.value else "0"), r.money.instructions,
          FirstHash(tx.stellarTx, r.money.anchorTx))
  }

  function MoneyBefore(r: Record, a: Answer): Money
    requires a.poll.Ok?
  {
    var tx := a.poll.value;
    if Working(a) && r.status.AwaitingTransfer? then r.money.(receivedTry := FirstOf(tx.amountIn,
        Some(r.money.amountTry)))
    else if NotYet(a) && tx.instructions then r.money.(instructions := true)
    else r.money
  }

  /** More KYC is answered on a test network, three times at most, and each answer is counted as a try. */
  lemma WhenKycIsAnswered(r: Record, a: Answer, now: nat)
    requires Pollable(r) && Answered(a) && !(Says(a, Completed) && PaidOut(a).None?)
    ensures Tries(Advanced(r, a, now), AwaitingTransfer) ==
            Tries(r, AwaitingTransfer) +
            (if Says(a, PendingCustomerInfoUpdate) && a.testnet && a.kycSent && Tries(r, AwaitingTransfer) < 3
                && !(a.poll.value.instructions && !r.money.instructions) then 1 else 0)
    ensures Advanced(r, a, now).sep6 == Some(a.poll.value.status)
  {
    Polled(r, a);
    PollAnswered(r, a, now);
    PolledTries(r, a);
  }

  lemma PolledTries(r: Record, a: Answer)
    requires Pollable(r) && Answered(a) && PollSep6(r, a).Ok?
    ensures PollSep6(r, a).value.sep6 == Some(a.poll.value.status)
    ensures PollSep6(r, a).value.attempts ==
            (if Says(a, PendingCustomerInfoUpdate) && a.testnet && a.kycSent && Tries(r, AwaitingTransfer) < 3
                && !(a.poll.value.instructions && !r.money.instructions)
             then r.attempts[AwaitingTransfer := Tries(r, AwaitingTransfer) + 1] else r.attempts)
  {
  }

  // --- moving the money on ----------------------------------------------------------------------

  /** The forward: its transaction is recorded exactly when it is reported as a success. */
  lemma WhenForwarded(r: Record, a: Answer, now: nat)
    requires r.status.OnrampPaid? && r.landing.Some?
    ensures var n := Advanced(r, a, now);
            if a.submit.Ok? then
              && n.status.Forwarded? && n.hashes == r.hashes.(forward := Some(a.submit.value)) && n.money == r.money
              && n.attempts == r.attempts
            else n == AfterFault(r, a.submit.error, now)
  {
  }

  /**
   The cleanup never holds the deposit up; its transaction is recorded when it is reported, and a mark that it
   failed otherwise.
   */
  lemma WhenCleanedUp(r: Record, a: Answer, now: nat)
    requires r.status.Forwarded? && r.landing.Some?
    ensures var n := Advanced(r, a, now);
            && n.status.InWallet? && n.hashes.forward == r.hashes.forward && n.hashes.abort == r.hashes.abort
            && n.money == r.money && n.attempts == r.attempts
            && (if a.submit.Ok? then n.hashes.cleanup == Some(Tx(a.submit.value))
                && n.hashes.cleanupError == r.hashes.cleanupError
                else n.hashes.cleanup == r.hashes.cleanup && n.hashes.cleanupError)
  {
  }

  /** A finished deposit and one in the wallet are left alone by polls. */
  lemma WhenThereIsNothingToDo(r: Record, a: Answer, now: nat)
    requires r.status.InWallet? || r.status.InVault? || r.status.Failed? || r.status.Cancelled? || r.status.Abandoned?
    ensures Advanced(r, a, now) == r
  {
  }

  // --- cancelling and resuming ------------------------------------------------------------------

  /** Only money that is already moving cannot be cancelled. */
  lemma WhenCancelIsRefused(r: Record, a: Answer)
    ensures CancelledOf(r, a).None? <==> r.status.OnrampPaid? || r.status.Forwarded? || r.status.InWallet?
    ensures r.status.InVault? || r.status.Failed? || r.status.Cancelled? || r.status.Abandoned? ==>
        CancelledOf(r, a) == Some(r)
  {
  }

  /**
   Before the anchor works on it a deposit is cancelled for good, with its bridge merged back if nothing was
   received; after that it is only abandoned, and keeps all that a resume needs.
   */
  lemma WhereACancelLeads(r: Record, a: Answer)
    requires r.status.AwaitingTransfer? || r.status.TransferReceived? || r.status.OnrampPending?
    ensures var n := Do(r, Cancel(a));
            && n.status == (if r.status.OnrampPending? then Abandoned else Cancelled)
            && n.abandonedFrom == Some(r.status) && n.history == r.history + [n.status]
            && n.landing == r.landing && n.sep6 == r.sep6 && n.anchor == r.anchor && n.money == r.money
            && n.attempts == r.attempts && n.error == r.error && n.bankPlayed == r.bankPlayed
            && n.hashes == HashesOfACancel(r, a)
  {
    if !r.status.OnrampPending? { CancelledBeforeWork(r, a); }
  }

  lemma CancelledBeforeWork(r: Record, a: Answer)
    requires r.status.AwaitingTransfer? || r.status.TransferReceived?
    ensures CancelledOf(r, a) ==
            Some(r.(status := Cancelled, abandonedFrom := Some(r.status), hashes := HashesOfACancel(r, a),
                    history := r.history + [Cancelled]))
  {
  }

  /** The abort is submitted from the first status only, and recorded when it is reported as a success. */
  function HashesOfACancel(r: Record, a: Answer): Hashes {
    if !r.status.AwaitingTransfer? || r.landing.None? || !r.landing.value.abortable then r.hashes
    else match a.submit
      case Ok(hash) => Hashes(r.hashes.forward, r.hashes.cleanup, Some(Tx(hash)), r.hashes.vault, r.hashes.cleanupError)
      case Err(_) => Hashes(r.hashes.forward, r.hashes.cleanup, r.hashes.abort, r.hashes.vault, true)
  }

  /** What was abandoned can be resumed: back to waiting for the anchor, with all tries again and nothing lost. */
  lemma AbandonedComesBack(r: Record, a: Answer)
    requires RecordOk(r) && r.status.OnrampPending?
    ensures var n := Do(Do(r, Cancel(a)), Resume);
            && n.status.OnrampPending? && n.history == r.history + [Abandoned, OnrampPending]
            && n.abandonedFrom == None && (forall s :: Tries(n, s) == 0)
            && n.landing == r.landing && n.sep6 == r.sep6 && n.money == r.money && n.hashes == r.hashes
                && n.error == r.error
  {
    WhereACancelLeads(r, a);
    ResumedFromAbandoned(Do(r, Cancel(a)));
    assert r.history + [Abandoned] + [OnrampPending] == r.history + [Abandoned, OnrampPending];
  }

  lemma ResumedFromAbandoned(r: Record)
    requires r.status.Abandoned? && r.sep6.Some? && r.landing.Some?
    ensures var n := Do(r, Resume);
            && n.status.OnrampPending? && n.history == r.history + [OnrampPending] && n.abandonedFrom == None
            && n.attempts == map[] && n.landing == r.landing && n.sep6 == r.sep6 && n.money == r.money
            && n.hashes == r.hashes && n.error == r.error
  {
  }

  /** Only what was abandoned and what failed by its amount can be resumed. */
  lemma WhenResumeIsRefused(r: Record)
    requires r.sep6.Some? && r.landing.Some?
    ensures ResumedOf(r).Some? <==> r.status.Abandoned? || (r.status.Failed? && r.error == Some(AmountMismatch))
  {
  }

  /** A mismatch goes back to the forward, with all tries again and its error taken back. */
  lemma MismatchComesBack(r: Record)
    requires r.status.Failed? && r.error == Some(AmountMismatch) && r.landing.Some?
    ensures var n := Do(r, Resume);
            && n.status.OnrampPaid? && n.history == r.history + [OnrampPaid] && n.error == None
            && (forall s :: Tries(n, s) == 0) && n.landing == r.landing && n.money == r.money && n.hashes == r.hashes
  {
  }

  // --- reports and stamps -----------------------------------------------------------------------

  /**
   The first report of a vault deposit moves the deposit on, later ones change nothing, and it has to be in the
   wallet.
   */
  lemma WhenReported(r: Record, hash: nat, again: nat)
    ensures ReportedOf(r, hash).None? <==> !r.status.InWallet? && !r.status.InVault?
    ensures r.status.InWallet? ==>
              var n := Do(r, Report(hash));
              && n.status.InVault? && n.hashes == r.hashes.(vault := Some(hash)) && n.history == r.history + [InVault]
              && n.money == r.money && Do(n, Report(again)) == n
    ensures r.status.InVault? ==> Do(r, Report(hash)) == r
  {
  }

  /** The stamp stays, whoever writes the record, and is all that a stamp changes. */
  lemma StampStays(r: Record, s: Section)
    ensures Do(r, Stamp).bankPlayed && Do(r, Stamp).(bankPlayed := r.bankPlayed) == r
    ensures !s.Stamp? ==> Do(r, s).bankPlayed == r.bankPlayed
  {
    if s.Advance? { AdvanceKeepsStamp(r, s.answer, s.now); }
  }

  lemma AdvanceKeepsStamp(r: Record, a: Answer, now: nat)
    ensures Advanced(r, a, now).bankPlayed == r.bankPlayed
  {
    if PollSep6(r, a).Ok? { PollKeepsStamp(r, a); }
  }

  lemma PollKeepsStamp(r: Record, a: Answer)
    requires PollSep6(r, a).Ok?
    ensures PollSep6(r, a).value.bankPlayed == r.bankPlayed
  {
  }

  /** A new deposit waits for the amount it was opened for, on its own plan, and claims nothing. */
  lemma NewDeposit(plan: Plan, amountTry: string, instructions: bool)
    ensures var r := Opened(plan, amountTry, instructions);
            && Pollable(r) && r.status.AwaitingTransfer? && r.landing == Some(plan) && r.money.amountTry == amountTry
            && r.money.paidUsdc == None && r.money.receivedTry == None && r.money.anchorTx == None
            && r.hashes == Hashes(None, None, None, None, false) && !r.bankPlayed && (forall s :: Tries(r, s) == 0)
  {
  }
}
