/** What becomes of one sweep item: who is looked at, when something is submitted, and what is written. */
module SweepOutcomes {
  import opened Prelude
  import opened Sweep
  import Bridge
  import Deposit
  import DepositFacts
  import Withdraw
  import WithdrawFacts

  predicate Waiting(d: Deposit.Record) {
    d.status.AwaitingTransfer? || d.status.TransferReceived? || d.status.OnrampPending?
  }

  // --- who is looked at -------------------------------------------------------------------------

  /** Deposits on their way and abandoned ones are never swept, and waiting ones only once they are stale. */
  lemma WhoIsSwept(d: Deposit.Record, stale: bool)
    ensures Candidate(DepositOf(d), stale) ==>
              !d.status.OnrampPaid? && !d.status.Forwarded? && !d.status.Abandoned?
                  && (Waiting(d) ==> stale && d.hashes.forward.None?)
    ensures d.status.Cancelled? || d.status.Failed? || d.status.InWallet? || d.status.InVault? ==>
        Candidate(DepositOf(d), stale)
    ensures Waiting(d) && d.hashes.forward.None? ==> Candidate(DepositOf(d), true)
  {
  }

  /**
   Among well-formed candidates the cleanup is for those past their forward, the abort for the others that have
   one.
   */
  lemma WhichEnvelope(d: Deposit.Record, stale: bool)
    requires DepositFacts.RecordOk(d) && Candidate(DepositOf(d), stale)
    ensures EnvelopeFor(DepositOf(d)).None? <==>
            d.hashes.cleanup.Some? || d.hashes.abort.Some? || (!DepositFacts.PastForward(d.status)
                && !d.landing.value.abortable)
    ensures EnvelopeFor(DepositOf(d)).Some? ==>
              EnvelopeFor(DepositOf(d)).value == (if DepositFacts.PastForward(d.status) then Bridge.Cleanup
                  else Bridge.Abort)
  {
  }

  /** For withdrawals there is only the cleanup, after the payment. */
  lemma WhichEnvelopeOfAWithdrawal(w: Withdraw.Record)
    requires WithdrawFacts.RecordOk(w)
    ensures EnvelopeFor(WithdrawalOf(w)) ==
            if w.hashes.payment.Some? && w.hashes.cleanup.None? && w.landing.Some? then Some(Bridge.Cleanup) else None
  {
  }

  // --- when something is submitted --------------------------------------------------------------

  /**
   Exactly when the account was read, the sequence is the next, the balance was read as zero and there is room
   in the pass.
   */
  lemma WhenSubmitted(t: Target, k: Bridge.Kind, b: Bridge.Bridge, look: Look, submits: nat)
    ensures SweepItem(t, k, b, look, submits).submitted <==>
            look.readable && Bridge.SlotOf(k) == Bridge.Spent(b) + 1 && look.balance == Some(0) && submits < 12
  {
  }

  /** An item that submits nothing says why, and leaves the bridge alone. */
  lemma WhyNothingIsSubmitted(t: Target, k: Bridge.Kind, b: Bridge.Bridge, look: Look, submits: nat)
    ensures var s := SweepItem(t, k, b, look, submits);
            !s.submitted ==>
              && s.bridge == b && !s.item.merged
              && (s.item.note.AlreadyGone? <==> !look.readable)
              && (s.item.note.SequenceMoved? <==> look.readable && Bridge.SlotOf(k) != Bridge.Spent(b) + 1)
              && (s.item.note.HoldsUsdc? ==> look.balance.Some? && look.balance.value > 0)
              && (s.item.note.BalanceUnknown? ==> look.balance.None?)
              && (s.item.note.NextSweep? ==> submits >= 12)
              && s.item.note in {AlreadyGone, SequenceMoved, HoldsUsdc, BalanceUnknown, NextSweep}
  {
  }

  /** Merged is what went through and was heard of; everything else that was submitted is reported as failed. */
  lemma WhenMerged(t: Target, k: Bridge.Kind, b: Bridge.Bridge, look: Look, submits: nat)
    requires Fits(b, k) && TruthfulLook(look, b)
    ensures var s := SweepItem(t, k, b, look, submits);
            && (s.item.merged <==> s.submitted && look.fate.Included? && look.fate.heard && !look.fate.fault)
            && (s.submitted && !s.item.merged ==> s.item.note.SubmitFailed? && s.target == t)
  {
    if SweepItem(t, k, b, look, submits).submitted {
      OnlySureMerges(t, k, b, look, submits);
    }
  }

  // --- what is written --------------------------------------------------------------------------

  /** Only a merge and a read that did not answer write anything. */
  lemma WhenNothingIsWritten(t: Target, k: Bridge.Kind, b: Bridge.Bridge, look: Look, submits: nat)
    ensures var s := SweepItem(t, k, b, look, submits); look.readable && !s.item.merged ==> s.target == t
  {
  }

  /** A merged bridge's transaction is recorded, and an earlier failure of it taken back. */
  lemma WhatAMergeRecords(d: Deposit.Record, k: Bridge.Kind, b: Bridge.Bridge, look: Look, submits: nat)
    requires !k.Forward?
    ensures var s := SweepItem(DepositOf(d), k, b, look, submits);
            s.item.merged ==>
              && s.target.DepositOf?
              && var n := s.target.deposit;
                 && n.hashes.abort == (if k.Abort? then Some(Deposit.Tx(look.fate.hash)) else d.hashes.abort)
                 && n.hashes.cleanup == (if k.Cleanup? then Some(Deposit.Tx(look.fate.hash)) else d.hashes.cleanup)
                 && n.hashes.forward == d.hashes.forward && n.hashes.vault == d.hashes.vault && !n.hashes.cleanupError
                 && n.money == d.money && n.landing == d.landing && n.attempts == d.attempts && n.error == d.error
  {
  }

  /** A deposit that was still waiting when its bridge was merged is closed: it can no longer be paid. */
  lemma WaitingIsClosed(d: Deposit.Record, b: Bridge.Bridge, look: Look, submits: nat)
    requires Waiting(d)
    ensures var s := SweepItem(DepositOf(d), Bridge.Abort, b, look, submits);
            s.item.merged ==>
              && s.target.DepositOf? && s.item.note.StaleCancelled?
              && var n := s.target.deposit;
                 n.status.Cancelled? && n.abandonedFrom == Some(d.status)
                     && n.history == d.history + [Deposit.Cancelled]
  {
  }

  /** Any other deposit keeps its status and its history. */
  lemma OthersStayAsTheyAre(d: Deposit.Record, k: Bridge.Kind, b: Bridge.Bridge, look: Look, submits: nat)
    requires EnvelopeFor(DepositOf(d)) == Some(k) && DepositFacts.RecordOk(d) && !Waiting(d)
        && Candidate(DepositOf(d), true)
    ensures var s := SweepItem(DepositOf(d), k, b, look, submits);
            && s.target.DepositOf? && s.target.deposit.status == d.status && s.target.deposit.history == d.history
            && s.target.deposit.abandonedFrom == d.abandonedFrom && !s.item.note.StaleCancelled?
  {
  }

  /** A withdrawal whose bridge was merged records the cleanup. */
  lemma WhatAMergeRecordsOfAWithdrawal(w: Withdraw.Record, b: Bridge.Bridge, look: Look, submits: nat)
    ensures var s := SweepItem(WithdrawalOf(w), Bridge.Cleanup, b, look, submits);
            s.item.merged ==>
              s.item.note.Clean? && s.target.WithdrawalOf?
              && s.target.withdrawal.hashes == w.hashes.(cleanup := Some(Deposit.Tx(look.fate.hash)),
                  cleanupError := false)
  {
  }

  // --- over a whole life ------------------------------------------------------------------------

  /** A deposit that waits, or may wait again, carries no abort transaction: its bridge was never merged by one. */
  ghost predicate StillOpen(d: Deposit.Record) {
    Waiting(d) || d.status.Abandoned? ==> d.hashes.abort.None? || d.hashes.abort == Some(Deposit.OutOfBand)
  }

  lemma SectionKeepsOpen(d: Deposit.Record, s: Deposit.Section)
    requires DepositFacts.RecordOk(d) && StillOpen(d)
    ensures StillOpen(Deposit.Do(d, s))
  {
    DepositFacts.HashesOfSection(d, s);
    NeverBackToWaiting(d, s);
  }

  /**
   Sections do not bring a deposit back to waiting, except the resume of an abandoned one; and a cancel that
   aborts ends it.
   */
  lemma NeverBackToWaiting(d: Deposit.Record, s: Deposit.Section)
    requires DepositFacts.RecordOk(d)
    ensures var n := Deposit.Do(d, s);
            && (Waiting(n) ==> Waiting(d) || d.status.Abandoned?)
            && (n.status.Abandoned? ==> d.status.OnrampPending? || d.status.Abandoned?)
            && (s.Cancel? && d.status.AwaitingTransfer? ==> n.status.Cancelled?)
  {
    if s.Advance? { DepositFacts.AdvanceShape(d, s.answer, s.now); } else { DepositFacts.OtherShape(d, s); }
  }

  lemma SweepKeepsOpen(d: Deposit.Record, k: Bridge.Kind, b: Bridge.Bridge, look: Look, submits: nat)
    requires DepositFacts.RecordOk(d) && StillOpen(d) && Candidate(DepositOf(d), true)
        && EnvelopeFor(DepositOf(d)) == Some(k)
    ensures var t := SweepItem(DepositOf(d), k, b, look, submits).target; t.DepositOf? && StillOpen(t.deposit)
  {
    WhatASweepWrites(d, k, b, look, submits);
    WhichEnvelope(d, true);
    if Waiting(d) {
      WaitingIsClosed(d, b, look, submits);
      WhenNothingIsWritten(DepositOf(d), k, b, look, submits);
      if !look.readable { UnreadIsMarked(d, k, b, look, submits); }
    } else {
      OthersStayAsTheyAre(d, k, b, look, submits);
    }
  }

  lemma UnreadIsMarked(d: Deposit.Record, k: Bridge.Kind, b: Bridge.Bridge, look: Look, submits: nat)
    requires EnvelopeFor(DepositOf(d)) == Some(k) && !look.readable && k.Abort?
    ensures var s := SweepItem(DepositOf(d), k, b, look, submits);
            s.target == DepositOf(d.(hashes := d.hashes.(abort := Some(Deposit.OutOfBand)))) && !s.item.merged
  {
  }

  /** Over any life: a deposit that is still polled, or can be resumed to be, has no abort on record. */
  lemma {:induction false} WaitingWasNeverAborted(d: Deposit.Record, b: Bridge.Bridge, events: seq<Event>)
    requires TargetOk(DepositOf(d), b) && StillOpen(d) && LifeRuns(d, b, events)
    ensures StillOpen(LifeEnd(d, b, events).0)
    decreases |events|
  {
    if events != [] {
      var n := After(d, b, events[0]);
      EventKeepsDeposit(d, b, events[0]);
      match events[0] {
        case Section(s) => SectionKeepsOpen(d, s);
        case World(_) =>
        case SweptUp(stale, look, submits) => SweepKeepsOpen(d, EnvelopeFor(DepositOf(d)).value, b, look, submits);
      }
      WaitingWasNeverAborted(n.0, n.1, events[1..]);
    }
  }
}
