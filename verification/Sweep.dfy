/**
 Reclaiming reserves (lib/sweep.server.ts). An envelope that applies and fails still burns its slot, so
 the sweep submits one only when it is certain to apply. The sweep takes no lease; each item is atomic here.
 */
module Sweep {
  import opened Prelude
  import opened Amounts
  import Bridge
  import Deposit
  import DepositFacts
  import Withdraw
  import WithdrawFacts

  datatype Target = DepositOf(deposit: Deposit.Record) | WithdrawalOf(withdrawal: Withdraw.Record)

  const MAX_SUBMITS := 12

  /** Finished records, and waiting deposits nobody has touched for hours. */
  predicate Candidate(t: Target, stale: bool) {
    match t
    case DepositOf(d) =>
      || d.status.Cancelled? || d.status.Failed? || d.status.InWallet? || d.status.InVault?
      || ((d.status.AwaitingTransfer? || d.status.TransferReceived? || d.status.OnrampPending?) && stale
          && d.hashes.forward.None?)
    case WithdrawalOf(w) => w.status.Failed? || w.status.Completed?
  }

  /** Which envelope merges this record's bridge back, if any. */
  function EnvelopeFor(t: Target): Option<Bridge.Kind> {
    match t
    case DepositOf(d) =>
      if d.landing.None? || d.hashes.cleanup.Some? || d.hashes.abort.Some? then None
      else if d.hashes.forward.Some? then Some(Bridge.Cleanup)
      else if d.landing.value.abortable then Some(Bridge.Abort)
      else None
    case WithdrawalOf(w) =>
      if w.landing.None? || w.hashes.cleanup.Some? then None
      else if w.hashes.payment.Some? then Some(Bridge.Cleanup)
      else None
  }

  /** What happens to a submitted envelope, and whether we hear of it. */
  datatype Fate = NotIncluded | Included(fault: bool, heard: bool, hash: nat)

  /** What the outside says about one bridge: account readable, balance readable, and the submission's fate. */
  datatype Look = Look(readable: bool, balance: Option<nat>, fate: Fate)

  /**
   Reads of a living bridge are truthful when they answer. Of an address whose bridge is gone they may say
   anything: somebody may have created another account there.
   */
  ghost predicate TruthfulLook(look: Look, b: Bridge.Bridge) {
    Bridge.Alive(b) && look.balance.Some? ==> look.balance.value == Bridge.Balance(b)
  }

  datatype Note =
    | AlreadyGone | SequenceMoved | HoldsUsdc | BalanceUnknown | NextSweep | SubmitFailed | Clean | StaleCancelled

  datatype Item = Item(merged: bool, note: Note)

  datatype Swept = Swept(target: Target, bridge: Bridge.Bridge, item: Item, submitted: bool)

  function Mark(t: Target, k: Bridge.Kind, m: Deposit.Mark): Target {
    match t
    case DepositOf(d) =>
      if k.Abort? then DepositOf(d.(hashes := d.hashes.(abort := Some(m))))
          else DepositOf(d.(hashes := d.hashes.(cleanup := Some(m))))
    case WithdrawalOf(w) => WithdrawalOf(w.(hashes := w.hashes.(cleanup := Some(m))))
  }

  function ClearError(t: Target): Target {
    match t
    case DepositOf(d) => DepositOf(d.(hashes := d.hashes.(cleanupError := false)))
    case WithdrawalOf(w) => WithdrawalOf(w.(hashes := w.hashes.(cleanupError := false)))
  }

  /** A waiting deposit whose bridge is gone cannot be paid any more: it is closed as cancelled. */
  predicate ClosesStale(t: Target, k: Bridge.Kind) {
    t.DepositOf? && k.Abort? && !t.deposit.status.Cancelled? && !t.deposit.status.Failed?
  }

  function CloseStale(t: Target): Target
    requires t.DepositOf?
  {
    var d := t.deposit;
    DepositOf(d.(status := Deposit.Cancelled, abandonedFrom := Some(d.status),
        history := d.history + [Deposit.Cancelled]))
  }

  function SweepItem(t: Target, k: Bridge.Kind, b: Bridge.Bridge, look: Look, submits: nat): Swept {
    if !look.readable then Swept(Mark(t, k, Deposit.OutOfBand), b, Item(false, AlreadyGone), false)
    else if Bridge.SlotOf(k) != Bridge.Spent(b) + 1 then Swept(t, b, Item(false, SequenceMoved), false)
    else if look.balance.None? then Swept(t, b, Item(false, BalanceUnknown), false)
    else if look.balance.value > 0 then Swept(t, b, Item(false, HoldsUsdc), false)
    else if submits >= MAX_SUBMITS then Swept(t, b, Item(false, NextSweep), false)
    else
      match look.fate
      case NotIncluded => Swept(t, b, Item(false, SubmitFailed), true)
      case Included(fault, heard, hash) =>
        var b' := Bridge.Submitted(b, k, fault);
        if heard && Bridge.Done(b', k) then
          var marked := ClearError(Mark(t, k, Deposit.Tx(hash)));
          Swept(if ClosesStale(t, k) then CloseStale(marked) else marked, b',
                Item(true, if ClosesStale(t, k) then StaleCancelled else Clean), true)
        else Swept(t, b', Item(false, SubmitFailed), true)
  }

  // --- one item ---------------------------------------------------------------------------------

  /** A well-formed record whose claims about its bridge are true. */
  ghost predicate TargetOk(t: Target, b: Bridge.Bridge) {
    && Bridge.Valid(b)
    && match t
       case DepositOf(d) => DepositFacts.RecordOk(d) && DepositFacts.Claims(d, b)
       case WithdrawalOf(w) => WithdrawFacts.RecordOk(w) && WithdrawFacts.Claims(w, b)
  }

  /** The envelope at the next sequence number, on an empty bridge: certain to apply and to merge. */
  predicate SureToMerge(b: Bridge.Bridge, k: Bridge.Kind) {
    Bridge.Applies(b, k) && Bridge.Succeeds(b, k, false) && Bridge.Balance(b) == 0
  }

  /** What the choice of the envelope says about the bridge. */
  ghost predicate Fits(b: Bridge.Bridge, k: Bridge.Kind) {
    Bridge.Valid(b) && !k.Forward? && (k.Abort? ==> b.abortable) && (k.Cleanup? ==> Bridge.Done(b, Bridge.Forward))
  }

  lemma EnvelopeFits(t: Target, k: Bridge.Kind, b: Bridge.Bridge)
    requires TargetOk(t, b) && EnvelopeFor(t) == Some(k)
    ensures Fits(b, k)
  {
  }

  /** At a bridge that is gone no envelope has the next slot. */
  lemma NextSlotIsOnALivingBridge(b: Bridge.Bridge, k: Bridge.Kind)
    requires Fits(b, k) && Bridge.SlotOf(k) == Bridge.Spent(b) + 1
    ensures Bridge.Alive(b) && Bridge.Applies(b, k)
  {
  }

  lemma NextSlotMerges(b: Bridge.Bridge, k: Bridge.Kind)
    requires Fits(b, k) && Bridge.Balance(b) == 0 && Bridge.SlotOf(k) == Bridge.Spent(b) + 1
    ensures SureToMerge(b, k)
    ensures !Bridge.Alive(Bridge.Submitted(b, k, false))
  {
    NextSlotIsOnALivingBridge(b, k);
  }

  lemma WhatWasChecked(t: Target, k: Bridge.Kind, b: Bridge.Bridge, look: Look, submits: nat)
    requires SweepItem(t, k, b, look, submits).submitted
    ensures look.readable && Bridge.SlotOf(k) == Bridge.Spent(b) + 1 && look.balance == Some(0) && submits < MAX_SUBMITS
    ensures SweepItem(t, k, b, look, submits).bridge == if look.fate.Included?
        then Bridge.Submitted(b, k, look.fate.fault) else b
  {
  }

  lemma OnlySureMerges(t: Target, k: Bridge.Kind, b: Bridge.Bridge, look: Look, submits: nat)
    requires Fits(b, k) && TruthfulLook(look, b) && SweepItem(t, k, b, look, submits).submitted
    ensures SureToMerge(b, k) && submits < MAX_SUBMITS
    ensures look.fate.Included? && !look.fate.fault ==> !Bridge.Alive(SweepItem(t, k, b, look, submits).bridge)
    ensures look.fate.NotIncluded? ==> SweepItem(t, k, b, look, submits).bridge == b
  {
    WhatWasChecked(t, k, b, look, submits);
    NextSlotIsOnALivingBridge(b, k);
    NextSlotMerges(b, k);
  }

  /**
   Whatever the sweep submits is the next envelope of an empty bridge: nothing of the bridge's own can fail it.
   OnLedger.SweepMergesOnLedger says what the ledger adds.
   */
  lemma SubmitsOnlyWhatMerges(t: Target, k: Bridge.Kind, b: Bridge.Bridge, look: Look, submits: nat)
    requires TargetOk(t, b) && EnvelopeFor(t) == Some(k) && TruthfulLook(look, b)
    ensures var s := SweepItem(t, k, b, look, submits);
            s.submitted ==>
              && SureToMerge(b, k) && submits < MAX_SUBMITS
              && (look.fate.Included? && !look.fate.fault ==> !Bridge.Alive(s.bridge))
              && (look.fate.NotIncluded? ==> s.bridge == b)
  {
    EnvelopeFits(t, k, b);
    if SweepItem(t, k, b, look, submits).submitted { OnlySureMerges(t, k, b, look, submits); }
  }

  /**
   A living bridge that holds USDC, or whose sequence has moved, is left alone; its record is too, unless the
   read failed.
   */
  lemma LeavesOthersAlone(t: Target, k: Bridge.Kind, b: Bridge.Bridge, look: Look, submits: nat)
    requires TargetOk(t, b) && EnvelopeFor(t) == Some(k) && TruthfulLook(look, b)
    requires Bridge.Balance(b) > 0 || Bridge.SlotOf(k) != Bridge.Spent(b) + 1
    ensures var s := SweepItem(t, k, b, look, submits);
            s.bridge == b && !s.submitted && !s.item.merged && (s.target == t <==> look.readable)
  {
  }

  lemma MarkedDepositOk(d: Deposit.Record, h: Deposit.Hashes)
    requires DepositFacts.RecordOk(d) && h.forward == d.hashes.forward
    ensures DepositFacts.RecordOk(d.(hashes := h))
  {
  }

  lemma ClosedStaleOk(d: Deposit.Record)
    requires DepositFacts.RecordOk(d) && DepositFacts.Rank(d.status) in {0, 1, 2}
    ensures DepositFacts.RecordOk(CloseStale(DepositOf(d)).deposit)
  {
    DepositFacts.HistoryStep(d, CloseStale(DepositOf(d)).deposit);
  }

  /**
   A mark a sweep may write: its own transaction once it is through, or out-of-band after a read that did not
   answer.
   */
  ghost predicate Marked(before: Option<Deposit.Mark>, after: Option<Deposit.Mark>, k: Bridge.Kind, b': Bridge.Bridge,
      look: Look) {
    || after == before
    || (after == Some(Deposit.OutOfBand) && !look.readable)
    || (after.Some? && after.value.Tx? && Bridge.Done(b', k))
  }

  /** What a sweep item can write into a deposit: new marks, and a closed status when it merged a stale bridge. */
  ghost predicate SweptDeposit(d: Deposit.Record, n: Deposit.Record, k: Bridge.Kind, b': Bridge.Bridge, look: Look) {
    && (n == d.(hashes := n.hashes) || (ClosesStale(DepositOf(d), k)
        && n == CloseStale(DepositOf(d.(hashes := n.hashes))).deposit))
    && n.hashes.forward == d.hashes.forward
    && Marked(d.hashes.abort, n.hashes.abort, Bridge.Abort, b', look)
    && Marked(d.hashes.cleanup, n.hashes.cleanup, Bridge.Cleanup, b', look)
  }

  lemma WhatASweepWrites(d: Deposit.Record, k: Bridge.Kind, b: Bridge.Bridge, look: Look, submits: nat)
    requires EnvelopeFor(DepositOf(d)) == Some(k)
    ensures var s := SweepItem(DepositOf(d), k, b, look, submits);
        s.target.DepositOf?
        && SweptDeposit(d, s.target.deposit, k, s.bridge, look)
    ensures var b' := SweepItem(DepositOf(d), k, b, look, submits).bridge;
            b' == b || (look.readable && look.fate.Included? && b' == Bridge.Submitted(b, k, look.fate.fault))
  {
  }

  lemma SweptRecordOk(d: Deposit.Record, stale: bool, n: Deposit.Record, k: Bridge.Kind, b': Bridge.Bridge, look: Look)
    requires DepositFacts.RecordOk(d) && SweptDeposit(d, n, k, b', look)
    requires Candidate(DepositOf(d), stale) && EnvelopeFor(DepositOf(d)) == Some(k)
    ensures DepositFacts.RecordOk(n)
  {
    MarkedDepositOk(d, n.hashes);
    if n.status != d.status { ClosedStaleOk(d.(hashes := n.hashes)); }
  }

  /**
   A sweep item keeps deposit records well-formed and their claims true, whether or not its reads answered;
   its out-of-band marks are due when an account that was not read is in fact gone.
   */
  lemma SweepKeepsDeposit(d: Deposit.Record, stale: bool, k: Bridge.Kind, b: Bridge.Bridge, look: Look, submits: nat)
    requires TargetOk(DepositOf(d), b) && EnvelopeFor(DepositOf(d)) == Some(k)
    requires Candidate(DepositOf(d), stale)
    ensures var s := SweepItem(DepositOf(d), k, b, look, submits);
            && s.target.DepositOf? && TargetOk(s.target, s.bridge)
            && (DepositFacts.MarksAreDue(d, b) && (!look.readable ==> !Bridge.Alive(b)) ==>
                DepositFacts.MarksAreDue(s.target.deposit, s.bridge))
  {
    WhatASweepWrites(d, k, b, look, submits);
    var s := SweepItem(DepositOf(d), k, b, look, submits);
    if s.bridge != b {
      Bridge.NextKeepsValid(b, Bridge.Submit(k, look.fate.fault));
      DepositFacts.WorldKeepsAgreement(d, b, Bridge.Submit(k, look.fate.fault));
    }
    SweptRecordOk(d, stale, s.target.deposit, k, s.bridge, look);
    SweptClaims(d, s.target.deposit, k, s.bridge, look);
  }

  lemma SweptClaims(d: Deposit.Record, n: Deposit.Record, k: Bridge.Kind, b': Bridge.Bridge, look: Look)
    requires DepositFacts.Claims(d, b') && SweptDeposit(d, n, k, b', look)
    ensures DepositFacts.Claims(n, b')
    ensures DepositFacts.MarksAreDue(d, b') && (!look.readable ==> !Bridge.Alive(b')) ==>
        DepositFacts.MarksAreDue(n, b')
  {
  }

  ghost predicate SweptWithdrawal(w: Withdraw.Record, n: Withdraw.Record, b': Bridge.Bridge) {
    && n == w.(hashes := n.hashes) && n.hashes.payment == w.hashes.payment
    && (n.hashes.cleanup == w.hashes.cleanup || n.hashes.cleanup == Some(Deposit.OutOfBand)
        || Bridge.Done(b', Bridge.Cleanup))
  }

  lemma MarkedWithdrawalOk(w: Withdraw.Record, h: Withdraw.Hashes)
    requires WithdrawFacts.RecordOk(w) && h.payment == w.hashes.payment
    ensures WithdrawFacts.RecordOk(w.(hashes := h))
  {
  }

  lemma WhatASweepMarks(w: Withdraw.Record, k: Bridge.Kind, b: Bridge.Bridge, look: Look, submits: nat)
    requires EnvelopeFor(WithdrawalOf(w)) == Some(k)
    ensures var s := SweepItem(WithdrawalOf(w), k, b, look, submits);
            && s.target.WithdrawalOf? && SweptWithdrawal(w, s.target.withdrawal, s.bridge)
            && (s.bridge == b || (look.fate.Included? && s.bridge == Bridge.Submitted(b, k, look.fate.fault)))
  {
  }

  /** The same for withdrawals, whose records a sweep only marks. */
  lemma SweepKeepsWithdrawal(w: Withdraw.Record, k: Bridge.Kind, b: Bridge.Bridge, look: Look, submits: nat)
    requires TargetOk(WithdrawalOf(w), b) && EnvelopeFor(WithdrawalOf(w)) == Some(k)
    ensures var s := SweepItem(WithdrawalOf(w), k, b, look, submits);
            s.target.WithdrawalOf? && s.target.withdrawal == w.(hashes := s.target.withdrawal.hashes)
                && TargetOk(s.target, s.bridge)
  {
    WhatASweepMarks(w, k, b, look, submits);
    var s := SweepItem(WithdrawalOf(w), k, b, look, submits);
    if s.bridge != b {
      Bridge.NextKeepsValid(b, Bridge.Submit(k, look.fate.fault));
      WithdrawFacts.WorldKeepsAgreement(w, b, Bridge.Submit(k, look.fate.fault));
    }
    MarkedWithdrawalOk(w, s.target.withdrawal.hashes);
  }

  // --- what the marks mean ----------------------------------------------------------------------

  /**
   bridgeSequence answers null for a merged account and for any failed read alike. A living bridge is written
   off, so that no later sweep looks at it again, exactly when its read fails.
   */
  lemma FailedReadWritesOffALiveBridge(t: Target, k: Bridge.Kind, b: Bridge.Bridge, look: Look, submits: nat)
    requires EnvelopeFor(t) == Some(k) && Bridge.Valid(b) && Bridge.Alive(b)
    ensures var s := SweepItem(t, k, b, look, submits);
            Bridge.Alive(s.bridge) && EnvelopeFor(s.target) == None <==> !look.readable
  {
  }

  /**
   The out-of-band mark says no more than that a read did not answer. Put into a deposit's abort field it is
   right exactly when the account is really gone and the plan's cleanup transaction did not go through, which
   the sweep could look up before marking.
   */
  lemma WhatTheMarkMeans(d: Deposit.Record, b: Bridge.Bridge, look: Look, submits: nat)
    requires TargetOk(DepositOf(d), b) && EnvelopeFor(DepositOf(d)) == Some(Bridge.Abort) && !look.readable
    ensures SweepItem(DepositOf(d), Bridge.Abort, b, look, submits).target.deposit.hashes.abort ==
        Some(Deposit.OutOfBand)
    ensures Bridge.Done(b, Bridge.Abort) <==> !Bridge.Alive(b) && !Bridge.Done(b, Bridge.Cleanup)
  {
  }

  /** A deposit whose forward and cleanup went through without the record learning of it is marked as if aborted. */
  lemma OutOfBandIsNotAborted() returns (d: Deposit.Record, b: Bridge.Bridge, look: Look)
    ensures TargetOk(DepositOf(d), b) && Candidate(DepositOf(d), true) && TruthfulLook(look, b)
    ensures EnvelopeFor(DepositOf(d)) == Some(Bridge.Abort)
    ensures var s := SweepItem(DepositOf(d), Bridge.Abort, b, look, 0);
            s.target.DepositOf? && s.target.deposit.hashes.abort.Some? && Bridge.Done(b, Bridge.Forward)
  {
    var plan := Deposit.Plan(5, true);
    d := Deposit.Opened(plan, "1", true);
    DepositFacts.OpenedOk(plan, "1", true);
    b := Bridge.Bridge(5, true, 5, Bridge.Forwarded, Bridge.Merged);
    look := Look(false, None, NotIncluded);
  }

  // --- the pass ---------------------------------------------------------------------------------

  /** The stored records with their bridges, and what the outside will say about each. */
  datatype Pass = Pass(targets: seq<Target>, bridges: seq<Bridge.Bridge>, looks: seq<Look>)

  predicate Sized(p: Pass) {
    |p.targets| == |p.bridges| == |p.looks|
  }

  datatype SweepResult = SweepResult(examined: nat, merged: nat, skipped: nat, items: seq<Item>)

  /** One more line in the result. */
  function Noted(r: SweepResult, item: Item): SweepResult {
    if item.merged then SweepResult(r.examined + 1, r.merged + 1, r.skipped, r.items + [item])
    else SweepResult(r.examined + 1, r.merged, r.skipped + 1, r.items + [item])
  }

  /** Everything a pass has changed and counted so far. */
  datatype Progress = Progress(targets: seq<Target>, bridges: seq<Bridge.Bridge>, result: SweepResult, submits: nat)

  /** What the sweep makes of a record, after that many submits; None where it has no envelope left. */
  function ItemFor(t: Target, b: Bridge.Bridge, look: Look, submits: nat): Option<Swept> {
    match EnvelopeFor(t)
    case None => None
    case Some(k) => Some(SweepItem(t, k, b, look, submits))
  }

  /** The item is written to its own record and bridge, counted and reported. */
  function Written(s: Progress, i: nat, swept: Option<Swept>): Progress
    requires i < |s.targets| == |s.bridges|
  {
    match swept
    case None => s
    case Some(w) =>
      Progress(s.targets[i := w.target], s.bridges[i := w.bridge], Noted(s.result, w.item),
               s.submits + (if w.submitted then 1 else 0))
  }

  function Turn(s: Progress, i: nat, look: Look): Progress
    requires i < |s.targets| == |s.bridges|
  {
    Written(s, i, ItemFor(s.targets[i], s.bridges[i], look, s.submits))
  }

  /** The first `n` turns of a pass, one after another. */
  function Turns(p: Pass, n: nat): (s: Progress)
    requires Sized(p) && n <= |p.targets|
    ensures |s.targets| == |s.bridges| == |p.targets|
  {
    if n == 0 then Progress(p.targets, p.bridges, SweepResult(0, 0, 0, []), 0)
    else Turn(Turns(p, n - 1), n - 1, p.looks[n - 1])
  }

  /** The item at an index, as its own record, bridge and look make it after the submits of the turns before. */
  function At(p: Pass, i: nat): Option<Swept>
    requires Sized(p) && i < |p.targets|
  {
    ItemFor(p.targets[i], p.bridges[i], p.looks[i], Turns(p, i).submits)
  }

  lemma WrittenAt(s: Progress, i: nat, swept: Option<Swept>, j: nat)
    requires i < |s.targets| == |s.bridges| && j < |s.targets|
    ensures var s' := Written(s, i, swept);
            && |s'.targets| == |s'.bridges| == |s.targets|
            && s'.targets[j] == (if j == i && swept.Some? then swept.value.target else s.targets[j])
            && s'.bridges[j] == (if j == i && swept.Some? then swept.value.bridge else s.bridges[j])
  {
  }

  /** A turn does not see or touch what the others change. */
  lemma {:induction false} TurnsAt(p: Pass, n: nat, i: nat)
    requires Sized(p) && n <= |p.targets| && i < |p.targets|
    ensures var s := Turns(p, n);
            && s.targets[i] == (if i < n && At(p, i).Some? then At(p, i).value.target else p.targets[i])
            && s.bridges[i] == (if i < n && At(p, i).Some? then At(p, i).value.bridge else p.bridges[i])
    decreases n
  {
    if n > 0 {
      var s := Turns(p, n - 1);
      TurnsAt(p, n - 1, i);
      TurnsAt(p, n - 1, n - 1);
      WrittenAt(s, n - 1, At(p, n - 1), i);
    }
  }

  /** Records that still have an envelope. */
  function WithEnvelope(targets: seq<Target>): nat {
    if targets == [] then 0
    else WithEnvelope(targets[..|targets| - 1]) + (if EnvelopeFor(targets[|targets| - 1]).Some? then 1 else 0)
  }

  lemma ItemBounds(t: Target, b: Bridge.Bridge, look: Look, submits: nat)
    ensures var s := ItemFor(t, b, look, submits);
            && (s.Some? && s.value.submitted ==> submits < MAX_SUBMITS)
            && (s.Some? && s.value.item.merged ==> s.value.submitted)
            && (s.Some? <==> EnvelopeFor(t).Some?)
  {
  }

  predicate Tallied(s: Progress, examined: nat) {
    && s.result.merged <= s.submits <= MAX_SUBMITS
    && s.result.examined == |s.result.items| == s.result.merged + s.result.skipped == examined
  }

  lemma WrittenTally(s: Progress, i: nat, swept: Option<Swept>, examined: nat)
    requires i < |s.targets| == |s.bridges| && Tallied(s, examined)
    requires swept.Some? ==>
               (swept.value.submitted ==> s.submits < MAX_SUBMITS)
                   && (swept.value.item.merged ==> swept.value.submitted)
    ensures Tallied(Written(s, i, swept), examined + (if swept.Some? then 1 else 0))
  {
  }

  /** At most twelve submits, merges only by submits, and an item for every record with an envelope. */
  lemma {:induction false} PassBounds(p: Pass, n: nat)
    requires Sized(p) && n <= |p.targets|
    ensures Tallied(Turns(p, n), WithEnvelope(p.targets[..n]))
  {
    if n > 0 {
      PassBounds(p, n - 1);
      TurnsAt(p, n - 1, n - 1);
      var s := Turns(p, n - 1);
      ItemBounds(p.targets[n - 1], p.bridges[n - 1], p.looks[n - 1], s.submits);
      WrittenTally(s, n - 1, At(p, n - 1), WithEnvelope(p.targets[..n - 1]));
      assert p.targets[..n][..n - 1] == p.targets[..n - 1];
    }
  }

  /**
   In one pass over true records with truthful reads, everything submitted is sure to merge, and the records
   stay true.
   */
  lemma PassIsSafe(p: Pass, i: nat)
    requires Sized(p) && i < |p.targets| && TargetOk(p.targets[i], p.bridges[i])
        && TruthfulLook(p.looks[i], p.bridges[i])
    requires Candidate(p.targets[i], true)
    ensures At(p, i).Some? && At(p, i).value.submitted ==> SureToMerge(p.bridges[i], EnvelopeFor(p.targets[i]).value)
    ensures At(p, i).Some? ==> TargetOk(At(p, i).value.target, At(p, i).value.bridge)
  {
    var t, b, look, submits := p.targets[i], p.bridges[i], p.looks[i], Turns(p, i).submits;
    if At(p, i).Some? {
      var k := EnvelopeFor(t).value;
      if At(p, i).value.submitted { SubmitsOnlyWhatMerges(t, k, b, look, submits); }
      match t
      case DepositOf(d) => SweepKeepsDeposit(d, true, k, b, look, submits);
      case WithdrawalOf(w) => SweepKeepsWithdrawal(w, k, b, look, submits);
    }
  }

  /** The stored records and their bridges, as one pass sees and changes them. */
  class SweepPass {
    var targets: seq<Target>
    var bridges: seq<Bridge.Bridge>

    constructor (targets: seq<Target>, bridges: seq<Bridge.Bridge>)
      ensures this.targets == targets && this.bridges == bridges
    {
      this.targets, this.bridges := targets, bridges;
    }

    /** One candidate. */
    method SweepOne(i: nat, look: Look, sofar: SweepResult, before: nat) returns (result: SweepResult, submits: nat)
      requires i < |targets| == |bridges|
      modifies this
      ensures Progress(targets, bridges, result, submits) ==
              Turn(Progress(old(targets), old(bridges), sofar, before), i, look)
    {
      result, submits := sofar, before;
      var envelope := EnvelopeFor(targets[i]);
      if envelope.Some? {
        var swept := SweepItem(targets[i], envelope.value, bridges[i], look, submits);
        targets := targets[i := swept.target];
        bridges := bridges[i := swept.bridge];
        result := Noted(result, swept.item);
        if swept.submitted { submits := submits + 1; }
      }
    }

    method SweepBridges(looks: seq<Look>) returns (result: SweepResult, submits: nat)
      requires |targets| == |bridges| == |looks|
      modifies this
      ensures Progress(targets, bridges, result, submits) == Turns(Pass(old(targets), old(bridges), looks), |looks|)
      ensures submits <= MAX_SUBMITS && result.merged <= submits
      ensures result.examined == |result.items| == result.merged + result.skipped == WithEnvelope(old(targets))
    {
      ghost var p := Pass(targets, bridges, looks);
      result, submits := SweepResult(0, 0, 0, []), 0;
      for i := 0 to |looks|
        invariant Progress(targets, bridges, result, submits) == Turns(p, i)
      {
        result, submits := SweepOne(i, looks[i], result, submits);
      }
      PassBounds(p, |looks|);
      assert p.targets[..|looks|] == p.targets;
    }
  }

  // --- the whole life of a deposit --------------------------------------------------------------

  /** Anything that can happen to one deposit and its bridge. */
  datatype Event =
    | Section(section: Deposit.Section)
    | World(move: Bridge.Move)
    | SweptUp(stale: bool, look: Look, submits: nat)

  ghost predicate Happens(d: Deposit.Record, b: Bridge.Bridge, e: Event) {
    match e
    case Section(s) => DepositFacts.Truthful(d, s, b)
    case World(_) => true
    case SweptUp(stale, look, _) =>
        Candidate(DepositOf(d), stale) && EnvelopeFor(DepositOf(d)).Some?
        && TruthfulLook(look, b)
  }

  /** The sweep's read of a living account did answer. */
  ghost predicate Answered(b: Bridge.Bridge, e: Event) {
    e.SweptUp? && Bridge.Alive(b) ==> e.look.readable
  }

  function After(d: Deposit.Record, b: Bridge.Bridge, e: Event): (Deposit.Record, Bridge.Bridge)
    requires e.SweptUp? ==> EnvelopeFor(DepositOf(d)).Some?
  {
    match e
    case Section(s) => (Deposit.Do(d, s), b)
    case World(m) => (d, Bridge.Next(b, m))
    case SweptUp(_, look, submits) =>
      var s := SweepItem(DepositOf(d), EnvelopeFor(DepositOf(d)).value, b, look, submits);
      (if s.target.DepositOf? then s.target.deposit else d, s.bridge)
  }

  ghost predicate LifeRuns(d: Deposit.Record, b: Bridge.Bridge, events: seq<Event>)
    decreases |events|
  {
    events != [] ==> Happens(d, b, events[0]) && var n := After(d, b, events[0]); LifeRuns(n.0, n.1, events[1..])
  }

  ghost predicate AllAnswered(d: Deposit.Record, b: Bridge.Bridge, events: seq<Event>)
    requires LifeRuns(d, b, events)
    decreases |events|
  {
    events != [] ==> Answered(b, events[0]) && var n := After(d, b, events[0]); AllAnswered(n.0, n.1, events[1..])
  }

  ghost function LifeEnd(d: Deposit.Record, b: Bridge.Bridge, events: seq<Event>): (Deposit.Record, Bridge.Bridge)
    requires LifeRuns(d, b, events)
    decreases |events|
  {
    if events == [] then (d, b) else var n := After(d, b, events[0]); LifeEnd(n.0, n.1, events[1..])
  }

  lemma EventKeepsDeposit(d: Deposit.Record, b: Bridge.Bridge, e: Event)
    requires TargetOk(DepositOf(d), b) && Happens(d, b, e)
    ensures var n := After(d, b, e);
            && TargetOk(DepositOf(n.0), n.1)
            && (DepositFacts.MarksAreDue(d, b) && Answered(b, e) ==> DepositFacts.MarksAreDue(n.0, n.1))
  {
    match e
    case Section(s) =>
      DepositFacts.DoKeepsRecord(d, s);
      DepositFacts.DoKeepsAgreement(d, s, b);
    case World(m) =>
      Bridge.NextKeepsValid(b, m);
      DepositFacts.WorldKeepsAgreement(d, b, m);
    case SweptUp(stale, look, submits) =>
      SweepKeepsDeposit(d, stale, EnvelopeFor(DepositOf(d)).value, b, look, submits);
  }

  /**
   Over a deposit's whole life, with polls, cancels, resumes, reports, stamps, sweeps and an adversarial
   ledger in any order, and reads that fail at any time: the history stays legal and never falls back,
   attempts stay below their cap, the forward hash is there exactly past the forward, and the forward and
   every recorded merge transaction did go through. An out-of-band mark is on a bridge that is gone as long
   as every sweep's read of a living account answered; WhatTheMarkMeans says what is left of it otherwise.
   */
  lemma {:induction false} DepositLife(d: Deposit.Record, b: Bridge.Bridge, events: seq<Event>)
    requires TargetOk(DepositOf(d), b) && LifeRuns(d, b, events)
    ensures var n := LifeEnd(d, b, events);
            && TargetOk(DepositOf(n.0), n.1)
            && (DepositFacts.MarksAreDue(d, b) && AllAnswered(d, b, events) ==> DepositFacts.MarksAreDue(n.0, n.1))
    decreases |events|
  {
    if events != [] {
      var n := After(d, b, events[0]);
      EventKeepsDeposit(d, b, events[0]);
      DepositLife(n.0, n.1, events[1..]);
    }
  }

  // --- a lost reply to the forward --------------------------------------------------------------

  /** The forward went through and the record never learned of it. */
  ghost predicate Unheard(d: Deposit.Record, b: Bridge.Bridge) {
    && TargetOk(DepositOf(d), b) && Bridge.Done(b, Bridge.Forward) && d.hashes.forward.None?
    && (d.status.OnrampPaid? || (d.status.Failed? && d.error != Some(Deposit.AmountMismatch)))
  }

  /** Such a record is made up for exactly by a resubmission that is reported as a success. */
  lemma WhenAnUnheardForwardIsMadeUpFor(d: Deposit.Record, a: Deposit.Answer, now: nat, b: Bridge.Bridge)
    requires Unheard(d, b)
    ensures Deposit.Advanced(d, a, now).hashes.forward.Some? <==> d.status.OnrampPaid? && a.submit.Ok?
  {
  }

  /** The sweep takes it for a deposit to abort, finds the slot spent, and gives up: it never submits the cleanup. */
  lemma SweepGivesUp(d: Deposit.Record, b: Bridge.Bridge, look: Look, submits: nat)
    requires Unheard(d, b) && EnvelopeFor(DepositOf(d)).Some?
    ensures var s := SweepItem(DepositOf(d), EnvelopeFor(DepositOf(d)).value, b, look, submits);
            && !s.submitted && s.bridge == b && s.target.DepositOf? && Unheard(s.target.deposit, b)
            && (look.readable ==> s.target == DepositOf(d) && s.item.note.SequenceMoved?)
  {
    var k := EnvelopeFor(DepositOf(d)).value;
    WhatASweepWrites(d, k, b, look, submits);
    if !look.readable { MarkedDepositOk(d, d.hashes.(abort := Some(Deposit.OutOfBand))); }
  }

  function PollsIn(events: seq<Event>): nat
    decreases |events|
  {
    if events == [] then 0 else PollsIn(events[1..]) + (if events[0].Section? && events[0].section.Advance?
        then 1 else 0)
  }

  function TriesLeft(d: Deposit.Record): int {
    if d.status.OnrampPaid? then Deposit.MAX_STEP_ATTEMPTS - Deposit.Tries(d, Deposit.OnrampPaid) else 0
  }

  /** No resubmission is reported as a success. */
  ghost predicate NeverReported(events: seq<Event>) {
    forall i | 0 <= i < |events| :: events[i].Section? && events[i].section.Advance? ==>
        events[i].section.answer.submit.Err?
  }

  lemma SectionStaysUnheard(d: Deposit.Record, b: Bridge.Bridge, s: Deposit.Section)
    requires Unheard(d, b) && DepositFacts.Truthful(d, s, b) && (s.Advance? ==> s.answer.submit.Err?)
    ensures Unheard(Deposit.Do(d, s), b)
    ensures TriesLeft(Deposit.Do(d, s)) <= TriesLeft(d)
    ensures s.Advance? && d.status.OnrampPaid? ==> TriesLeft(Deposit.Do(d, s)) < TriesLeft(d)
  {
    DepositFacts.DoKeepsRecord(d, s);
    DepositFacts.DoKeepsAgreement(d, s, b);
  }

  /**
   Unless a resubmission is reported as a success, the record of a forward whose reply was lost ends failed
   after at most six polls although the kumbara was paid; and no sweep ever merges the bridge, whose reserves
   stay on the sponsor unless somebody submits the cleanup by hand.
   */
  lemma {:induction false} LostForwardReply(d: Deposit.Record, b: Bridge.Bridge, events: seq<Event>)
    requires Unheard(d, b) && LifeRuns(d, b, events) && NeverReported(events)
    ensures var n := LifeEnd(d, b, events);
            && Unheard(n.0, n.1)
            && (PollsIn(events) >= TriesLeft(d) ==> n.0.status.Failed?)
    decreases |events|
  {
    assert d.status.OnrampPaid? ==> Deposit.Tries(d, Deposit.OnrampPaid) < Deposit.MAX_STEP_ATTEMPTS;
    if events != [] {
      var e := events[0];
      match e {
        case Section(s) => SectionStaysUnheard(d, b, s);
        case World(m) => EventKeepsDeposit(d, b, e); Bridge.RunIsMonotone(b, [m]);
            assert Bridge.Run(b, [m]) == Bridge.Next(b, m);
        case SweptUp(_, look, submits) => SweepGivesUp(d, b, look, submits);
      }
      var n := After(d, b, e);
      assert TriesLeft(n.0) <= TriesLeft(d);
      LostForwardReply(n.0, n.1, events[1..]);
    }
  }

  /** How it comes about: the anchor pays five stroops, the forward applies, and its reply is a timeout. */
  lemma ALostForwardReply() returns (poll: Deposit.Answer, submit: Deposit.Answer, b: Bridge.Bridge)
    ensures var d := Deposit.Advanced(Deposit.Advanced(Deposit.Opened(Deposit.Plan(5, true), "1", true), poll, 0),
        submit, 1);
            Unheard(d, b) && d.status.OnrampPaid? && EnvelopeFor(DepositOf(d)) == Some(Bridge.Abort)
  {
    var timeout: Result<nat, Deposit.Fault> := Err(Deposit.Fault(true, 3));
    var tx := Deposit.AnchorTx(Deposit.Completed, None, Some(FromStroops(5)), None, false);
    poll := Deposit.Answer(false, true, Ok(tx), false, timeout);
    submit := poll;
    b := Bridge.Bridge(5, true, 5, Bridge.Forwarded, Bridge.Pending);
    StroopsRoundTrip(5);
    DepositFacts.OpenedOk(Deposit.Plan(5, true), "1", true);
    var paid := IsPaid(Deposit.Opened(Deposit.Plan(5, true), "1", true), poll);
    TimesOut(paid, submit, b);
  }

  ghost predicate OfFive(d: Deposit.Record) {
    && DepositFacts.RecordOk(d) && d.landing == Some(Deposit.Plan(5, true)) && d.attempts == map[]
    && d.hashes == Deposit.Hashes(None, None, None, None, false)
  }

  lemma IsPaid(d: Deposit.Record, a: Deposit.Answer) returns (n: Deposit.Record)
    requires OfFive(d) && d.status.AwaitingTransfer? && !a.tokenExpired
    requires a.poll.Ok? && a.poll.value.status.Completed? && a.poll.value.amountOut.Some?
        && ToStroops(a.poll.value.amountOut.value) == Some(5)
    ensures n == Deposit.Advanced(d, a, 0) && OfFive(n) && n.status.OnrampPaid?
  {
    n := Deposit.Advanced(d, a, 0);
    DepositFacts.DoKeepsRecord(d, Deposit.Advance(a, 0));
    assert n == Deposit.WithHistory(d, Deposit.PollSep6(d, a).value);
  }

  lemma TimesOut(d: Deposit.Record, a: Deposit.Answer, b: Bridge.Bridge)
    requires OfFive(d) && d.status.OnrampPaid? && a.submit.Err? && a.submit.error.transient
    requires b == Bridge.Bridge(5, true, 5, Bridge.Forwarded, Bridge.Pending)
    ensures var n := Deposit.Advanced(d, a, 1);
        Unheard(n, b) && n.status.OnrampPaid?
        && EnvelopeFor(DepositOf(n)) == Some(Bridge.Abort)
  {
    DepositFacts.DoKeepsRecord(d, Deposit.Advance(a, 1));
    assert Deposit.Advanced(d, a, 1) == Deposit.AfterFault(d, a.submit.error, 1);
  }
}
