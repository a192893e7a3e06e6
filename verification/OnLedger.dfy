/**
 What the sweep, the cancel and the withdrawal rely on, said of the ledger itself: reads of an address, the
 sequence check, and what becomes of the envelopes they submit.
 */
module OnLedger {
  import opened Prelude
  import opened Amounts
  import opened Ledger
  import opened Envelopes
  import opened Authority
  import Bridge
  import Sweep
  import Withdraw
  import WithdrawFacts

  /** The ledger the reads were answered from. */
  ghost predicate ReadFrom(look: Sweep.Look, l: State, b: Id) {
    && (look.readable ==> Exists(l, b))
    && (look.balance.Some? ==> look.balance.value == View(l, b).usdc)
  }

  /** Reads of the ledger are truthful of the bridge, also when somebody else's account is at its address by now. */
  lemma ReadsAreTruthful(l: State, p: Plan, t: Tracker, look: Sweep.Look)
    requires Tracks(l, p, t) && ReadFrom(look, l, p.bridge)
    ensures Sweep.TruthfulLook(look, t.bridge)
  {
  }

  /**
   The sequence check on the account that was read is the check on the bridge's spent slots; an account that
   somebody created at the address of a merged bridge never passes it.
   */
  lemma SequenceCheck(l: State, p: Plan, t: Tracker, k: Bridge.Kind)
    requires Tracks(l, p, t) && Exists(l, p.bridge) && (k.Cleanup? ==> Bridge.Done(t.bridge, Bridge.Forward))
    ensures TxOf(p, k).seqNo == l.accts[p.bridge].value.seqNo + 1 <==> Bridge.SlotOf(k) == Bridge.Spent(t.bridge) + 1
    ensures !Bridge.Alive(t.bridge) ==> TxOf(p, k).seqNo != l.accts[p.bridge].value.seqNo + 1
  {
  }

  /**
   If the ledger does not move between the sweep's checks and its submit, what it submits merges the bridge,
   exactly when a ledger has closed since the account's creation; in the creation's own ledger it burns the slot.
   */
  lemma SweepMergesOnLedger(
    l: State, p: Plan, t: Tracker, target: Sweep.Target, k: Bridge.Kind, look: Sweep.Look, submits: nat)
    requires Tracks(l, p, t) && ReadFrom(look, l, p.bridge)
    requires Sweep.TargetOk(target, t.bridge) && Sweep.EnvelopeFor(target) == Some(k)
    requires Sweep.SweepItem(target, k, t.bridge, look, submits).submitted
    ensures Exists(l, p.bridge) && TxOf(p, k).seqNo == l.accts[p.bridge].value.seqNo + 1
    ensures !Exists(Next(l, Submission(p, k)), p.bridge) <==> CanMerge(l, p, k)
  {
    ReadsAreTruthful(l, p, t, look);
    Sweep.SubmitsOnlyWhatMerges(target, k, t.bridge, look, submits);
    MergeGoesThrough(l, p, t, k);
  }

  /**
   The abort of a cancel: the account goes exactly when nothing was paid in and the ledger can merge it. What it
   burns otherwise is the forward's slot, and money that is there is stranded.
   */
  lemma AbortOnLedger(l: State, p: Plan, t: Tracker)
    requires Tracks(l, p, t) && t.bridge.first.Open? && p.abortable
    ensures !Exists(Next(l, Submission(p, Bridge.Abort)), p.bridge) <==>
              t.bridge.received == 0 && CanMerge(l, p, Bridge.Abort)
    ensures Bridge.Stranded(Follow(l, p, t, Submission(p, Bridge.Abort)).bridge) <==> t.bridge.received > 0
  {
    MergeGoesThrough(l, p, t, Bridge.Abort);
    Included(l, p, t, Bridge.Abort);
    ExactlyTheCoSignature(l, p, t, Bridge.Abort, {p.bridge});
    assert KindOf(p, AbortTx(p)) == Bridge.Abort;
  }

  /**
   The payment of a withdrawal is submitted only when it is covered: it goes through exactly when the treasury
   can receive it.
   */
  lemma PaymentOnLedger(l: State, p: Plan, t: Tracker, r: Withdraw.Record, a: Withdraw.Answer, now: nat)
    requires Tracks(l, p, t) && t.bridge.first.Open? && a.balance == Ok(View(l, p.bridge).usdc)
    requires WithdrawFacts.RecordOk(r) && WithdrawFacts.Claims(r, t.bridge) && !r.stellar && r.status.UsdcSent?
    requires Withdraw.Step(r, a, now).Ok? && Withdraw.Step(r, a, now).value.status.Paid?
    ensures Outs(Next(l, Submission(p, Bridge.Forward)).log, p.bridge) == Outs(l.log, p.bridge) + [(p.dest, p.amount)]
            <==> CanReceive(l, p.dest)
  {
    WithdrawFacts.PaymentIsCovered(r, a, now, t.bridge);
    Authority.ForwardGoesThrough(l, p, t);
  }
}
