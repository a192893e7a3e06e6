/**
 Withdrawals end to end, from the moment the reverse bridge is locked and on record: concurrent leased
 sections with crashes and takeovers, over a ledger on which anybody submits anything.
 */
module PayoutEndToEnd {
  import opened Prelude
  import opened Amounts
  import Ledger
  import opened Envelopes
  import opened Authority
  import Setup
  import opened Lives
  import opened Together
  import opened Withdraw
  import opened WithdrawFacts
  import Sections
  import Deposit
  import Bridge

  /** A reported success names an envelope that the ledger has applied successfully. */
  ghost predicate TruthfulOnLedger(p: Envelopes.Plan, r: Record, s: Section, l: Ledger.State) {
    s.Advance? && s.answer.submit.Ok? ==>
      && (r.status.UsdcSent? ==> Ledger.Applied(ForwardTx(p), true) in l.log)
      && (r.status.Paid? ==> Ledger.Applied(CleanupTx(p), true) in l.log)
  }

  ghost predicate Bridged(r: Record) {
    RecordOk(r) && r.landing.Some?
  }

  ghost function Withdrawals(p: Envelopes.Plan): Pipeline<Record, Section> {
    Pipeline((r, s) => Withdraw.Do(r, s), r => Bridged(r), (r, b) => Claims(r, b),
        (r, s, l) => TruthfulOnLedger(p, r, s, l))
  }

  lemma StepKeepsLanding(r: Record, a: Answer, now: nat)
    requires r.landing.Some? && Step(r, a, now).Ok?
    ensures Step(r, a, now).value.landing.Some?
  {
  }

  lemma SectionKeepsLanding(r: Record, s: Section)
    requires r.landing.Some?
    ensures Withdraw.Do(r, s).landing.Some?
  {
    if s.Advance? && Step(r, s.answer, s.now).Ok? { StepKeepsLanding(r, s.answer, s.now); }
  }

  lemma SectionIsLawful(p: Envelopes.Plan, r: Record, s: Section, l: Ledger.State, b: Bridge.Bridge)
    requires Bridged(r) && Claims(r, b) && Logged(l, p, b) && TruthfulOnLedger(p, r, s, l)
    ensures Bridged(Withdraw.Do(r, s)) && Claims(Withdraw.Do(r, s), b)
  {
    assert TxOf(p, Bridge.Forward) == ForwardTx(p) && TxOf(p, Bridge.Cleanup) == CleanupTx(p);
    DoKeepsRecord(r, s);
    DoKeepsAgreement(r, s, b);
    SectionKeepsLanding(r, s);
  }

  lemma WithdrawalsAreLawful(p: Envelopes.Plan)
    ensures Lawful(Withdrawals(p), p)
  {
    var k := Withdrawals(p);
    forall r, s, l, b | k.fine(r) && k.claims(r, b) && Logged(l, p, b) && k.truthful(r, s, l)
      ensures k.fine(k.act(r, s)) && k.claims(k.act(r, s), b)
    {
      SectionIsLawful(p, r, s, l, b);
    }
    forall r, b, m | k.claims(r, b) && Bridge.Valid(b) ensures k.claims(r, Bridge.Next(b, m)) {
      WorldKeepsAgreement(r, b, m);
    }
  }

  /**
   What a withdrawal's record means on the ledger, over the whole run since the lock: the books of the bridge
   balance, and with a recorded payment the one thing that left is exactly the amount the record names.
   */
  ghost predicate Sound(p: Envelopes.Plan, l0: Ledger.State, r: Record, l: Ledger.State) {
    exists steps, k :: SoundBy(p, l0, r, l, steps, k)
  }

  ghost predicate SoundBy(
    p: Envelopes.Plan, l0: Ledger.State, r: Record, l: Ledger.State, steps: seq<Ledger.Step>, k: nat)
  {
    && l == Ledger.Run(l0, steps) && Books(l0, p, steps, k)
    && ToStroops(r.amountUsdc) == Some(p.amount)
    && (r.hashes.payment.Some? ==> ForwardApplied(l, p))
  }

  lemma AccountedIsSound(
    p: Envelopes.Plan, l0: Ledger.State, r: Record, l: Ledger.State, steps: seq<Ledger.Step>, k: nat)
    requires Bridged(r) && Accounted(Withdrawals(p), p, l0, r, l, steps, k)
    ensures Sound(p, l0, r, l)
  {
    assert Claims(r, Lives.After(l0, p, steps).bridge);
    assert TxOf(p, Bridge.Forward) == ForwardTx(p);
    assert SoundBy(p, l0, r, l, steps, k);
  }

  /**
   In every reachable state of the whole system, from any moment after the lock at which the plan is first on
   record: the record is well-formed and sound, and what was saved is a run of the sequential machine.
   */
  lemma WithdrawalsAreSound(
    p: Envelopes.Plan, first: Record, l0: Ledger.State, already: seq<Ledger.Step>,
    invocations: nat, acts: seq<Sections.Action<Record, Ledger.State>>)
    requires Handed(l0, p) && RecordOk(first) && first.landing == Some(Deposit.Plan(p.amount, p.abortable))
    requires first.hashes.payment.None? && first.hashes.cleanup.None?
    requires Sections.Runs(RulesOf(Withdrawals(p)), Sections.Start(first, Ledger.Run(l0, already), invocations), acts)
    ensures var s := Sections.Run(RulesOf(Withdrawals(p)), Sections.Start(first, Ledger.Run(l0, already),
        invocations), acts);
            && RecordOk(s.record) && Sound(p, l0, s.record, s.world)
            && Sections.Chain(RulesOf(Withdrawals(p)), first, s.saved, s.record)
  {
    LedgerRefinesBridge(l0, p, Setup.OpenTracker(l0, p), already);
    WithdrawalsAreLawful(p);
    var steps, k := RecordsAreAccounted(Withdrawals(p), p, first, l0, already, invocations, acts);
    var s := Sections.Run(RulesOf(Withdrawals(p)), Sections.Start(first, Ledger.Run(l0, already), invocations), acts);
    AccountedIsSound(p, l0, s.record, s.world, steps, k);
  }
}
