/**
 Deposits end to end: concurrent leased sections with crashes and takeovers, over a ledger on which
 anybody submits anything, from the moment the bridge is locked.
 */
module EndToEnd {
  import opened Prelude
  import Ledger
  import opened Envelopes
  import opened Authority
  import Setup
  import opened Lives
  import opened Together
  import opened Sections
  import opened Deposit
  import opened DepositFacts
  import Bridge

  /** A reported success names an envelope that the ledger has applied successfully. */
  ghost predicate TruthfulOnLedger(p: Envelopes.Plan, r: Record, s: Section, l: Ledger.State) {
    match s
    case Advance(a, _) =>
      a.submit.Ok? ==>
        && (r.status.OnrampPaid? ==> Ledger.Applied(ForwardTx(p), true) in l.log)
        && (r.status.Forwarded? ==> Ledger.Applied(CleanupTx(p), true) in l.log)
    case Cancel(a) => a.submit.Ok? && r.status.AwaitingTransfer? ==> Ledger.Applied(AbortTx(p), true) in l.log
    case _ => true
  }

  ghost function Deposits(p: Envelopes.Plan): Pipeline<Record, Section> {
    Pipeline((r, s) => Deposit.Do(r, s), r => RecordOk(r), (r, b) => Agrees(r, b),
        (r, s, l) => TruthfulOnLedger(p, r, s, l))
  }

  lemma SectionIsLawful(p: Envelopes.Plan, r: Record, s: Section, l: Ledger.State, b: Bridge.Bridge)
    requires RecordOk(r) && Agrees(r, b) && Logged(l, p, b) && TruthfulOnLedger(p, r, s, l)
    ensures RecordOk(Deposit.Do(r, s)) && Agrees(Deposit.Do(r, s), b)
  {
    assert TxOf(p, Bridge.Forward) == ForwardTx(p);
    assert TxOf(p, Bridge.Cleanup) == CleanupTx(p) && TxOf(p, Bridge.Abort) == AbortTx(p);
    DoKeepsRecord(r, s);
    DoKeepsAgreement(r, s, b);
  }

  lemma DepositsAreLawful(p: Envelopes.Plan)
    ensures Lawful(Deposits(p), p)
  {
    var k := Deposits(p);
    forall r, s, l, b | k.fine(r) && k.claims(r, b) && Logged(l, p, b) && k.truthful(r, s, l)
      ensures k.fine(k.act(r, s)) && k.claims(k.act(r, s), b)
    {
      SectionIsLawful(p, r, s, l, b);
    }
    forall r, b, m | k.claims(r, b) && Bridge.Valid(b) ensures k.claims(r, Bridge.Next(b, m)) {
      WorldKeepsAgreement(r, b, m);
    }
  }

  /**
   What a deposit's record means on the ledger, over the whole run since the lock: the books of the bridge
   balance, past the forward the planned payment is the one thing that left, and a recorded abort transaction
   means that nothing left and the bridge is gone.
   */
  ghost predicate Sound(p: Envelopes.Plan, l0: Ledger.State, r: Record, l: Ledger.State) {
    exists steps, k :: SoundBy(p, l0, r, l, steps, k)
  }

  ghost predicate SoundBy(
    p: Envelopes.Plan, l0: Ledger.State, r: Record, l: Ledger.State, steps: seq<Ledger.Step>, k: nat)
  {
    && l == Ledger.Run(l0, steps) && Books(l0, p, steps, k)
    && (PastForward(r.status) ==> ForwardApplied(l, p))
    && (r.hashes.abort.Some? && r.hashes.abort.value.Tx? ==>
          && !ForwardApplied(l, p) && Ledger.Applied(AbortTx(p), true) in l.log
          && !Ledger.Exists(Ledger.Run(l0, steps[..k]), p.bridge))
  }

  lemma AccountedIsSound(
    p: Envelopes.Plan, l0: Ledger.State, r: Record, l: Ledger.State, steps: seq<Ledger.Step>, k: nat)
    requires RecordOk(r) && Accounted(Deposits(p), p, l0, r, l, steps, k)
    ensures Sound(p, l0, r, l)
  {
    assert Agrees(r, After(l0, p, steps).bridge);
    assert TxOf(p, Bridge.Forward) == ForwardTx(p) && TxOf(p, Bridge.Abort) == AbortTx(p);
    assert SoundBy(p, l0, r, l, steps, k);
  }

  /**
   In every reachable state of the whole system, from any moment after the lock at which the record is first
   stored: the record is well-formed and sound, and what was saved is a run of the sequential machine.
   */
  lemma DepositsAreSound(
    p: Envelopes.Plan, amountTry: string, instructions: bool, l0: Ledger.State, already: seq<Ledger.Step>,
    invocations: nat, acts: seq<Action<Record, Ledger.State>>)
    requires Handed(l0, p)
    requires var first := Opened(Deposit.Plan(p.amount, p.abortable), amountTry, instructions);
             Runs(RulesOf(Deposits(p)), Start(first, Ledger.Run(l0, already), invocations), acts)
    ensures var first := Opened(Deposit.Plan(p.amount, p.abortable), amountTry, instructions);
            var s := Run(RulesOf(Deposits(p)), Start(first, Ledger.Run(l0, already), invocations), acts);
            && RecordOk(s.record) && Sound(p, l0, s.record, s.world)
            && Chain(RulesOf(Deposits(p)), first, s.saved, s.record)
  {
    var first := Opened(Deposit.Plan(p.amount, p.abortable), amountTry, instructions);
    OpenedOk(Deposit.Plan(p.amount, p.abortable), amountTry, instructions);
    LedgerRefinesBridge(l0, p, Setup.OpenTracker(l0, p), already);
    DepositsAreLawful(p);
    var steps, k := RecordsAreAccounted(Deposits(p), p, first, l0, already, invocations, acts);
    var s := Run(RulesOf(Deposits(p)), Start(first, Ledger.Run(l0, already), invocations), acts);
    AccountedIsSound(p, l0, s.record, s.world, steps, k);
  }
}
