/**
 The two pipelines under the driver: why the driver's laws hold for deposits and withdrawals, and what a
 driven record does.
 */
module Driving {
  import opened Prelude
  import opened Driver
  import Deposit
  import DepositFacts
  import Withdraw
  import WithdrawFacts
  import Sweep
  import Bridge

  // --- deposits ---------------------------------------------------------------------------------

  /** Who else writes a deposit. */
  datatype Change =
    | BySection(section: Deposit.Section)
    | BySweep(stale: bool, kind: Bridge.Kind, bridge: Bridge.Bridge, look: Sweep.Look, submits: nat)

  /** A sweep changes its candidates only. */
  predicate Swept(r: Deposit.Record, c: Change) {
    && c.BySweep? && Sweep.Candidate(Sweep.DepositOf(r), c.stale)
        && Sweep.EnvelopeFor(Sweep.DepositOf(r)) == Some(c.kind)
  }

  function Changed(r: Deposit.Record, c: Change): Deposit.Record {
    if c.BySection? then Deposit.Do(r, c.section)
    else if Swept(r, c) then
      var t := Sweep.SweepItem(Sweep.DepositOf(r), c.kind, c.bridge, c.look, c.submits).target;
      if t.DepositOf? then t.deposit else r
    else r
  }

  /** A well-formed record, and one later in the same life. */
  ghost predicate Later(r: Deposit.Record, n: Deposit.Record) {
    DepositFacts.RecordOk(r) && DepositFacts.RecordOk(n) && r.history <= n.history
  }

  function StepsLeft(s: Deposit.Status): nat {
    match s
    case AwaitingTransfer => 5
    case TransferReceived => 4
    case OnrampPending => 3
    case OnrampPaid => 2
    case Forwarded => 1
    case _ => 0
  }

  ghost function Deposits(): Kind<Deposit.Record, Deposit.Status, Deposit.Answer, Change> {
    Kind([Deposit.AwaitingTransfer, Deposit.TransferReceived, Deposit.OnrampPending, Deposit.OnrampPaid,
        Deposit.Forwarded],
         (r: Deposit.Record) => r.status, (r: Deposit.Record) => r.lastErrorAt,
         (r, a, now) => Deposit.Advanced(r, a, now), (r, c) => Changed(r, c),
         r => DepositFacts.RecordOk(r), (r, n) => Later(r, n), s => StepsLeft(s))
  }

  lemma SectionMovesOn(r: Deposit.Record, s: Deposit.Section)
    requires DepositFacts.RecordOk(r)
    ensures Later(r, Deposit.Do(r, s))
  {
    DepositFacts.DoKeepsRecord(r, s);
    if s.Advance? { DepositFacts.AdvanceShape(r, s.answer, s.now); } else { DepositFacts.OtherShape(r, s); }
  }

  lemma ChangeMovesOn(r: Deposit.Record, c: Change)
    requires DepositFacts.RecordOk(r)
    ensures Later(r, Changed(r, c))
  {
    if c.BySection? {
      SectionMovesOn(r, c.section);
    } else if Swept(r, c) {
      Sweep.WhatASweepWrites(r, c.kind, c.bridge, c.look, c.submits);
      var s := Sweep.SweepItem(Sweep.DepositOf(r), c.kind, c.bridge, c.look, c.submits);
      Sweep.SweptRecordOk(r, c.stale, s.target.deposit, c.kind, s.bridge, c.look);
    }
  }

  ghost predicate Path(path: seq<Deposit.Status>, s: Deposit.Status, t: Deposit.Status) {
    && path != [] && path[0] == s && path[|path| - 1] == t
    && forall i | 0 <= i < |path| - 1 :: DepositFacts.Edge(path[i], path[i + 1])
  }

  /**
   What happens to a deposit between two looks at it, whoever did it, is a path of the status graph, and
   live statuses only climb along it.
   */
  lemma LaterIsAPath(r: Deposit.Record, n: Deposit.Record)
    requires Later(r, n)
    ensures Path(n.history[|r.history| - 1..], r.status, n.status)
    ensures DepositFacts.Rank(n.status) >= 0 ==> DepositFacts.Rank(r.status) <= DepositFacts.Rank(n.status)
  {
    var i, j := |r.history| - 1, |n.history| - 1;
    assert n.history[i] == r.history[i] == r.status && n.history[j] == n.status;
  }

  lemma LaterTwice(a: Deposit.Record, b: Deposit.Record, c: Deposit.Record)
    requires Later(a, b) && Later(b, c)
    ensures Later(a, c)
  {
  }

  lemma ClimbingUsesUpSteps(r: Deposit.Record, n: Deposit.Record)
    requires Later(r, n) && n.status != r.status && StepsLeft(r.status) > 0 && StepsLeft(n.status) > 0
    ensures StepsLeft(n.status) < StepsLeft(r.status)
  {
    LaterIsAPath(r, n);
    assert DepositFacts.Rank(r.status) < DepositFacts.Rank(n.status);
  }

  lemma DepositsKept()
    ensures forall r, c | Deposits().good(r) ::
        Deposits().good(Deposits().change(r, c))
        && Deposits().later(r, Deposits().change(r, c))
    ensures forall r, a, t: nat | Deposits().good(r) ::
              Deposits().good(Deposits().advance(r, a, t)) && Deposits().later(r, Deposits().advance(r, a, t))
  {
    var k := Deposits();
    forall r, c | k.good(r) ensures k.good(k.change(r, c)) && k.later(r, k.change(r, c)) { ChangeMovesOn(r, c); }
    forall r, a, t: nat | k.good(r) ensures k.good(k.advance(r, a, t)) && k.later(r, k.advance(r, a, t)) {
      SectionMovesOn(r, Deposit.Advance(a, t));
    }
  }

  lemma DepositsOrdered()
    ensures forall r | Deposits().good(r) :: Deposits().later(r, r)
    ensures forall a, b, c | Deposits().later(a, b) && Deposits().later(b, c) :: Deposits().later(a, c)
  {
    var k := Deposits();
    forall a, b, c | k.later(a, b) && k.later(b, c) ensures k.later(a, c) { LaterTwice(a, b, c); }
  }

  lemma DepositsClimb()
    ensures forall a, b | Deposits().later(a, b) && Deposits().status(a) in Deposits().driveable
        && Deposits().status(b) in Deposits().driveable
                && Deposits().status(a) != Deposits().status(b) ::
                    Deposits().left(Deposits().status(b)) < Deposits().left(Deposits().status(a))
    ensures forall s | s in Deposits().driveable :: 1 <= Deposits().left(s) < MAX_STEPS_PER_RECORD
  {
    var k := Deposits();
    forall a, b | k.later(a, b) && k.status(a) in k.driveable && k.status(b) in k.driveable
        && k.status(a) != k.status(b)
      ensures k.left(k.status(b)) < k.left(k.status(a))
    {
      ClimbingUsesUpSteps(a, b);
    }
  }

  /** At most five steps from awaiting_transfer to in_wallet, whatever the other writers do. */
  lemma DepositsAreLawful()
    ensures Lawful(Deposits())
  {
    DepositsKept();
    DepositsOrdered();
    DepositsClimb();
  }

  // --- a sweep beside the leases ----------------------------------------------------------------

  /** What a sweep saves: the record it listed, with its own writes, whatever is stored by then. */
  function SweepSaves(listed: Deposit.Record, kind: Bridge.Kind, b: Bridge.Bridge, look: Sweep.Look,
      submits: nat): Deposit.Record {
    var t := Sweep.SweepItem(Sweep.DepositOf(listed), kind, b, look, submits).target;
    if t.DepositOf? then t.deposit else listed
  }

  /**
   The sweep takes no lease and does not load the record again. Its save keeps the status changes made since the
   listing exactly when there were none, or when they are the very one the sweep makes itself; everything else
   but its marks goes back to what was listed.
   */
  lemma WhatAStaleSaveKeeps(
    listed: Deposit.Record, stored: Deposit.Record, kind: Bridge.Kind, b: Bridge.Bridge, look: Sweep.Look, submits: nat)
    requires Later(listed, stored) && Sweep.EnvelopeFor(Sweep.DepositOf(listed)) == Some(kind)
    ensures var saved := SweepSaves(listed, kind, b, look, submits);
            && (stored.history <= saved.history <==>
                  stored.history == listed.history || stored.history == saved.history)
            && saved.bankPlayed == listed.bankPlayed && saved.attempts == listed.attempts && saved.money == listed.money
            && saved.hashes.forward == listed.hashes.forward && saved.hashes.vault == listed.hashes.vault
  {
    Sweep.WhatASweepWrites(listed, kind, b, look, submits);
    StaleWrites(listed, kind, b, look, submits);
  }

  lemma StaleWrites(listed: Deposit.Record, kind: Bridge.Kind, b: Bridge.Bridge, look: Sweep.Look, submits: nat)
    requires Sweep.EnvelopeFor(Sweep.DepositOf(listed)) == Some(kind)
    ensures var saved := SweepSaves(listed, kind, b, look, submits);
            && (saved.history == listed.history || saved.history == listed.history + [Deposit.Cancelled])
            && saved.hashes.forward == listed.hashes.forward && saved.hashes.vault == listed.hashes.vault
  {
  }

  /** A report of the vault deposit that arrives between the listing and the save is lost. */
  lemma StaleSweepLosesAReport(
    listed: Deposit.Record, hash: nat, b: Bridge.Bridge, look: Sweep.Look, submits: nat)
    requires DepositFacts.RecordOk(listed) && listed.status.InWallet? && listed.hashes.vault.None?
    requires Sweep.EnvelopeFor(Sweep.DepositOf(listed)) == Some(Bridge.Cleanup)
    ensures var stored := Deposit.Do(listed, Deposit.Report(hash));
            var saved := SweepSaves(listed, Bridge.Cleanup, b, look, submits);
            && stored.status.InVault? && stored.hashes.vault == Some(hash)
            && saved.status.InWallet? && saved.hashes.vault.None? && !Later(stored, saved)
  {
  }

  // --- withdrawals ------------------------------------------------------------------------------

  ghost predicate WithdrawalLater(r: Withdraw.Record, n: Withdraw.Record) {
    WithdrawFacts.RecordOk(r) && WithdrawFacts.RecordOk(n) && r.history <= n.history
  }

  function Rank(s: Withdraw.Status): nat {
    match s
    case Created => 0
    case AwaitingUsdc => 1
    case UsdcSent => 2
    case Paid => 3
    case Completed => 4
    case Failed => 5
  }

  ghost function Withdrawals(): Kind<Withdraw.Record, Withdraw.Status, Withdraw.Answer, Withdraw.Section> {
    Kind([Withdraw.Created, Withdraw.UsdcSent, Withdraw.Paid],
         (r: Withdraw.Record) => r.status, (r: Withdraw.Record) => r.lastErrorAt,
         (r, a, now) => Withdraw.Advanced(r, a, now), (r, s) => Withdraw.Do(r, s),
         r => WithdrawFacts.RecordOk(r), (r, n) => WithdrawalLater(r, n), s => 5 - Rank(s))
  }

  lemma WithdrawalMovesOn(r: Withdraw.Record, s: Withdraw.Section)
    requires WithdrawFacts.RecordOk(r)
    ensures WithdrawalLater(r, Withdraw.Do(r, s))
  {
    WithdrawFacts.DoKeepsRecord(r, s);
    if s.Advance? { WithdrawFacts.AdvanceOk(r, s.answer, s.now); } else { WithdrawFacts.ReportOk(r, s); }
  }

  /** A withdrawal's status never comes back: every entry of its history ranks above the one before. */
  lemma {:induction false} HistoryClimbs(r: Withdraw.Record, i: nat, j: nat)
    requires WithdrawFacts.HistoryOk(r) && i <= j < |r.history|
    ensures Rank(r.history[i]) + (j - i) <= Rank(r.history[j])
    decreases j
  {
    if i < j { HistoryClimbs(r, i, j - 1); }
  }

  lemma WithdrawalClimbs(r: Withdraw.Record, n: Withdraw.Record)
    requires WithdrawalLater(r, n) && n.status != r.status
    ensures Rank(r.status) < Rank(n.status)
  {
    assert n.history[|r.history| - 1] == r.status;
    HistoryClimbs(n, |r.history| - 1, |n.history| - 1);
  }

  lemma WithdrawalLaterTwice(a: Withdraw.Record, b: Withdraw.Record, c: Withdraw.Record)
    requires WithdrawalLater(a, b) && WithdrawalLater(b, c)
    ensures WithdrawalLater(a, c)
  {
  }

  lemma WithdrawalsAreLawful()
    ensures Lawful(Withdrawals())
  {
    var k := Withdrawals();
    forall r, s | k.good(r) ensures k.good(k.change(r, s)) && k.later(r, k.change(r, s)) { WithdrawalMovesOn(r, s); }
    forall r, a, t: nat | k.good(r) ensures k.good(k.advance(r, a, t)) && k.later(r, k.advance(r, a, t)) {
      WithdrawalMovesOn(r, Withdraw.Advance(a, t));
    }
    forall a, b | k.later(a, b) && k.status(a) in k.driveable && k.status(b) in k.driveable
        && k.status(a) != k.status(b)
      ensures k.left(k.status(b)) < k.left(k.status(a))
    {
      WithdrawalClimbs(a, b);
    }
    forall a, b, c | k.later(a, b) && k.later(b, c) ensures k.later(a, c) { WithdrawalLaterTwice(a, b, c); }
  }
}
