/**
 The deposit pipeline (lib/deposit.server.ts): one stored record, advanced by polls, cancelled,
 resumed, reported on by the browser and stamped by the demo bank, each under the record's lease.
 What the anchor, the relay and the RPC answer is an input.
 */
module Deposit {
  import opened Prelude
  import opened Amounts

  datatype Status =
    | AwaitingTransfer | TransferReceived | OnrampPending | OnrampPaid | Forwarded | InWallet | InVault
    | Failed | Cancelled | Abandoned

  predicate Final(s: Status) {
    s.InVault? || s.Failed? || s.Cancelled? || s.Abandoned?
  }

  /** Statuses of the anchor's SEP-6 transaction; `Unlisted` is any other string. */
  datatype AnchorStatus =
    | PendingUserTransferStart | Incomplete | PendingCustomerInfoUpdate | PendingTransactionInfoUpdate | PendingUser
    | PendingTrust
    | AnchorError | Expired | Refunded | NoMarket | TooSmall | TooLarge
    | Completed
    | PendingAnchor | PendingExternal | PendingStellar | PendingUserTransferComplete
    | Unlisted(code: nat)

  predicate BeforeTransfer(s: AnchorStatus) {
    s.PendingUserTransferStart? || s.Incomplete? || s.PendingCustomerInfoUpdate? || s.PendingTransactionInfoUpdate?
        || s.PendingUser?
  }

  predicate FinalFailure(s: AnchorStatus) {
    s.AnchorError? || s.Expired? || s.Refunded? || s.NoMarket? || s.TooSmall? || s.TooLarge?
  }

  predicate InFlight(s: AnchorStatus) {
    s.PendingAnchor? || s.PendingExternal? || s.PendingStellar? || s.PendingUserTransferComplete?
  }

  datatype AnchorTx = AnchorTx(status: AnchorStatus, amountIn: Option<string>, amountOut: Option<string>,
      stellarTx: Option<nat>, instructions: bool)

  /** An exception inside a step, with what isTransient and errorCode make of it. */
  datatype Fault = Fault(transient: bool, code: nat)

  const STEP_FAILED: Fault := Fault(false, 0)
  const ANCHOR_PATH_GONE: Fault := Fault(false, 1)
  const ANCHOR_AUTH_EXPIRED: Fault := Fault(false, 2)

  datatype ErrorCode = AmountMismatch | PendingTrustCode | AnchorReported(status: AnchorStatus) | StepError(code: nat)

  /** The merge of a bridge as a record remembers it. */
  datatype Mark = Tx(hash: nat) | OutOfBand

  datatype Plan = Plan(amountStroops: nat, abortable: bool)

  /** Amounts and identifiers the anchor reported. */
  datatype Money = Money(amountTry: string, receivedTry: Option<string>, paidUsdc: Option<string>, instructions: bool,
      anchorTx: Option<nat>)

  /** Transactions the record remembers. */
  datatype Hashes = Hashes(forward: Option<nat>, cleanup: Option<Mark>, abort: Option<Mark>, vault: Option<nat>,
      cleanupError: bool)

  datatype Record = Record(
    status: Status, history: seq<Status>,
    attempts: map<Status, nat>, lastErrorAt: Option<nat>, error: Option<ErrorCode>,
    abandonedFrom: Option<Status>, bankPlayed: bool,
    anchor: bool, sep6: Option<AnchorStatus>, landing: Option<Plan>,
    money: Money, hashes: Hashes)

  /** What createSep6Deposit stores. */
  function Opened(plan: Plan, amountTry: string, instructions: bool): Record {
    Record(AwaitingTransfer, [AwaitingTransfer], map[], None, None, None, false,
           true, Some(PendingUserTransferStart), Some(plan),
           Money(amountTry, None, None, instructions, None), Hashes(None, None, None, None, false))
  }

  /** Everything the outside says during one section. */
  datatype Answer = Answer(tokenExpired: bool, testnet: bool, poll: Result<AnchorTx, Fault>, kycSent: bool,
      submit: Result<nat, Fault>)

  const MAX_STEP_ATTEMPTS := 6
  const MAX_KYC_ANSWERS := 3

  function Tries(r: Record, s: Status): nat {
    if s in r.attempts then r.attempts[s] else 0
  }

  function WithHistory(previous: Record, next: Record): Record {
    if next.status == previous.status then next else next.(history := previous.history + [next.status])
  }

  function Settled(m: Money, tx: AnchorTx, paid: string): Money {
    var received := if tx.amountIn.Some? then tx.amountIn else if m.receivedTry.Some? then m.receivedTry
        else Some(m.amountTry);
    m.(paidUsdc := Some(paid), receivedTry := received, anchorTx := if tx.stellarTx.Some? then tx.stellarTx
        else m.anchorTx)
  }

  /** The anchor says it paid: the exact quoted amount, or a failure with the funds left in the bridge. */
  function Judged(next: Record, quoted: nat, paid: Option<nat>): Result<Record, Fault> {
    if paid.None? then Err(STEP_FAILED)
    else if paid.value != quoted then Ok(next.(status := Failed, error := Some(AmountMismatch)))
    else Ok(next.(status := OnrampPaid))
  }

  function PollSep6(r: Record, a: Answer): Result<Record, Fault> {
    if r.sep6.None? || r.landing.None? || !r.anchor then Err(STEP_FAILED)
    else if a.tokenExpired then Err(ANCHOR_AUTH_EXPIRED)
    else if a.poll.Err? then Err(a.poll.error)
    else
      var tx := a.poll.value;
      var seen := r.(sep6 := Some(tx.status));
      if BeforeTransfer(tx.status) then
        if tx.instructions && !r.money.instructions then Ok(seen.(money := r.money.(instructions := true)))
        else if tx.status.PendingCustomerInfoUpdate? && a.testnet && Tries(r, AwaitingTransfer) < MAX_KYC_ANSWERS
            && a.kycSent then
          Ok(seen.(attempts := r.attempts[AwaitingTransfer := Tries(r, AwaitingTransfer) + 1]))
        else Ok(seen)
      else if tx.status.PendingTrust? then Ok(seen.(status := Failed, error := Some(PendingTrustCode)))
      else if FinalFailure(tx.status) then Ok(seen.(status := Failed, error := Some(AnchorReported(tx.status))))
      else if tx.status.Completed? then
        var paid := if tx.amountOut.Some? then tx.amountOut.value else "0";
        Judged(seen.(money := Settled(r.money, tx, paid)), r.landing.value.amountStroops, ToStroops(paid))
      else if InFlight(tx.status) then
        if r.status.AwaitingTransfer? then
          Ok(seen.(money := r.money.(receivedTry := if tx.amountIn.Some? then tx.amountIn
              else Some(r.money.amountTry)), status := TransferReceived))
        else if r.status.TransferReceived? then Ok(seen.(status := OnrampPending))
        else Ok(seen)
      else Ok(seen)
  }

  function Step(r: Record, a: Answer): Result<Record, Fault> {
    match r.status
    case AwaitingTransfer => if r.sep6.None? then Err(ANCHOR_PATH_GONE) else PollSep6(r, a)
    case TransferReceived => if r.sep6.None? then Err(ANCHOR_PATH_GONE) else PollSep6(r, a)
    case OnrampPending => if r.sep6.None? then Err(ANCHOR_PATH_GONE) else PollSep6(r, a)
    case OnrampPaid =>
      if r.landing.None? then Err(STEP_FAILED)
      else if a.submit.Err? then Err(a.submit.error)
      else Ok(r.(hashes := r.hashes.(forward := Some(a.submit.value)), status := Forwarded))
    case Forwarded =>
      if r.landing.None? then Err(STEP_FAILED)
      else if a.submit.Err? then Ok(r.(hashes := r.hashes.(cleanupError := true), status := InWallet))
      else Ok(r.(hashes := r.hashes.(cleanup := Some(Tx(a.submit.value))), status := InWallet))
    case _ => Ok(r)
  }

  /** The record after a step that threw: one more try, or failed for good. */
  function AfterFault(r: Record, f: Fault, now: nat): Record {
    var tries := Tries(r, r.status) + 1;
    var failed := r.(attempts := r.attempts[r.status := tries], lastErrorAt := Some(now));
    if !f.transient || tries >= MAX_STEP_ATTEMPTS
    then WithHistory(r, failed.(status := Failed, error := Some(StepError(f.code))))
    else failed
  }

  function Advanced(r: Record, a: Answer, now: nat): Record {
    if Final(r.status) || r.status.InWallet? then r
    else match Step(r, a)
      case Ok(next) => WithHistory(r, next)
      case Err(f) => AfterFault(r, f, now)
  }

  /** None where the code throws cannot_cancel. */
  function CancelledOf(r: Record, a: Answer): Option<Record> {
    if Final(r.status) then Some(r)
    else if r.status.AwaitingTransfer? || r.status.TransferReceived? then
      var cancelled := r.(status := Cancelled, abandonedFrom := Some(r.status));
      var aborted :=
        if r.status.AwaitingTransfer? && r.landing.Some? && r.landing.value.abortable then
          if a.submit.Ok? then cancelled.(hashes := r.hashes.(abort := Some(Tx(a.submit.value))))
              else cancelled.(hashes := r.hashes.(cleanupError := true))
        else cancelled;
      Some(WithHistory(r, aborted))
    else if r.status.OnrampPending? then
      Some(WithHistory(r, r.(status := Abandoned, abandonedFrom := Some(r.status))))
    else None
  }

  /** None where the code throws cannot_resume. */
  function ResumedOf(r: Record): Option<Record> {
    if r.status.Abandoned? && r.sep6.Some? && r.landing.Some? then
      Some(WithHistory(r, r.(status := OnrampPending, attempts := map[])).(abandonedFrom := None))
    else if r.status.Failed? && r.error == Some(AmountMismatch) && r.landing.Some? then
      Some(WithHistory(r, r.(status := OnrampPaid, attempts := map[])).(error := None))
    else None
  }

  /** None where the code throws not_in_wallet. */
  function ReportedOf(r: Record, hash: nat): Option<Record> {
    if r.status.InVault? then Some(r)
    else if !r.status.InWallet? then None
    else Some(WithHistory(r, r.(hashes := r.hashes.(vault := Some(hash)), status := InVault)))
  }

  function Stamped(r: Record): Record {
    r.(bankPlayed := true)
  }

  // --- the sections that run under the lease ----------------------------------------------------

  datatype Section = Advance(answer: Answer, now: nat) | Cancel(answer: Answer) | Resume | Report(hash: nat) | Stamp

  /** The stored record after a section; a section that throws leaves it as it was. */
  function Do(r: Record, s: Section): Record {
    match s
    case Advance(a, now) => Advanced(r, a, now)
    case Cancel(a) => var c := CancelledOf(r, a); if c.Some? then c.value else r
    case Resume => var c := ResumedOf(r); if c.Some? then c.value else r
    case Report(h) => var c := ReportedOf(r, h); if c.Some? then c.value else r
    case Stamp => Stamped(r)
  }

  datatype Refusal = CannotCancel | CannotResume | NotInWallet

  /** The stored row of one deposit and the operations that rewrite it. */
  class DepositRow {
    var record: Record

    constructor (plan: Plan, amountTry: string, instructions: bool)
      ensures record == Opened(plan, amountTry, instructions)
    {
      record := Opened(plan, amountTry, instructions);
    }

    method AdvanceDeposit(a: Answer, now: nat) returns (current: Record)
      modifies this
      ensures current == record == Advanced(old(record), a, now)
    {
      if Final(record.status) || record.status.InWallet? { return record; }
      var stepped := Step(record, a);
      if stepped.Ok? {
        record := WithHistory(record, stepped.value);
      } else {
        var tries := Tries(record, record.status) + 1;
        var failed := record.(attempts := record.attempts[record.status := tries], lastErrorAt := Some(now));
        if !stepped.error.transient || tries >= MAX_STEP_ATTEMPTS {
          failed := WithHistory(record, failed.(status := Failed, error := Some(StepError(stepped.error.code))));
        }
        record := failed;
      }
      current := record;
    }

    method CancelDeposit(a: Answer) returns (r: Result<Record, Refusal>)
      modifies this
      ensures r == if CancelledOf(old(record), a).Some? then Ok(record) else Err(CannotCancel)
      ensures record == Do(old(record), Cancel(a))
    {
      if Final(record.status) { return Ok(record); }
      if record.status.AwaitingTransfer? || record.status.TransferReceived? {
        var cancelled := record.(status := Cancelled, abandonedFrom := Some(record.status));
        if record.status.AwaitingTransfer? && record.landing.Some? && record.landing.value.abortable {
          if a.submit.Ok? {
            cancelled := cancelled.(hashes := record.hashes.(abort := Some(Tx(a.submit.value))));
          } else {
            cancelled := cancelled.(hashes := record.hashes.(cleanupError := true));
          }
        }
        record := WithHistory(record, cancelled);
        return Ok(record);
      }
      if record.status.OnrampPending? {
        record := WithHistory(record, record.(status := Abandoned, abandonedFrom := Some(record.status)));
        return Ok(record);
      }
      r := Err(CannotCancel);
    }

    method ResumeDeposit() returns (r: Result<Record, Refusal>)
      modifies this
      ensures r == if ResumedOf(old(record)).Some? then Ok(record) else Err(CannotResume)
      ensures record == Do(old(record), Resume)
    {
      if record.status.Abandoned? && record.sep6.Some? && record.landing.Some? {
        var resumed := WithHistory(record, record.(status := OnrampPending, attempts := map[]));
        record := resumed.(abandonedFrom := None);
        return Ok(record);
      }
      if record.status.Failed? && record.error == Some(AmountMismatch) && record.landing.Some? {
        var resumed := WithHistory(record, record.(status := OnrampPaid, attempts := map[]));
        record := resumed.(error := None);
        return Ok(record);
      }
      r := Err(CannotResume);
    }

    method RecordVaultDeposit(hash: nat) returns (r: Result<Record, Refusal>)
      modifies this
      ensures r == if ReportedOf(old(record), hash).Some? then Ok(record) else Err(NotInWallet)
      ensures record == Do(old(record), Report(hash))
    {
      if record.status.InVault? { return Ok(record); }
      if !record.status.InWallet? { return Err(NotInWallet); }
      record := WithHistory(record, record.(hashes := record.hashes.(vault := Some(hash)), status := InVault));
      r := Ok(record);
    }

    method StampBankPlayed()
      modifies this
      ensures record == Do(old(record), Stamp)
    {
      if !record.bankPlayed {
        record := record.(bankPlayed := true);
      }
    }
  }
}
