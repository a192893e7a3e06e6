/**
 The withdrawal pipeline (lib/withdraw.server.ts): a reverse bridge is built, the browser pays it, the
 pre-authorized payment goes to the anchor with its memo, the anchor pays lira out. A withdrawal to a
 Stellar address skips the bridge and the anchor.
 */
module Withdraw {
  import opened Prelude
  import opened Amounts
  import Deposit

  type Fault = Deposit.Fault
  type AnchorTx = Deposit.AnchorTx
  type Mark = Deposit.Mark

  datatype Status = Created | AwaitingUsdc | UsdcSent | Paid | Completed | Failed

  predicate Final(s: Status) {
    s.Completed? || s.Failed?
  }

  /** Waiting for the browser, or finished: nothing for a poll to do. */
  predicate Quiet(s: Status) {
    Final(s) || s.AwaitingUsdc?
  }

  datatype ErrorCode =
    | UsdcNotReceived | AuthExpired | NotMatched | AnchorReported(status: Deposit.AnchorStatus) | StepError(code: nat)

  datatype Hashes = Hashes(vault: Option<nat>, transfer: Option<nat>, payment: Option<nat>, cleanup: Option<Mark>,
      cleanupError: bool)

  datatype Record = Record(
    status: Status, history: seq<Status>,
    attempts: map<Status, nat>, waitPolls: nat, lastErrorAt: Option<nat>, error: Option<ErrorCode>,
    stellar: bool, anchor: bool, sep6: bool, landing: Option<Deposit.Plan>,
    amountUsdc: string, receivedUsdc: Option<string>, amountTry: Option<string>,
    hashes: Hashes)

  /** What createWithdrawal stores for an amount it has parsed. */
  function Opened(stroops: nat, stellar: bool): Record {
    Record(Created, [Created], map[], 0, None, None, stellar, true, false, None, FromStroops(stroops), None, None,
           Hashes(None, None, None, None, false))
  }

  const MAX_STEP_ATTEMPTS := 6
  const MAX_WAIT_POLLS := 60
  /** SepError with status 0 counts as transient. */
  const ANCHOR_PATH_GONE: Fault := Deposit.Fault(true, 1)
  const STEP_FAILED: Fault := Deposit.Fault(false, 0)

  /** Everything the outside says during one poll. */
  datatype Answer = Answer(
    build: Result<(), Fault>, balance: Result<nat, Fault>, submit: Result<nat, Fault>,
    tokenExpired: bool, poll: Result<AnchorTx, Fault>)

  function Tries(r: Record, s: Status): nat {
    if s in r.attempts then r.attempts[s] else 0
  }

  function WithHistory(previous: Record, next: Record): Record {
    if next.status == previous.status then next else next.(history := previous.history + [next.status])
  }

  /** The reverse bridge is built for the record's own amount and is not abortable. */
  function Built(r: Record, a: Answer): Result<Record, Fault> {
    if !r.anchor then Err(ANCHOR_PATH_GONE)
    else if a.build.Err? then Err(a.build.error)
    else if ToStroops(r.amountUsdc).None? then Err(STEP_FAILED)
    else Ok(r.(sep6 := true, landing := Some(Deposit.Plan(ToStroops(r.amountUsdc).value, false)),
        status := AwaitingUsdc))
  }

  /** Nothing is submitted before the bridge holds the amount. */
  function PayOut(r: Record, a: Answer, now: nat): Result<Record, Fault> {
    if r.landing.None? then Err(STEP_FAILED)
    else if a.balance.Err? then Err(a.balance.error)
    else if ToStroops(r.amountUsdc).None? then Err(STEP_FAILED)
    else if a.balance.value < ToStroops(r.amountUsdc).value then
      var waited := r.waitPolls + 1;
      if waited > MAX_WAIT_POLLS then Ok(r.(waitPolls := waited, status := Failed, error := Some(UsdcNotReceived)))
      else Ok(r.(waitPolls := waited, lastErrorAt := Some(now)))
    else if a.submit.Err? then Err(a.submit.error)
    else Ok(r.(hashes := r.hashes.(payment := Some(a.submit.value)), status := Paid))
  }

  function PollSep6(r: Record, a: Answer): Result<Record, Fault> {
    if !r.sep6 || !r.anchor then Err(STEP_FAILED)
    else if a.tokenExpired then Ok(r.(status := Failed, error := Some(AuthExpired)))
    else if a.poll.Err? then Err(a.poll.error)
    else
      var tx := a.poll.value;
      if Deposit.FinalFailure(tx.status) then Ok(r.(status := Failed, error := Some(AnchorReported(tx.status))))
      else if !tx.status.Completed? then
        var waited := r.waitPolls + 1;
        if waited > 2 * MAX_WAIT_POLLS then Ok(r.(waitPolls := waited, status := Failed, error := Some(NotMatched)))
        else Ok(r.(waitPolls := waited))
      else
        var cleaned :=
          if r.landing.None? then r.hashes
          else if a.submit.Ok? then r.hashes.(cleanup := Some(Deposit.Tx(a.submit.value)))
          else r.hashes.(cleanupError := true);
        Ok(r.(status := Completed, hashes := cleaned,
                 receivedUsdc := if tx.amountIn.Some? then tx.amountIn else r.receivedUsdc,
                 amountTry := if tx.amountOut.Some? then tx.amountOut else r.amountTry))
  }

  function Step(r: Record, a: Answer, now: nat): Result<Record, Fault> {
    match r.status
    case Created => if r.stellar then Ok(r.(status := AwaitingUsdc)) else Built(r, a)
    case UsdcSent => if r.stellar then Ok(r.(status := Completed)) else PayOut(r, a, now)
    case Paid => PollSep6(r, a)
    case _ => Ok(r)
  }

  function AfterFault(r: Record, f: Fault, now: nat): Record {
    var tries := Tries(r, r.status) + 1;
    var failed := r.(attempts := r.attempts[r.status := tries], lastErrorAt := Some(now));
    if !f.transient || tries >= MAX_STEP_ATTEMPTS
    then WithHistory(r, failed.(status := Failed, error := Some(StepError(f.code))))
    else failed
  }

  function Advanced(r: Record, a: Answer, now: nat): Record {
    if Quiet(r.status) then r
    else match Step(r, a, now)
      case Ok(next) => WithHistory(r, next)
      case Err(f) => AfterFault(r, f, now)
  }

  function UsdcReported(r: Record, vaultTx: nat, transferTx: nat): Record {
    if !r.status.AwaitingUsdc? then r
    else WithHistory(r, r.(hashes := r.hashes.(vault := Some(vaultTx), transfer := Some(transferTx)),
        status := UsdcSent))
  }

  /** None where the code throws not_awaiting_usdc. */
  function VaultReported(r: Record, vaultTx: nat): Option<Record> {
    if r.hashes.vault.Some? then Some(r)
    else if !r.status.Created? && !r.status.AwaitingUsdc? then None
    else Some(r.(hashes := r.hashes.(vault := Some(vaultTx))))
  }

  datatype Section = Advance(answer: Answer, now: nat) | UsdcReport(vaultTx: nat,
      transferTx: nat) | VaultReport(vaultTx: nat)

  function Do(r: Record, s: Section): Record {
    match s
    case Advance(a, now) => Advanced(r, a, now)
    case UsdcReport(v, t) => UsdcReported(r, v, t)
    case VaultReport(v) => var n := VaultReported(r, v); if n.Some? then n.value else r
  }

  /** The stored row of one withdrawal. */
  class WithdrawalRow {
    var record: Record

    constructor (stroops: nat, stellar: bool)
      ensures record == Opened(stroops, stellar)
    {
      record := Opened(stroops, stellar);
    }

    method AdvanceWithdrawal(a: Answer, now: nat) returns (current: Record)
      modifies this
      ensures current == record == Advanced(old(record), a, now)
    {
      if Quiet(record.status) { return record; }
      var stepped := Step(record, a, now);
      if stepped.Ok? {
        record := WithHistory(record, stepped.value);
      } else {
        var tries := Tries(record, record.status) + 1;
        var failed := record.(attempts := record.attempts[record.status := tries], lastErrorAt := Some(now));
        if !stepped.error.transient || tries >= MAX_STEP_ATTEMPTS {
          failed := WithHistory(record, failed.(status := Failed, error := Some(StepError(stepped.error.code))));
        }
        record := failed;
      }
      current := record;
    }

    method RecordUsdcSent(vaultTx: nat, transferTx: nat) returns (current: Record)
      modifies this
      ensures current == record == Do(old(record), UsdcReport(vaultTx, transferTx))
    {
      if record.status.AwaitingUsdc? {
        record := WithHistory(record, record.(hashes := record.hashes.(vault := Some(vaultTx),
            transfer := Some(transferTx)), status := UsdcSent));
      }
      current := record;
    }

    method RecordVaultTx(vaultTx: nat) returns (ok: bool)
      modifies this
      ensures ok == VaultReported(old(record), vaultTx).Some?
      ensures record == Do(old(record), VaultReport(vaultTx))
    {
      if record.hashes.vault.Some? { return true; }
      if !record.status.Created? && !record.status.AwaitingUsdc? { return false; }
      record := record.(hashes := record.hashes.(vault := Some(vaultTx)));
      ok := true;
    }
  }
}
