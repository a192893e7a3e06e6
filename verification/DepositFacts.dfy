/** What every deposit record keeps, and how it agrees with the bridge on the ledger. */
module DepositFacts {
  import opened Prelude
  import opened Amounts
  import opened Deposit
  import Bridge

  // --- the record alone -------------------------------------------------------------------------

  /** Progress of the live statuses; the four exits have none. */
  function Rank(s: Status): int {
    match s
    case AwaitingTransfer => 0
    case TransferReceived => 1
    case OnrampPending => 2
    case OnrampPaid => 3
    case Forwarded => 4
    case InWallet => 5
    case InVault => 6
    case _ => -1
  }

  predicate Edge(s: Status, t: Status) {
    match s
    case AwaitingTransfer => t.TransferReceived? || t.OnrampPaid? || t.Failed? || t.Cancelled?
    case TransferReceived => t.OnrampPending? || t.OnrampPaid? || t.Failed? || t.Cancelled?
    case OnrampPending => t.OnrampPaid? || t.Failed? || t.Abandoned? || t.Cancelled?
    case OnrampPaid => t.Forwarded? || t.Failed?
    case Forwarded => t.InWallet?
    case InWallet => t.InVault?
    case Abandoned => t.OnrampPending?
    case Failed => t.OnrampPaid?
    case _ => false
  }

  /** The highest live status in the past of a record, by where it stands now. */
  function Ceiling(s: Status, error: Option<ErrorCode>): int {
    if Rank(s) >= 0 then Rank(s)
    else if s.Abandoned? || (s.Failed? && error == Some(AmountMismatch)) then Rank(OnrampPending)
    else Rank(InVault)
  }

  /** Starts at the beginning, ends at the current status, moves along edges, and never falls back. */
  ghost predicate HistoryOk(r: Record) {
    var h := r.history;
    && h != [] && h[0].AwaitingTransfer? && h[|h| - 1] == r.status
    && (forall i | 0 <= i < |h| - 1 :: Edge(h[i], h[i + 1]))
    && (forall i, j | 0 <= i <= j < |h| && Rank(h[j]) >= 0 :: Rank(h[i]) <= Rank(h[j]))
    && (forall i | 0 <= i < |h| :: Rank(h[i]) <= Ceiling(r.status, r.error))
  }

  ghost predicate AttemptsOk(r: Record) {
    !Final(r.status) ==> Bounded(r.attempts)
  }

  ghost predicate Bounded(attempts: map<Status, nat>) {
    forall s <- attempts :: attempts[s] < MAX_STEP_ATTEMPTS
  }

  predicate PastForward(s: Status) {
    s.Forwarded? || s.InWallet? || s.InVault?
  }

  ghost predicate RecordOk(r: Record) {
    && r.sep6.Some? && r.landing.Some? && r.anchor
    && HistoryOk(r) && AttemptsOk(r)
    && (r.hashes.forward.Some? <==> PastForward(r.status))
  }

  lemma OpenedOk(plan: Plan, amountTry: string, instructions: bool)
    ensures RecordOk(Opened(plan, amountTry, instructions))
  {
  }

  /** Appending one legal status keeps the whole history legal. */
  lemma HistoryStep(r: Record, n: Record)
    requires HistoryOk(r) && n.history == r.history + [n.status] && Edge(r.status, n.status)
    requires Ceiling(r.status, r.error) <= Ceiling(n.status, n.error)
    ensures HistoryOk(n)
  {
    var h := n.history;
    forall i | 0 <= i < |h| - 1 ensures Edge(h[i], h[i + 1]) {
      if i == |r.history| - 1 { assert h[i] == r.status && h[i + 1] == n.status; }
    }
  }

  /** What any section leaves alone. */
  ghost predicate Kept(r: Record, n: Record) {
    n.landing == r.landing && n.anchor == r.anchor && n.sep6.Some?
  }

  /**
   An edge of the graph as a section takes it: only a mismatch failure comes back, and only from waiting does it
   come.
   */
  predicate Climbs(s: Status, se: Option<ErrorCode>, t: Status, te: Option<ErrorCode>) {
    && Edge(s, t)
    && (t.Failed? && te == Some(AmountMismatch) ==> Rank(s) <= Rank(OnrampPending))
    && (s.Failed? ==> se == Some(AmountMismatch))
  }

  lemma ClimbsRaisesCeiling(s: Status, se: Option<ErrorCode>, t: Status, te: Option<ErrorCode>)
    requires Climbs(s, se, t, te)
    ensures Ceiling(s, se) <= Ceiling(t, te)
  {
  }

  /** One section seen from the history: nothing, or one edge with the status appended. */
  ghost predicate OneEdge(r: Record, n: Record) {
    if n.status == r.status then n.history == r.history && (r.status.Failed? ==> n.error == r.error)
    else n.history == r.history + [n.status] && Climbs(r.status, r.error, n.status, n.error)
  }

  ghost predicate SectionShape(r: Record, n: Record) {
    && Kept(r, n) && OneEdge(r, n) && AttemptsOk(n)
    && (n.hashes.forward.Some? <==> (n.status.Forwarded? && !r.status.Forwarded?) || r.hashes.forward.Some?)
  }

  lemma JudgedShape(r: Record, seen: Record, quoted: nat, paid: Option<nat>)
    requires Kept(r, seen) && seen.status == r.status && seen.history == r.history && seen.attempts == r.attempts
    requires seen.hashes == r.hashes && Rank(r.status) in {0, 1, 2} && AttemptsOk(r)
    requires Judged(seen, quoted, paid).Ok?
    ensures SectionShape(r, WithHistory(r, Judged(seen, quoted, paid).value))
  {
  }

  lemma WaitingShape(r: Record, a: Answer)
    requires r.sep6.Some? && Rank(r.status) in {0, 1, 2} && AttemptsOk(r)
    requires PollSep6(r, a).Ok? && BeforeTransfer(a.poll.value.status)
    ensures SectionShape(r, WithHistory(r, PollSep6(r, a).value))
  {
  }

  lemma WorkingShape(r: Record, a: Answer)
    requires r.sep6.Some? && Rank(r.status) in {0, 1, 2} && AttemptsOk(r)
    requires PollSep6(r, a).Ok? && !BeforeTransfer(a.poll.value.status) && !a.poll.value.status.Completed?
    ensures SectionShape(r, WithHistory(r, PollSep6(r, a).value))
  {
  }

  lemma PaidShape(r: Record, a: Answer)
    requires r.sep6.Some? && Rank(r.status) in {0, 1, 2} && AttemptsOk(r)
    requires PollSep6(r, a).Ok? && a.poll.value.status.Completed?
    ensures SectionShape(r, WithHistory(r, PollSep6(r, a).value))
  {
    var tx := a.poll.value;
    var paid := if tx.amountOut.Some? then tx.amountOut.value else "0";
    var seen := r.(sep6 := Some(tx.status), money := Settled(r.money, tx, paid));
    JudgedShape(r, seen, r.landing.value.amountStroops, ToStroops(paid));
  }

  lemma PolledShape(r: Record, a: Answer)
    requires r.sep6.Some? && Rank(r.status) in {0, 1, 2} && AttemptsOk(r)
    requires PollSep6(r, a).Ok?
    ensures SectionShape(r, WithHistory(r, PollSep6(r, a).value))
  {
    if BeforeTransfer(a.poll.value.status) { WaitingShape(r, a); }
    else if a.poll.value.status.Completed? { PaidShape(r, a); }
    else { WorkingShape(r, a); }
  }

  lemma FaultShape(r: Record, f: Fault, now: nat)
    requires r.sep6.Some? && Rank(r.status) in {0, 1, 2, 3} && AttemptsOk(r)
    ensures SectionShape(r, AfterFault(r, f, now))
  {
  }

  lemma SubmittedShape(r: Record, a: Answer)
    requires r.sep6.Some? && r.landing.Some? && (r.status.OnrampPaid? || r.status.Forwarded?) && AttemptsOk(r)
        && Step(r, a).Ok?
    ensures SectionShape(r, WithHistory(r, Step(r, a).value))
  {
  }

  lemma AdvanceShape(r: Record, a: Answer, now: nat)
    requires RecordOk(r)
    ensures SectionShape(r, Advanced(r, a, now))
  {
    if !Final(r.status) && !r.status.InWallet? {
      if Rank(r.status) in {0, 1, 2} {
        if PollSep6(r, a).Ok? { PolledShape(r, a); } else { FaultShape(r, PollSep6(r, a).error, now); }
      } else {
        if Step(r, a).Ok? { SubmittedShape(r, a); } else { FaultShape(r, Step(r, a).error, now); }
      }
    }
  }

  lemma CancelShape(r: Record, a: Answer)
    requires RecordOk(r)
    ensures SectionShape(r, Do(r, Cancel(a)))
  {
  }

  lemma ResumeShape(r: Record)
    requires RecordOk(r)
    ensures SectionShape(r, Do(r, Resume))
  {
  }

  lemma OtherShape(r: Record, s: Section)
    requires RecordOk(r) && !s.Advance?
    ensures SectionShape(r, Do(r, s))
  {
    if s.Cancel? { CancelShape(r, s.answer); } else if s.Resume? { ResumeShape(r); }
  }

  lemma ShapeKeepsRecord(r: Record, n: Record)
    requires RecordOk(r) && SectionShape(r, n)
    ensures RecordOk(n)
  {
    if n.status != r.status {
      ClimbsRaisesCeiling(r.status, r.error, n.status, n.error);
      HistoryStep(r, n);
    }
  }

  /** Every section of every writer keeps the record well-formed. */
  lemma DoKeepsRecord(r: Record, s: Section)
    requires RecordOk(r)
    ensures RecordOk(Do(r, s))
  {
    if s.Advance? { AdvanceShape(r, s.answer, s.now); } else { OtherShape(r, s); }
    ShapeKeepsRecord(r, Do(r, s));
  }

  /**
   onramp_paid is entered with the exact quoted amount, or by a presenter resuming an amount mismatch; never
   otherwise.
   */
  lemma HowOnrampPaidIsEntered(r: Record, s: Section)
    requires !r.status.OnrampPaid? && Do(r, s).status.OnrampPaid?
    ensures || (s.Advance? && r.landing.Some? && Do(r, s).money.paidUsdc.Some?
                && ToStroops(Do(r, s).money.paidUsdc.value) == Some(r.landing.value.amountStroops))
            || (s.Resume? && r.status.Failed? && r.error == Some(AmountMismatch))
  {
    if s.Advance? { PaidByPoll(r, s.answer, s.now); }
  }

  lemma PaidByPoll(r: Record, a: Answer, now: nat)
    requires !r.status.OnrampPaid? && Advanced(r, a, now).status.OnrampPaid?
    ensures var n := Advanced(r, a, now);
            r.landing.Some? && n.money.paidUsdc.Some? && ToStroops(n.money.paidUsdc.value) ==
                Some(r.landing.value.amountStroops)
  {
    assert PollSep6(r, a).Ok? && Advanced(r, a, now) == WithHistory(r, PollSep6(r, a).value);
  }

  // --- the record and the ledger ----------------------------------------------------------------

  /** Answers about submissions are truthful: a reported success is an envelope that went through. */
  ghost predicate Truthful(r: Record, s: Section, b: Bridge.Bridge) {
    match s
    case Advance(a, _) =>
      a.submit.Ok? ==>
          (r.status.OnrampPaid? ==> Bridge.Done(b, Bridge.Forward))
          && (r.status.Forwarded? ==> Bridge.Done(b, Bridge.Cleanup))
    case Cancel(a) => a.submit.Ok? && r.status.AwaitingTransfer? ==> Bridge.Done(b, Bridge.Abort)
    case _ => true
  }

  /** A recorded merge transaction went through. */
  ghost predicate MarkTrue(m: Option<Mark>, b: Bridge.Bridge, k: Bridge.Kind) {
    m.Some? && m.value.Tx? ==> Bridge.Done(b, k)
  }

  /** What the record claims happened on the ledger did. */
  ghost predicate Claims(r: Record, b: Bridge.Bridge) {
    && r.landing.Some? && b.amount == r.landing.value.amountStroops && b.abortable == r.landing.value.abortable
    && (r.hashes.forward.Some? ==> Bridge.Done(b, Bridge.Forward))
    && MarkTrue(r.hashes.abort, b, Bridge.Abort)
    && MarkTrue(r.hashes.cleanup, b, Bridge.Cleanup)
  }

  /** An out-of-band mark is on a bridge that is gone. Only sweeps write one; see Sweep.dfy. */
  ghost predicate MarksAreDue(r: Record, b: Bridge.Bridge) {
    r.hashes.abort == Some(OutOfBand) || r.hashes.cleanup == Some(OutOfBand) ==> !Bridge.Alive(b)
  }

  ghost predicate Agrees(r: Record, b: Bridge.Bridge) {
    Claims(r, b) && MarksAreDue(r, b)
  }

  /** Which section writes which hash, and only from a reported success. */
  ghost predicate HashesFrom(r: Record, s: Section, h: Hashes) {
    && (h.forward == r.hashes.forward || (s.Advance? && s.answer.submit.Ok? && r.status.OnrampPaid?))
    && (h.cleanup == r.hashes.cleanup
        || (s.Advance? && s.answer.submit.Ok? && r.status.Forwarded? && h.cleanup == Some(Tx(s.answer.submit.value))))
    && (h.abort == r.hashes.abort
        || (s.Cancel? && s.answer.submit.Ok? && r.status.AwaitingTransfer?
            && h.abort == Some(Tx(s.answer.submit.value))))
  }

  lemma PollKeepsHashes(r: Record, a: Answer)
    requires PollSep6(r, a).Ok?
    ensures PollSep6(r, a).value.hashes == r.hashes
  {
  }

  lemma HashesOfAdvance(r: Record, a: Answer, now: nat)
    ensures HashesFrom(r, Advance(a, now), Advanced(r, a, now).hashes)
  {
    if PollSep6(r, a).Ok? { PollKeepsHashes(r, a); }
  }

  lemma HashesOfSection(r: Record, s: Section)
    ensures HashesFrom(r, s, Do(r, s).hashes)
  {
    if s.Advance? { HashesOfAdvance(r, s.answer, s.now); } else { HashesOfOther(r, s); }
  }

  lemma HashesOfCancel(r: Record, a: Answer)
    ensures HashesFrom(r, Cancel(a), Do(r, Cancel(a)).hashes)
  {
  }

  lemma HashesOfOther(r: Record, s: Section)
    requires !s.Advance?
    ensures HashesFrom(r, s, Do(r, s).hashes)
  {
    if s.Cancel? { HashesOfCancel(r, s.answer); }
  }

  lemma SectionKeepsPlan(r: Record, s: Section)
    requires RecordOk(r)
    ensures Do(r, s).landing == r.landing
  {
    if s.Advance? { AdvanceShape(r, s.answer, s.now); } else { OtherShape(r, s); }
  }

  /** No section makes a false claim. */
  lemma DoKeepsAgreement(r: Record, s: Section, b: Bridge.Bridge)
    requires RecordOk(r) && Claims(r, b) && Truthful(r, s, b)
    ensures Claims(Do(r, s), b) && (MarksAreDue(r, b) ==> MarksAreDue(Do(r, s), b))
  {
    SectionKeepsPlan(r, s);
    HashesOfSection(r, s);
  }

  /** The ledger moving on never makes a record wrong. */
  lemma WorldKeepsAgreement(r: Record, b: Bridge.Bridge, m: Bridge.Move)
    requires Claims(r, b) && Bridge.Valid(b)
    ensures Claims(r, Bridge.Next(b, m)) && (MarksAreDue(r, b) ==> MarksAreDue(r, Bridge.Next(b, m)))
  {
    Bridge.RunIsMonotone(b, [m]);
    assert Bridge.Run(b, [m]) == Bridge.Next(b, m);
  }

  /**
   Forwarded, in the wallet or in the vault: the kumbara received exactly the quoted stroops, and no abort ever
   applied.
   */
  lemma ForwardedMeansExactlyPaid(r: Record, b: Bridge.Bridge)
    requires RecordOk(r) && Claims(r, b) && PastForward(r.status)
    ensures Bridge.Sent(b) == r.landing.value.amountStroops && !Bridge.Done(b, Bridge.Abort)
    ensures r.hashes.abort.Some? ==> r.hashes.abort.value.OutOfBand?
  {
  }

  /** A recorded abort transaction: the forward never applied and never will, and the bridge is merged. */
  lemma AbortedMeansNeverForwarded(r: Record, b: Bridge.Bridge, later: seq<Bridge.Move>)
    requires Claims(r, b) && Bridge.Valid(b) && r.hashes.abort.Some? && r.hashes.abort.value.Tx?
    ensures var b' := Bridge.Run(b, later);
        !Bridge.Done(b', Bridge.Forward) && Bridge.Sent(b') == 0
        && !Bridge.Alive(b')
  {
    Bridge.RunIsMonotone(b, later);
  }
}
