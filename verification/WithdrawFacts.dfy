/** What every withdrawal record keeps, that polling ends, and how it agrees with its bridge. */
module WithdrawFacts {
  import opened Prelude
  import opened Amounts
  import opened Withdraw
  import Deposit
  import Bridge

  predicate Edge(s: Status, t: Status) {
    match s
    case Created => t.AwaitingUsdc? || t.Failed?
    case AwaitingUsdc => t.UsdcSent?
    case UsdcSent => t.Paid? || t.Completed? || t.Failed?
    case Paid => t.Completed? || t.Failed?
    case _ => false
  }

  ghost predicate HistoryOk(r: Record) {
    var h := r.history;
    && h != [] && h[0].Created? && h[|h| - 1] == r.status
    && forall i | 0 <= i < |h| - 1 :: Edge(h[i], h[i + 1])
  }

  ghost predicate Bounded(attempts: map<Status, nat>) {
    forall s <- attempts :: attempts[s] < MAX_STEP_ATTEMPTS
  }

  /** The caps on waiting: sixty polls for the USDC, a hundred and twenty in all for the anchor. */
  predicate WaitsOk(r: Record) {
    && (r.status.Created? || r.status.AwaitingUsdc? ==> r.waitPolls == 0)
    && (r.status.UsdcSent? ==> r.waitPolls <= MAX_WAIT_POLLS)
    && (r.status.Paid? ==> r.waitPolls <= 2 * MAX_WAIT_POLLS)
  }

  /** The bridge, when there is one, is for the recorded amount; the payment hash comes with the payment. */
  ghost predicate PlanOk(r: Record) {
    && (r.stellar ==> r.landing.None? && r.hashes.payment.None?)
    && (!r.stellar && !r.status.Created? && !r.status.Failed? ==> r.landing.Some?)
    && (r.landing.Some? ==>
        ToStroops(r.amountUsdc) == Some(r.landing.value.amountStroops)
        && !r.landing.value.abortable)
    && (r.hashes.payment.Some? ==> r.status.Paid? || Final(r.status))
    && (r.status.Paid? || (r.status.Completed? && !r.stellar) ==> r.hashes.payment.Some?)
  }

  ghost predicate RecordOk(r: Record) {
    HistoryOk(r) && (!Final(r.status) ==> Bounded(r.attempts)) && WaitsOk(r) && PlanOk(r)
  }

  lemma OpenedOk(stroops: nat, stellar: bool)
    ensures RecordOk(Opened(stroops, stellar))
  {
  }

  lemma HistoryStep(r: Record, n: Record)
    requires HistoryOk(r) && n.history == r.history + [n.status] && Edge(r.status, n.status)
    ensures HistoryOk(n)
  {
    var h := n.history;
    forall i | 0 <= i < |h| - 1 ensures Edge(h[i], h[i + 1]) {
      if i == |r.history| - 1 { assert h[i] == r.status && h[i + 1] == n.status; }
    }
  }

  /** Everything but the history, which HistoryStep carries. */
  ghost predicate StepOk(r: Record, n: Record) {
    && (if n.status == r.status then n.history == r.history
        else n.history == r.history + [n.status] && Edge(r.status, n.status))
    && (!Final(n.status) ==> Bounded(n.attempts)) && WaitsOk(n) && PlanOk(n)
  }

  lemma BuiltOk(r: Record, a: Answer, now: nat)
    requires RecordOk(r) && r.status.Created? && Step(r, a, now).Ok?
    ensures StepOk(r, WithHistory(r, Step(r, a, now).value))
  {
  }

  /** The balance does not cover the amount yet. */
  predicate Short(r: Record, a: Answer) {
    a.balance.Ok? && ToStroops(r.amountUsdc).Some? && a.balance.value < ToStroops(r.amountUsdc).value
  }

  lemma WaitOk(r: Record, a: Answer, now: nat)
    requires RecordOk(r) && r.status.UsdcSent? && !r.stellar && Step(r, a, now).Ok? && Short(r, a)
    ensures StepOk(r, WithHistory(r, Step(r, a, now).value))
  {
  }

  lemma PaymentOk(r: Record, a: Answer, now: nat)
    requires RecordOk(r) && r.status.UsdcSent? && !r.stellar && Step(r, a, now).Ok? && !Short(r, a)
    ensures StepOk(r, WithHistory(r, Step(r, a, now).value))
  {
  }

  lemma PayOutOk(r: Record, a: Answer, now: nat)
    requires RecordOk(r) && r.status.UsdcSent? && Step(r, a, now).Ok?
    ensures StepOk(r, WithHistory(r, Step(r, a, now).value))
  {
    if !r.stellar {
      if Short(r, a) { WaitOk(r, a, now); } else { PaymentOk(r, a, now); }
    }
  }

  lemma PollOk(r: Record, a: Answer, now: nat)
    requires RecordOk(r) && r.status.Paid? && Step(r, a, now).Ok?
    ensures StepOk(r, WithHistory(r, Step(r, a, now).value))
  {
  }

  lemma FaultOk(r: Record, f: Fault, now: nat)
    requires RecordOk(r) && !Quiet(r.status)
    ensures StepOk(r, AfterFault(r, f, now))
  {
  }

  lemma AdvanceOk(r: Record, a: Answer, now: nat)
    requires RecordOk(r)
    ensures StepOk(r, Advanced(r, a, now))
  {
    if !Quiet(r.status) {
      var step := Step(r, a, now);
      if step.Err? { FaultOk(r, step.error, now); }
      else if r.status.Created? { BuiltOk(r, a, now); }
      else if r.status.UsdcSent? { PayOutOk(r, a, now); }
      else { PollOk(r, a, now); }
    }
  }

  lemma ReportOk(r: Record, s: Section)
    requires RecordOk(r) && !s.Advance?
    ensures StepOk(r, Do(r, s))
  {
  }

  /** History, attempts, waits and the plan's amount stay right through every section. */
  lemma DoKeepsRecord(r: Record, s: Section)
    requires RecordOk(r)
    ensures RecordOk(Do(r, s))
  {
    if s.Advance? { AdvanceOk(r, s.answer, s.now); } else { ReportOk(r, s); }
    var n := Do(r, s);
    if n.status != r.status { HistoryStep(r, n); }
  }

  // --- polling ends -----------------------------------------------------------------------------

  /** How many more polls the record can absorb before it is quiet: tries left here, tries and waits left ahead. */
  function Remaining(r: Record): int {
    match r.status
    case Created => MAX_STEP_ATTEMPTS - Tries(r, Created)
    case UsdcSent => (MAX_STEP_ATTEMPTS - Tries(r, UsdcSent)) + (MAX_STEP_ATTEMPTS - Tries(r,
        Paid)) + (2 * MAX_WAIT_POLLS + 1 - r.waitPolls)
    case Paid => (MAX_STEP_ATTEMPTS - Tries(r, Paid)) + (2 * MAX_WAIT_POLLS + 1 - r.waitPolls)
    case _ => 0
  }

  lemma RemainingBounds(r: Record)
    requires RecordOk(r)
    ensures 0 <= Remaining(r) <= 133
    ensures Remaining(r) == 0 <==> Quiet(r.status)
  {
  }

  /** One wait more, or on to the next status with the waits kept, or finished. */
  predicate UsesUp(r: Record, n: Record) {
    n.attempts == r.attempts
    && (Final(n.status) || (n.status.UsdcSent? && n.waitPolls == r.waitPolls + 1)
        || (n.status.Paid? && n.waitPolls == r.waitPolls))
  }

  lemma UsingUpDecreases(r: Record, n: Record)
    requires RecordOk(r) && r.status.UsdcSent? && UsesUp(r, n)
    ensures Remaining(WithHistory(r, n)) < Remaining(r)
  {
    RemainingBounds(r);
  }

  lemma PayOutDecreases(r: Record, a: Answer, now: nat)
    requires RecordOk(r) && r.status.UsdcSent? && Step(r, a, now).Ok?
    ensures Remaining(WithHistory(r, Step(r, a, now).value)) < Remaining(r)
  {
    assert UsesUp(r, Step(r, a, now).value);
    UsingUpDecreases(r, Step(r, a, now).value);
  }

  lemma PollDecreases(r: Record, a: Answer, now: nat)
    requires RecordOk(r) && r.status.Paid? && Step(r, a, now).Ok?
    ensures Remaining(WithHistory(r, Step(r, a, now).value)) < Remaining(r)
  {
  }

  lemma FaultDecreases(r: Record, f: Fault, now: nat)
    requires RecordOk(r) && !Quiet(r.status)
    ensures Remaining(AfterFault(r, f, now)) < Remaining(r)
  {
  }

  /** Every poll that does anything uses something up, whatever the outside answers. */
  lemma EveryPollDecreases(r: Record, a: Answer, now: nat)
    requires RecordOk(r) && !Quiet(r.status)
    ensures Remaining(Advanced(r, a, now)) < Remaining(r)
  {
    var step := Step(r, a, now);
    if step.Err? { FaultDecreases(r, step.error, now); }
    else if r.status.UsdcSent? { PayOutDecreases(r, a, now); }
    else if r.status.Paid? { PollDecreases(r, a, now); }
  }

  function Polls(r: Record, answers: seq<(Answer, nat)>): Record
    decreases |answers|
  {
    if answers == [] then r else Polls(Advanced(r, answers[0].0, answers[0].1), answers[1..])
  }

  /** So a hundred and thirty-three polls always reach awaiting_usdc or a final status. */
  lemma {:induction false} PollingEnds(r: Record, answers: seq<(Answer, nat)>)
    requires RecordOk(r) && |answers| >= Remaining(r)
    ensures RecordOk(Polls(r, answers)) && Quiet(Polls(r, answers).status)
    decreases |answers|
  {
    RemainingBounds(r);
    if answers != [] {
      var n := Advanced(r, answers[0].0, answers[0].1);
      DoKeepsRecord(r, Advance(answers[0].0, answers[0].1));
      if !Quiet(r.status) { EveryPollDecreases(r, answers[0].0, answers[0].1); }
      PollingEnds(n, answers[1..]);
    }
  }

  // --- the record and the ledger ----------------------------------------------------------------

  ghost predicate Truthful(r: Record, s: Section, b: Bridge.Bridge) {
    s.Advance? && s.answer.submit.Ok? ==>
      (r.status.UsdcSent? ==> Bridge.Done(b, Bridge.Forward)) && (r.status.Paid? ==> Bridge.Done(b, Bridge.Cleanup))
  }

  /** What the record claims happened on the ledger did: a recorded payment moved exactly the recorded amount. */
  ghost predicate Claims(r: Record, b: Bridge.Bridge) {
    && (r.landing.Some? ==> b.amount == r.landing.value.amountStroops)
    && (r.hashes.payment.Some? ==> Bridge.Done(b, Bridge.Forward))
    && (r.hashes.cleanup.Some? && r.hashes.cleanup.value.Tx? ==> Bridge.Done(b, Bridge.Cleanup))
  }

  lemma PollKeepsAgreement(r: Record, a: Answer, now: nat, b: Bridge.Bridge)
    requires RecordOk(r) && Claims(r, b) && Truthful(r, Advance(a, now), b) && !Quiet(r.status) && Step(r, a, now).Ok?
    requires r.landing.Some? || r.stellar
    ensures Claims(Step(r, a, now).value, b)
  {
  }

  /** From the moment the bridge exists, no section makes a false claim about it. */
  lemma DoKeepsAgreement(r: Record, s: Section, b: Bridge.Bridge)
    requires RecordOk(r) && Claims(r, b) && Truthful(r, s, b) && (r.landing.Some? || r.stellar)
    ensures Claims(Do(r, s), b)
  {
    if s.Advance? && !Quiet(r.status) && Step(r, s.answer, s.now).Ok? { PollKeepsAgreement(r, s.answer, s.now, b); }
  }

  /** The ledger moving on never makes a record wrong. */
  lemma WorldKeepsAgreement(r: Record, b: Bridge.Bridge, m: Bridge.Move)
    requires Claims(r, b) && Bridge.Valid(b)
    ensures Claims(r, Bridge.Next(b, m))
  {
    Bridge.RunIsMonotone(b, [m]);
    assert Bridge.Run(b, [m]) == Bridge.Next(b, m);
  }

  /** A completed anchor withdrawal: the treasury received exactly what the user typed. */
  lemma CompletedMeansPaid(r: Record, b: Bridge.Bridge)
    requires RecordOk(r) && Claims(r, b) && r.status.Completed? && !r.stellar
    ensures ToStroops(r.amountUsdc) == Some(Bridge.Sent(b))
  {
  }

  /** The payment is only submitted against a balance that covers it, so on a still ledger it goes through. */
  lemma PaymentIsCovered(r: Record, a: Answer, now: nat, b: Bridge.Bridge)
    requires RecordOk(r) && !r.stellar && r.status.UsdcSent? && Claims(r, b) && Bridge.Valid(b) && b.first.Open?
    requires a.balance == Ok(b.received)
    ensures Step(r, a, now).Ok? && Step(r, a, now).value.status.Paid? ==> Bridge.Succeeds(b, Bridge.Forward, false)
  {
  }

  // --- a lost reply -----------------------------------------------------------------------------

  /** The payment went through and the record never learned of it. */
  ghost predicate Unheard(r: Record, b: Bridge.Bridge) {
    && RecordOk(r) && Bridge.Valid(b) && Claims(r, b) && r.landing.Some?
    && Bridge.Done(b, Bridge.Forward) && r.hashes.payment.None? && (r.status.UsdcSent? || r.status.Failed?)
  }

  /**
   A balance read of a living bridge is truthful when it answers. Once the bridge is gone it may say anything:
   somebody may have created another account at the address.
   */
  ghost predicate TruthfulBalance(a: Answer, b: Bridge.Bridge) {
    Bridge.Alive(b) && a.balance.Ok? ==> a.balance.value == Bridge.Balance(b)
  }

  predicate PaysOut(a: Answer, amount: nat) {
    a.balance.Ok? && a.balance.value >= amount && a.submit.Ok?
  }

  /** The parts of a record that say what became of the payment. */
  ghost predicate Unpaid(r: Record, n: Record) {
    (n.status.UsdcSent? || n.status.Failed?) && n.hashes == r.hashes && n.landing == r.landing && n.stellar == r.stellar
  }

  lemma PayOutCases(r: Record, a: Answer, now: nat, amount: nat)
    requires r.status.UsdcSent? && r.landing.Some? && ToStroops(r.amountUsdc) == Some(amount)
    ensures PaysOut(a, amount) ==>
              PayOut(r, a, now) == Ok(r.(hashes := r.hashes.(payment := Some(a.submit.value)), status := Paid))
    ensures !PaysOut(a, amount) && PayOut(r, a, now).Ok? ==> Unpaid(r, PayOut(r, a, now).value)
  {
  }

  lemma PollCases(r: Record, a: Answer, now: nat, amount: nat)
    requires r.status.UsdcSent? && !r.stellar && r.landing.Some? && ToStroops(r.amountUsdc) == Some(amount)
    ensures PaysOut(a, amount) ==> Advanced(r, a, now).status.Paid? && Advanced(r, a, now).hashes.payment.Some?
    ensures !PaysOut(a, amount) ==> Unpaid(r, Advanced(r, a, now))
  {
    PayOutCases(r, a, now, amount);
    assert Step(r, a, now) == PayOut(r, a, now);
    if PayOut(r, a, now).Ok? {
      assert Advanced(r, a, now) == WithHistory(r, PayOut(r, a, now).value);
    } else {
      assert Unpaid(r, AfterFault(r, PayOut(r, a, now).error, now));
    }
  }

  /** What the read says covers the amount a second time. */
  predicate PaidAgain(r: Record, a: Answer) {
    r.landing.Some? && a.balance.Ok? && a.balance.value >= r.landing.value.amountStroops
  }

  /**
   Such a record learns of its payment exactly when the address holds the amount a second time and a resubmission
   is reported as a success. As long as the bridge lives, that is when it has been paid twice.
   */
  lemma WhenALostReplyIsMadeUpFor(r: Record, a: Answer, now: nat, b: Bridge.Bridge)
    requires Unheard(r, b) && r.status.UsdcSent? && TruthfulBalance(a, b)
    ensures Advanced(r, a, now).hashes.payment.Some? <==> PaidAgain(r, a) && a.submit.Ok?
    ensures Bridge.Alive(b) && a.balance.Ok? ==> (PaidAgain(r, a) <==> b.received >= 2 * b.amount)
  {
    PollCases(r, a, now, b.amount);
  }

  datatype Event = Within(section: Section) | Outside(move: Bridge.Move)

  /** No poll finds the amount at the address a second time; reads may fail. */
  ghost predicate Happens(r: Record, b: Bridge.Bridge, e: Event) {
    e.Within? && e.section.Advance? ==> !PaidAgain(r, e.section.answer)
  }

  function Sequel(r: Record, b: Bridge.Bridge, e: Event): (Record, Bridge.Bridge) {
    match e case Within(s) => (Do(r, s), b) case Outside(m) => (r, Bridge.Next(b, m))
  }

  ghost predicate LifeRuns(r: Record, b: Bridge.Bridge, events: seq<Event>)
    decreases |events|
  {
    events != [] ==> Happens(r, b, events[0]) && var n := Sequel(r, b, events[0]); LifeRuns(n.0, n.1, events[1..])
  }

  function LifeEnd(r: Record, b: Bridge.Bridge, events: seq<Event>): (Record, Bridge.Bridge)
    decreases |events|
  {
    if events == [] then (r, b) else var n := Sequel(r, b, events[0]); LifeEnd(n.0, n.1, events[1..])
  }

  function PollsIn(events: seq<Event>): nat
    decreases |events|
  {
    if events == [] then 0
    else PollsIn(events[1..]) + (if events[0].Within? && events[0].section.Advance? then 1 else 0)
  }

  lemma PollStaysUnheard(r: Record, a: Answer, now: nat, b: Bridge.Bridge)
    requires Unheard(r, b) && !PaidAgain(r, a)
    ensures Unheard(Advanced(r, a, now), b)
    ensures Remaining(Advanced(r, a, now)) <= if Quiet(r.status) then 0 else Remaining(r) - 1
  {
    DoKeepsRecord(r, Advance(a, now));
    if r.status.UsdcSent? {
      PollCases(r, a, now, b.amount);
      EveryPollDecreases(r, a, now);
    }
  }

  lemma StaysUnheard(r: Record, b: Bridge.Bridge, e: Event)
    requires Unheard(r, b) && Happens(r, b, e)
    ensures var n := Sequel(r, b, e);
            && Unheard(n.0, n.1)
            && Remaining(n.0) <= Remaining(r)
            && (e.Within? && e.section.Advance? && !Quiet(r.status) ==> Remaining(n.0) < Remaining(r))
  {
    match e
    case Within(s) =>
      if s.Advance? { PollStaysUnheard(r, s.answer, s.now, b); } else { ReportStaysUnheard(r, s, b); }
    case Outside(m) =>
      Bridge.NextKeepsValid(b, m);
      WorldKeepsAgreement(r, b, m);
  }

  lemma ReportStaysUnheard(r: Record, s: Section, b: Bridge.Bridge)
    requires Unheard(r, b) && !s.Advance?
    ensures Do(r, s) == r
  {
  }

  /**
   When the reply to the payment is lost, the record only waits and gives up, whatever is reported, submitted
   or paid in, as long as no poll finds the whole amount there again: after at most its remaining polls it has
   failed, although the USDC was paid.
   */
  lemma {:induction false} LostReplyNeverRecovers(r: Record, b: Bridge.Bridge, events: seq<Event>)
    requires Unheard(r, b) && LifeRuns(r, b, events)
    ensures var n := LifeEnd(r, b, events);
            && Unheard(n.0, n.1)
            && (PollsIn(events) >= Remaining(r) ==> n.0.status.Failed?)
    decreases |events|
  {
    RemainingBounds(r);
    if events != [] {
      var n := Sequel(r, b, events[0]);
      StaysUnheard(r, b, events[0]);
      RemainingBounds(n.0);
      LostReplyNeverRecovers(n.0, n.1, events[1..]);
    }
  }

  /** How it comes about: five stroops arrive, the payment applies, and its reply is a timeout. */
  lemma ALostReply() returns (a: Answer, b: Bridge.Bridge)
    ensures var bridged := Do(Opened(5, false), Advance(a, 0));
            var reported := Do(bridged, UsdcReport(1, 2));
            var waiting := Do(reported, Advance(a, 1));
            Unheard(waiting, b) && waiting.status.UsdcSent? && b.received == b.amount
  {
    a := Answer(Ok(()), Ok(5), Err(TIMEOUT), false, Err(STEP_FAILED));
    b := FORWARDED;
    OpenedOk(5, false);
    StroopsRoundTrip(5);
    var r1 := GetsItsBridge(Opened(5, false), a, 0);
    var r2 := GetsItsReport(r1, 1, 2);
    WaitsForItsPayment(r2, a, 1);
  }

  const FORWARDED: Bridge.Bridge := Bridge.Bridge(5, false, 5, Bridge.Forwarded, Bridge.Pending)

  const TIMEOUT: Fault := Deposit.Fault(true, 3)

  /** A new withdrawal of five stroops, as far as the lost reply needs to know it. */
  ghost predicate OfFive(r: Record) {
    RecordOk(r) && !r.stellar && ToStroops(r.amountUsdc) == Some(5) && r.attempts == map[] && r.hashes.payment.None?
        && r.hashes.cleanup.None?
  }

  lemma GetsItsBridge(r: Record, a: Answer, now: nat) returns (n: Record)
    requires OfFive(r) && r.status.Created? && r.anchor && a.build.Ok?
    ensures n == Do(r, Advance(a, now)) && OfFive(n) && n.status.AwaitingUsdc?
        && n.landing == Some(Deposit.Plan(5, false))
  {
    n := Do(r, Advance(a, now));
    DoKeepsRecord(r, Advance(a, now));
    assert n == WithHistory(r, Built(r, a).value);
  }

  lemma GetsItsReport(r: Record, v: nat, t: nat) returns (n: Record)
    requires OfFive(r) && r.status.AwaitingUsdc?
    ensures n == Do(r, UsdcReport(v, t)) && OfFive(n) && n.status.UsdcSent? && n.landing == r.landing
  {
    n := Do(r, UsdcReport(v, t));
    DoKeepsRecord(r, UsdcReport(v, t));
  }

  lemma WaitsForItsPayment(r: Record, a: Answer, now: nat)
    requires OfFive(r) && r.status.UsdcSent? && r.landing == Some(Deposit.Plan(5, false))
    requires a.balance == Ok(5) && a.submit == Err(TIMEOUT)
    ensures Unheard(Do(r, Advance(a, now)), FORWARDED) && Do(r, Advance(a, now)).status.UsdcSent?
  {
    var n := Do(r, Advance(a, now));
    DoKeepsRecord(r, Advance(a, now));
    assert Step(r, a, now) == PayOut(r, a, now) == Err(TIMEOUT);
    assert n.hashes == r.hashes && n.landing == r.landing && n.status.UsdcSent?;
  }
}
