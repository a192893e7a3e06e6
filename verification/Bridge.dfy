/**
 A locked landing account ("bridge") reduced to what can still happen to it: money comes in, the
 forward or the abort takes the slot at seq+1, the cleanup takes the slot at seq+2. Authority.dfy
 proves that the ledger allows nothing else.
 */
module Bridge {

  datatype First = Open | Forwarded | ForwardFailed | Aborted | AbortFailed

  datatype Second = Pending | Merged | MergeFailed

  datatype Bridge = Bridge(amount: nat, abortable: bool, received: nat, first: First, second: Second)

  datatype Kind = Forward | Abort | Cleanup

  /** `fault` stands for operation failures that have nothing to do with the bridge's own state. */
  datatype Move = PayIn(amount: nat) | Submit(kind: Kind, fault: bool)

  predicate Alive(b: Bridge) {
    !b.first.Aborted? && !b.second.Merged?
  }

  function Sent(b: Bridge): nat {
    if b.first.Forwarded? then b.amount else 0
  }

  ghost predicate Valid(b: Bridge) {
    && Sent(b) <= b.received
    && (b.first.Aborted? || b.first.AbortFailed? ==> b.abortable)
    && (b.first.Aborted? ==> b.received == 0)
    && (b.first.Open? || b.first.Aborted? ==> b.second.Pending?)
    && (b.second.Merged? ==> b.received == Sent(b))
  }

  function Balance(b: Bridge): int {
    b.received - Sent(b)
  }

  /** How far past the sequence read before the lock an envelope's sequence number is. */
  function SlotOf(k: Kind): nat {
    if k.Cleanup? then 2 else 1
  }

  /** How many of the two slots are spent, as the account's sequence number shows it. */
  function Spent(b: Bridge): nat {
    if b.first.Open? then 0 else if b.second.Pending? then 1 else 2
  }

  /** Whether the envelope's slot is the next one and its signer is still there. */
  predicate Applies(b: Bridge, k: Kind) {
    match k
    case Forward => b.first.Open?
    case Abort => b.first.Open? && b.abortable
    case Cleanup => !b.first.Open? && !b.first.Aborted? && b.second.Pending?
  }

  /** Whether the envelope's operations go through, given that it applies. */
  predicate Succeeds(b: Bridge, k: Kind, fault: bool) {
    && !fault
    && match k
       case Forward => b.received >= b.amount
       case Abort => b.received == 0
       case Cleanup => Balance(b) == 0
  }

  /** The effect a successful inclusion of the envelope leaves behind for good. */
  predicate Done(b: Bridge, k: Kind) {
    match k case Forward => b.first.Forwarded? case Abort => b.first.Aborted? case Cleanup => b.second.Merged?
  }

  function Submitted(b: Bridge, k: Kind, fault: bool): Bridge {
    if !Applies(b, k) then b
    else
      var ok := Succeeds(b, k, fault);
      match k
      case Forward => b.(first := if ok then Forwarded else ForwardFailed)
      case Abort => b.(first := if ok then Aborted else AbortFailed)
      case Cleanup => b.(second := if ok then Merged else MergeFailed)
  }

  function Next(b: Bridge, m: Move): Bridge {
    match m
    case PayIn(x) => if Alive(b) then b.(received := b.received + x) else b
    case Submit(k, fault) => Submitted(b, k, fault)
  }

  function Run(b: Bridge, moves: seq<Move>): Bridge
    decreases |moves|
  {
    if moves == [] then b else Run(Next(b, moves[0]), moves[1..])
  }

  lemma NextKeepsValid(b: Bridge, m: Move)
    requires Valid(b)
    ensures Valid(Next(b, m))
  {
  }

  lemma DoneAfter(b: Bridge, k: Kind, went: bool, j: Kind)
    requires Valid(b) && Alive(b) && Applies(b, k)
    requires went ==> Succeeds(b, k, false)
    ensures Done(Submitted(b, k, !went), j) <==> Done(b, j) || (j == k && went)
  {
  }

  /** Facts that can be learned about a bridge and never become false again. */
  ghost predicate Before(b: Bridge, b': Bridge) {
    && b'.amount == b.amount && b'.abortable == b.abortable
    && b'.received >= b.received
    && (!b.first.Open? ==> b'.first == b.first)
    && (!b.second.Pending? ==> b'.second == b.second)
    && (!Alive(b) ==> b' == b)
  }

  lemma {:induction false} RunIsMonotone(b: Bridge, moves: seq<Move>)
    requires Valid(b)
    ensures Valid(Run(b, moves)) && Before(b, Run(b, moves))
    decreases |moves|
  {
    if moves != [] {
      NextKeepsValid(b, moves[0]);
      RunIsMonotone(Next(b, moves[0]), moves[1..]);
    }
  }

  /** What left is nothing or the exact amount; a merged bridge was empty; a spent slot never pays again. */
  lemma Conservation(b: Bridge, moves: seq<Move>)
    requires Valid(b)
    ensures var b' := Run(b, moves);
            && b'.received == Balance(b') + Sent(b')
            && (Sent(b') == 0 || Sent(b') == b.amount)
            && (!Alive(b') ==> Balance(b') == 0)
            && (!b.first.Open? ==> Sent(b') == Sent(b) && Balance(b') >= Balance(b))
  {
    RunIsMonotone(b, moves);
  }

  /** A bridge that is gone was aborted exactly when its cleanup transaction did not go through. */
  lemma HowItEnded(b: Bridge)
    requires Valid(b) && !Alive(b)
    ensures Done(b, Abort) <==> !Done(b, Cleanup)
    ensures Done(b, Abort) ==> !Done(b, Forward)
    ensures Spent(b) == if Done(b, Abort) then 1 else 2
  {
  }

  /** Money nothing can move any more: the forward's slot is gone while the account holds USDC. */
  predicate Stranded(b: Bridge) {
    Alive(b) && !b.first.Open? && Balance(b) > 0
  }

  lemma StrandedForever(b: Bridge, moves: seq<Move>)
    requires Valid(b) && Stranded(b)
    ensures Stranded(Run(b, moves)) && Balance(Run(b, moves)) >= Balance(b)
  {
    RunIsMonotone(b, moves);
  }

  /**
   Aborting blind strands money exactly when there is some, and gives the reserves back exactly when there is
   none.
   */
  lemma AbortOutcome(b: Bridge)
    requires Valid(b) && b.first.Open? && b.abortable
    ensures Stranded(Next(b, Submit(Abort, false))) <==> b.received > 0
    ensures !Alive(Next(b, Submit(Abort, false))) <==> b.received == 0
  {
  }

  /** A forward sent against a short balance spends the only slot it has: no later top-up revives it. */
  lemma ForwardOutcome(b: Bridge, later: seq<Move>)
    requires Valid(b) && b.first.Open?
    ensures var b' := Run(Next(b, Submit(Forward, false)), later);
            Sent(b') == (if b.received >= b.amount then b.amount else 0)
                && b'.first.Forwarded? == (b.received >= b.amount)
  {
    NextKeepsValid(b, Submit(Forward, false));
    RunIsMonotone(Next(b, Submit(Forward, false)), later);
  }
}
