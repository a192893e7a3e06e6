/**
 The part of the Stellar ledger a landing account lives on: accounts with a sequence number, a
 master weight, three thresholds and pre-authorized signers; one USDC trustline each; the reserves
 one sponsor carries for them (CAP-0033); and the rule that an applied transaction spends its
 sequence number and its one-time signers even when its operations fail.

 A transaction's hash is the transaction itself, which makes hashing injective by construction.
 */
module Ledger {
  import opened Prelude

  type Id = nat

  /** The account that pays the setup transactions and carries the reserves. */
  const SPONSOR: Id := 0

  /** Classic accounts hold USDC through a trustline, contracts hold it directly. */
  datatype Party = Acct(id: Id) | Contract(cid: nat)

  datatype Body =
    | Create(dest: Id)
    | TrustAdd
    | TrustDrop
    | Pay(to: Party, amount: nat)
    | Merge(into: Id)
    | SetSigner(hash: Tx, weight: nat)
    | SetWeights(master: nat, low: nat, med: nat, high: nat)
    | BumpTo(target: nat)
    | BeginSponsor(sponsored: Id)
    | EndSponsor

  datatype Op = Op(src: Id, body: Body)

  datatype Tx = Tx(source: Id, seqNo: nat, ops: seq<Op>, memo: nat)

  /** A transaction with the master signatures attached to it. */
  datatype Envelope = Envelope(tx: Tx, signedBy: set<Id>)

  datatype Account = Account(
    seqNo: nat,
    master: nat, low: nat, med: nat, high: nat,
    signers: map<Tx, nat>,
    trust: bool, usdc: nat,
    baseSponsored: bool, trustSponsored: bool, sponsoredSigners: set<Tx>)

  datatype Event =
    | Applied(tx: Tx, ok: bool)
    | Paid(from: Party, to: Party, amount: nat)

  /** `num` is the ledger number, `sponsoring` the sponsor's own count of the entries it pays for. */
  datatype State = State(num: nat, accts: seq<Option<Account>>, sponsoring: int, log: seq<Event>)

  /** What the world can do next: submit anything, pay an account from a contract, close the ledger. */
  datatype Step =
    | Submit(envelope: Envelope, fault: bool)
    | PayFrom(cid: nat, to: Id, amount: nat)
    | Close

  // --- accounts ---------------------------------------------------------------------------------

  predicate Exists(l: State, i: Id) {
    i < |l.accts| && l.accts[i].Some?
  }

  /** New accounts start at the ledger number shifted into the upper half of the sequence. */
  function StartSeq(num: nat): nat {
    num * 0x1_0000_0000
  }

  function Fresh(seq0: nat, sponsored: bool): Account {
    Account(seq0, 1, 0, 0, 0, map[], false, 0, sponsored, false, {})
  }

  function Put(l: State, i: Id, a: Option<Account>, delta: int): State
    requires i < |l.accts|
  {
    l.(accts := l.accts[i := a], sponsoring := l.sponsoring + delta)
  }

  // --- authorization ----------------------------------------------------------------------------

  datatype Level = Low | Med | High

  function LevelOf(b: Body): Level {
    match b
    case BumpTo(_) => Low
    case Merge(_) => High
    case SetSigner(_, _) => High
    case SetWeights(_, _, _, _) => High
    case _ => Med
  }

  function Threshold(a: Account, v: Level): nat {
    match v case Low => a.low case Med => a.med case High => a.high
  }

  /** A threshold of zero still asks for one signer. */
  function Needed(a: Account, v: Level): nat {
    if Threshold(a, v) == 0 then 1 else Threshold(a, v)
  }

  function PreWeight(a: Account, tx: Tx): nat {
    if tx in a.signers then a.signers[tx] else 0
  }

  /** An account that does not exist yet answers to its master key alone. */
  function View(l: State, i: Id): Account {
    if Exists(l, i) then l.accts[i].value else Fresh(0, false)
  }

  predicate Authorizes(a: Account, tx: Tx, signed: bool, v: Level) {
    PreWeight(a, tx) + (if signed then a.master else 0) >= Needed(a, v)
  }

  predicate Authorized(l: State, e: Envelope) {
    && Authorizes(View(l, e.tx.source), e.tx, e.tx.source in e.signedBy, Low)
    && forall op <- e.tx.ops :: Authorizes(View(l, op.src), e.tx, op.src in e.signedBy, LevelOf(op.body))
  }

  /** Signatures the checks did not need make the whole envelope invalid. */
  predicate NoExtraSignature(l: State, e: Envelope) {
    forall k <- e.signedBy ::
      || (k == e.tx.source && PreWeight(View(l, k), e.tx) < Needed(View(l, k), Low))
      || exists op <- e.tx.ops :: op.src == k && PreWeight(View(l, k), e.tx) < Needed(View(l, k), LevelOf(op.body))
  }

  predicate SeqOk(l: State, tx: Tx) {
    Exists(l, tx.source) && tx.seqNo == l.accts[tx.source].value.seqNo + 1
  }

  predicate Valid(l: State, e: Envelope) {
    && SeqOk(l, e.tx)
    && e.tx.ops != []
    && (forall op <- e.tx.ops :: op.src < |l.accts|)
    && Authorized(l, e)
    && NoExtraSignature(l, e)
  }

  /** The accounts a transaction acts for. */
  predicate PartyTo(tx: Tx, i: Id) {
    tx.source == i || exists op <- tx.ops :: op.src == i
  }

  // --- operations -------------------------------------------------------------------------------

  /** Open sponsorship sandwiches: sponsored account to sponsor. */
  type Sandwich = map<Id, Id>

  predicate Covered(s: Sandwich, i: Id) {
    i in s && s[i] == SPONSOR
  }

  function Unit(b: bool): nat {
    if b then 1 else 0
  }

  datatype Outcome = Outcome(l: State, open: Sandwich)

  /** Credit `to`, or refuse when it is an account without a trustline. */
  function Credit(l: State, from: Party, to: Party, amount: nat): Option<State> {
    match to
    case Contract(_) => Some(l.(log := l.log + [Paid(from, to, amount)]))
    case Acct(i) =>
      if Exists(l, i) && l.accts[i].value.trust then
        var a := l.accts[i].value;
        Some(Put(l, i, Some(a.(usdc := a.usdc + amount)), 0).(log := l.log + [Paid(from, to, amount)]))
      else None
  }

  function SignerSet(l: State, i: Id, a: Account, hash: Tx, weight: nat, covered: bool): State
    requires i < |l.accts|
  {
    if weight == 0 then DropSigner(l, i, a, hash)
    else if hash in a.signers then Put(l, i, Some(a.(signers := a.signers[hash := weight])), 0)
    else
      Put(l, i, Some(a.(signers := a.signers[hash := weight],
                        sponsoredSigners := if covered then a.sponsoredSigners + {hash} else a.sponsoredSigners)),
          Unit(covered))
  }

  function DropSigner(l: State, i: Id, a: Account, hash: Tx): State
    requires i < |l.accts|
  {
    if hash !in a.signers then l
    else
      Put(l, i, Some(a.(signers := a.signers - {hash}, sponsoredSigners := a.sponsoredSigners - {hash})),
          -(Unit(hash in a.sponsoredSigners) as int))
  }

  /** Reserves the sponsor gets back when the account is merged away (its trustline is gone by then). */
  function MergeRelease(a: Account): nat {
    2 * Unit(a.baseSponsored) + |a.sponsoredSigners|
  }

  function Exec(l: State, op: Op, open: Sandwich): Option<Outcome>
  {
    if !Exists(l, op.src) then None else
    var i := op.src;
    var a := l.accts[i].value;
    match op.body
    case Create(d) =>
      if d < |l.accts| && l.accts[d].None? then
        Some(Outcome(Put(l, d, Some(Fresh(StartSeq(l.num), Covered(open, d))), 2 * Unit(Covered(open, d))), open))
      else None
    case TrustAdd =>
      if a.trust then Some(Outcome(l, open))
      else Some(Outcome(Put(l, i, Some(a.(trust := true, trustSponsored := Covered(open, i))),
          Unit(Covered(open, i))), open))
    case TrustDrop =>
      if a.trust && a.usdc == 0 then
        Some(Outcome(Put(l, i, Some(a.(trust := false, trustSponsored := false)),
            -(Unit(a.trustSponsored) as int)), open))
      else None
    case Pay(to, amount) =>
      if a.trust && a.usdc >= amount then
        var paid := Credit(Put(l, i, Some(a.(usdc := a.usdc - amount)), 0), Acct(i), to, amount);
        if paid.Some? then Some(Outcome(paid.value, open)) else None
      else None
    case Merge(into) =>
      if into != i && Exists(l, into) && !a.trust && a.seqNo < StartSeq(l.num)
          && (i == SPONSOR ==> l.sponsoring == 0) then
        Some(Outcome(Put(l, i, None, -(MergeRelease(a) as int)), open))
      else None
    case SetSigner(hash, weight) =>
      Some(Outcome(SignerSet(l, i, a, hash, weight, Covered(open, i)), open))
    case SetWeights(master, low, med, high) =>
      Some(Outcome(Put(l, i, Some(a.(master := master, low := low, med := med, high := high)), 0), open))
    case BumpTo(n) =>
      Some(Outcome(Put(l, i, Some(a.(seqNo := if n > a.seqNo then n else a.seqNo)), 0), open))
    case BeginSponsor(d) =>
      if d in open || i in open then None else Some(Outcome(l, open[d := i]))
    case EndSponsor =>
      if i in open then Some(Outcome(l, open - {i})) else None
  }

  function ExecAll(l: State, ops: seq<Op>, open: Sandwich): Option<Outcome>
    decreases |ops|
  {
    if ops == [] then Some(Outcome(l, open)) else
    var r := Exec(l, ops[0], open);
    if r.None? then None else ExecAll(r.value.l, ops[1..], r.value.open)
  }

  // --- transactions -----------------------------------------------------------------------------

  /** The one-time signer of an applied transaction disappears from every account it acted for. */
  function SpendSigner(l: State, i: Id, tx: Tx): State {
    if Exists(l, i) then DropSigner(l, i, l.accts[i].value, tx) else l
  }

  function SpendSigners(l: State, ops: seq<Op>, tx: Tx): State
    decreases |ops|
  {
    if ops == [] then l else SpendSigners(SpendSigner(l, ops[0].src, tx), ops[1..], tx)
  }

  /** What an included transaction costs whatever its operations do: the sequence number and its signers. */
  function Charge(l: State, tx: Tx): State
    requires Exists(l, tx.source)
  {
    var a := l.accts[tx.source].value;
    var l1 := Put(l, tx.source, Some(a.(seqNo := tx.seqNo)), 0);
    SpendSigners(SpendSigner(l1, tx.source, tx), tx.ops, tx)
  }

  function Settle(l: State, tx: Tx, fault: bool): State
    requires Exists(l, tx.source)
  {
    var charged := Charge(l, tx);
    var run := ExecAll(charged, tx.ops, map[]);
    var ok := !fault && run.Some? && run.value.open == map[];
    var l' := if ok then run.value.l else charged;
    l'.(log := l'.log + [Applied(tx, ok)])
  }

  /** Submitting an invalid envelope changes nothing. `fault` stands for failures outside this model. */
  function Apply(l: State, e: Envelope, fault: bool): State {
    if Valid(l, e) then Settle(l, e.tx, fault) else l
  }

  function Next(l: State, s: Step): State {
    match s
    case Submit(e, fault) => Apply(l, e, fault)
    case PayFrom(c, i, amount) =>
      var paid := Credit(l, Contract(c), Acct(i), amount);
      if paid.Some? then paid.value else l
    case Close => l.(num := l.num + 1)
  }

  function Run(l: State, steps: seq<Step>): State
    decreases |steps|
  {
    if steps == [] then l else Run(Next(l, steps[0]), steps[1..])
  }

  lemma {:induction false} RunAppend(l: State, s: seq<Step>, t: seq<Step>)
    ensures Run(l, s + t) == Run(Run(l, s), t)
    decreases |s|
  {
    if s == [] {
      assert s + t == t;
    } else {
      assert (s + t)[0] == s[0] && (s + t)[1..] == s[1..] + t;
      RunAppend(Next(l, s[0]), s[1..], t);
    }
  }
}
