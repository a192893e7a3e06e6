/**
 Bridge authority: after the lock, under any submissions by anyone holding any keys, the ledger
 treats the account exactly as Bridge.dfy describes. Only the pre-authorized envelopes ever act for
 it, each at most once and in its slot; what leaves is nothing or the planned payment.
 */
module Authority {
  import opened Prelude
  import opened Ledger
  import opened Envelopes
  import opened Replay
  import opened Reserves
  import Bridge

  // --- USDC in and out of one account -----------------------------------------------------------

  function Ins(log: seq<Event>, b: Id): nat {
    if log == [] then 0
    else
      var before := Ins(log[..|log| - 1], b);
      match log[|log| - 1]
      case Paid(_, to, amount) => if to == Acct(b) then before + amount else before
      case Applied(_, _) => before
  }

  function Outs(log: seq<Event>, b: Id): seq<(Party, nat)> {
    if log == [] then []
    else
      var before := Outs(log[..|log| - 1], b);
      match log[|log| - 1]
      case Paid(from, to, amount) => if from == Acct(b) then before + [(to, amount)] else before
      case Applied(_, _) => before
  }

  lemma Snoc(log: seq<Event>, e: Event, b: Id)
    ensures Ins(log + [e], b) == Ins(log, b) + (if e.Paid? && e.to == Acct(b) then e.amount else 0)
    ensures Outs(log + [e], b) == Outs(log, b) + (if e.Paid? && e.from == Acct(b) then [(e.to, e.amount)] else [])
  {
    assert (log + [e])[..|log|] == log;
  }

  // --- the correspondence -----------------------------------------------------------------------

  function SignersLeft(p: Plan, b: Bridge.Bridge): map<Tx, nat> {
    (if b.first.Forwarded? || b.first.ForwardFailed? then map[] else map[ForwardTx(p) := 1])
    + (if p.abortable && !b.first.Aborted? && !b.first.AbortFailed? then map[AbortTx(p) := 1] else map[])
    + (if b.second.Pending? then map[CleanupTx(p) := 1] else map[])
  }

  /** `ins` and `outs` follow the ledger's log for as long as the bridge lives. */
  datatype Tracker = Tracker(bridge: Bridge.Bridge, opening: nat, ins0: nat, outs0: seq<(Party, nat)>, ins: nat,
      outs: seq<(Party, nat)>)

  function Planned(p: Plan, b: Bridge.Bridge): seq<(Party, nat)> {
    if b.first.Forwarded? then [(p.dest, p.amount)] else []
  }

  ghost predicate LockedAs(a: Account, p: Plan, b: Bridge.Bridge) {
    && a.seqNo == p.seqNo + Bridge.Spent(b)
    && a.master == 1 && a.low == 2 && a.med == 2 && a.high == 2
    && a.signers == SignersLeft(p, b)
    && a.trust && a.usdc == Bridge.Balance(b)
    && a.baseSponsored && a.trustSponsored && a.sponsoredSigners == a.signers.Keys
  }

  ghost predicate Tracks(l: State, p: Plan, t: Tracker) {
    var b := t.bridge;
    && Proper(p) && Bridge.Valid(b) && b.amount == p.amount && b.abortable == p.abortable
    && t.outs == t.outs0 + Planned(p, b)
    && t.opening + t.ins == t.ins0 + b.received
    && if Bridge.Alive(b)
       then Exists(l, p.bridge) && LockedAs(l.accts[p.bridge].value, p, b)
            && t.ins == Ins(l.log, p.bridge) && t.outs == Outs(l.log, p.bridge)
       else Floor(l, p.bridge) >= p.seqNo + 2
  }

  // --- who can act for a locked bridge ----------------------------------------------------------

  /** Whoever holds whatever keys: a transaction that acts for the bridge is one of its envelopes, in its slot. */
  lemma OnlyTheEnvelopes(l: State, p: Plan, t: Tracker, e: Envelope)
    requires Tracks(l, p, t) && Bridge.Alive(t.bridge)
    requires Valid(l, e) && PartyTo(e.tx, p.bridge)
    ensures exists k :: e.tx == TxOf(p, k) && Bridge.Applies(t.bridge, k)
  {
    var a := l.accts[p.bridge].value;
    assert View(l, p.bridge) == a;
    assert e.tx in a.signers by {
      if e.tx.source != p.bridge {
        var op :| op in e.tx.ops && op.src == p.bridge;
        assert Authorizes(View(l, op.src), e.tx, op.src in e.signedBy, LevelOf(op.body));
      }
    }
    var k := if e.tx == ForwardTx(p) then Bridge.Forward else if e.tx == AbortTx(p) then Bridge.Abort
        else Bridge.Cleanup;
    assert e.tx == TxOf(p, k) && Bridge.Applies(t.bridge, k);
  }

  /** Signers, weights and thresholds of a living bridge are what the lock made of them, less the spent envelopes. */
  lemma SignersNeverChange(l: State, p: Plan, t: Tracker)
    requires Tracks(l, p, t) && Bridge.Alive(t.bridge)
    ensures var a := l.accts[p.bridge].value;
            && (forall h <- a.signers :: a.signers[h] == 1 && exists k :: h == TxOf(p, k))
            && a.master == 1 && a.low == a.med == a.high == 2
  {
    var a := l.accts[p.bridge].value;
    forall h <- a.signers ensures exists k :: h == TxOf(p, k) {
      var k := if h == ForwardTx(p) then Bridge.Forward else if h == AbortTx(p) then Bridge.Abort else Bridge.Cleanup;
      assert h == TxOf(p, k);
    }
  }

  // --- transactions of other accounts -----------------------------------------------------------

  /** Others can pay the account and change nothing else about it. */
  ghost predicate Bystander(l: State, l': State, b: Id) {
    && Exists(l, b) && Exists(l', b)
    && Ins(l'.log, b) >= Ins(l.log, b) && Outs(l'.log, b) == Outs(l.log, b)
    && (!l.accts[b].value.trust ==> Ins(l'.log, b) == Ins(l.log, b))
    && var a := l.accts[b].value;
       l'.accts[b].value == a.(usdc := a.usdc + Ins(l'.log, b) - Ins(l.log, b))
  }

  lemma CreditBystander(l: State, from: Party, to: Party, amount: nat, b: Id)
    requires Exists(l, b) && from != Acct(b) && Credit(l, from, to, amount).Some?
    ensures Bystander(l, Credit(l, from, to, amount).value, b)
  {
    Snoc(l.log, Paid(from, to, amount), b);
  }

  lemma PayBystander(l: State, i: Id, to: Party, amount: nat, open: Sandwich, b: Id)
    requires Exists(l, b) && i != b && Exec(l, Op(i, Pay(to, amount)), open).Some?
    ensures Bystander(l, Exec(l, Op(i, Pay(to, amount)), open).value.l, b)
  {
    var a := l.accts[i].value;
    CreditBystander(Put(l, i, Some(a.(usdc := a.usdc - amount)), 0), Acct(i), to, amount, b);
  }

  lemma ExecBystander(l: State, op: Op, open: Sandwich, b: Id)
    requires Exists(l, b) && op.src != b && Exec(l, op, open).Some?
    ensures Bystander(l, Exec(l, op, open).value.l, b)
  {
    if op.body.Pay? {
      PayBystander(l, op.src, op.body.to, op.body.amount, open, b);
    } else {
      var l' := Exec(l, op, open).value.l;
      assert l'.log == l.log && l'.accts[b] == l.accts[b];
    }
  }

  lemma {:induction false} ExecAllBystander(l: State, ops: seq<Op>, open: Sandwich, b: Id)
    requires Exists(l, b) && (forall op <- ops :: op.src != b) && ExecAll(l, ops, open).Some?
    ensures Bystander(l, ExecAll(l, ops, open).value.l, b)
    decreases |ops|
  {
    if ops != [] {
      ExecBystander(l, ops[0], open, b);
      var o := Exec(l, ops[0], open).value;
      ExecAllBystander(o.l, ops[1..], o.open, b);
    }
  }

  lemma {:induction false} SpendBystander(l: State, ops: seq<Op>, tx: Tx, b: Id)
    requires Exists(l, b) && forall op <- ops :: op.src != b
    ensures Bystander(l, SpendSigners(l, ops, tx), b)
    decreases |ops|
  {
    if ops != [] {
      SpendBystander(SpendSigner(l, ops[0].src, tx), ops[1..], tx, b);
    }
  }

  lemma ChargeBystander(l: State, tx: Tx, b: Id)
    requires Exists(l, b) && SeqOk(l, tx) && tx.source != b && forall op <- tx.ops :: op.src != b
    ensures Bystander(l, Charge(l, tx), b) && Charge(l, tx).log == l.log
  {
    var a := l.accts[tx.source].value;
    var l1 := Put(l, tx.source, Some(a.(seqNo := tx.seqNo)), 0);
    ChargeAdvances(l, tx);
    SpendBystander(SpendSigner(l1, tx.source, tx), tx.ops, tx, b);
  }

  lemma BystanderThenLog(l: State, l': State, e: Event, b: Id)
    requires Bystander(l, l', b) && e.Applied?
    ensures Bystander(l, l'.(log := l'.log + [e]), b)
  {
    Snoc(l'.log, e, b);
  }

  lemma BystanderTransitive(l: State, l1: State, l2: State, b: Id)
    requires Bystander(l, l1, b) && Bystander(l1, l2, b)
    ensures Bystander(l, l2, b)
  {
  }

  lemma SettleBystander(l: State, tx: Tx, fault: bool, b: Id)
    requires Exists(l, b) && SeqOk(l, tx) && !PartyTo(tx, b)
    ensures Bystander(l, Settle(l, tx, fault), b)
  {
    assert forall op <- tx.ops :: op.src != b;
    ChargeBystander(l, tx, b);
    var charged := Charge(l, tx);
    BystanderThenLog(l, charged, Applied(tx, false), b);
    var run := ExecAll(charged, tx.ops, map[]);
    if run.Some? {
      ExecAllBystander(charged, tx.ops, map[], b);
      BystanderTransitive(l, charged, run.value.l, b);
      BystanderThenLog(l, run.value.l, Applied(tx, true), b);
    }
  }

  lemma NextBystander(l: State, s: Step, b: Id)
    requires Exists(l, b)
    requires s.Submit? && Valid(l, s.envelope) ==> !PartyTo(s.envelope.tx, b)
    ensures Bystander(l, Next(l, s), b)
  {
    match s
    case Submit(e, fault) => if Valid(l, e) { SettleBystander(l, e.tx, fault, b); }
    case PayFrom(c, i, amount) =>
      if Credit(l, Contract(c), Acct(i), amount).Some? { CreditBystander(l, Contract(c), Acct(i), amount, b); }
    case Close =>
  }

  // --- the bridge's own envelopes ---------------------------------------------------------------

  /** What the ledger answers when an envelope of the bridge is included. */
  predicate Went(l: State, p: Plan, k: Bridge.Kind, fault: bool)
    requires Exists(l, p.bridge)
  {
    var a := l.accts[p.bridge].value;
    && !fault
    && match k
       case Forward => a.usdc >= p.amount && (p.dest.Acct? ==> Exists(l, p.dest.id) && l.accts[p.dest.id].value.trust)
       case _ => a.usdc == 0 && Exists(l, SPONSOR) && TxOf(p, k).seqNo < StartSeq(l.num)
  }

  function Charged(l: State, p: Plan, k: Bridge.Kind): State
    requires Exists(l, p.bridge)
  {
    var a := l.accts[p.bridge].value;
    var tx := TxOf(p, k);
    DropSigner(Put(l, p.bridge, Some(a.(seqNo := tx.seqNo)), 0), p.bridge, a.(seqNo := tx.seqNo), tx)
  }

  lemma ChargeOwn(l: State, p: Plan, k: Bridge.Kind)
    requires Exists(l, p.bridge)
    ensures Charge(l, TxOf(p, k)) == Charged(l, p, k)
  {
    var tx := TxOf(p, k);
    var c := Charged(l, p, k);
    assert SpendSigner(c, p.bridge, tx) == c;
    assert SpendSigners(c, tx.ops, tx) == SpendSigners(c, tx.ops[1..], tx);
    if k == Bridge.Forward {
      assert tx.ops[1..] == [];
    } else {
      assert SpendSigners(c, tx.ops[1..], tx) == SpendSigners(c, tx.ops[1..][1..], tx);
    }
  }

  lemma RunForward(c: State, p: Plan)
    requires Proper(p) && Exists(c, p.bridge) && c.accts[p.bridge].value.trust
    ensures var a := c.accts[p.bridge].value;
            var run := ExecAll(c, ForwardTx(p).ops, map[]);
            && run.Some? == Went(c, p, Bridge.Forward, false)
            && (run.Some? ==>
                  && run.value.open == map[] && run.value.l.num == c.num
                  && run.value.l.log == c.log + [Paid(Acct(p.bridge), p.dest, p.amount)]
                  && Exists(run.value.l, p.bridge)
                  && run.value.l.accts[p.bridge].value == a.(usdc := a.usdc - p.amount))
  {
    var op := ForwardTx(p).ops[0];
    var r := Exec(c, op, map[]);
    assert ForwardTx(p).ops[1..] == [];
    assert r.Some? ==> ExecAll(c, ForwardTx(p).ops, map[]) == Some(Outcome(r.value.l, r.value.open));
  }

  lemma RunMergeBack(c: State, b: Id)
    requires Exists(c, b) && c.accts[b].value.trust && b != SPONSOR
    ensures var a := c.accts[b].value;
            var run := ExecAll(c, MergeBack(b), map[]);
            && run.Some? == (a.usdc == 0 && Exists(c, SPONSOR) && a.seqNo < StartSeq(c.num))
            && (run.Some? ==>
                run.value.open == map[] && run.value.l.num == c.num && run.value.l.log == c.log
                && !Exists(run.value.l, b))
  {
    var ops := MergeBack(b);
    var r := Exec(c, ops[0], map[]);
    assert ops[1..] == [Op(b, Merge(SPONSOR))];
    if r.Some? {
      var r2 := Exec(r.value.l, ops[1], r.value.open);
      assert ops[1..][1..] == [];
      assert ExecAll(c, ops, map[]) == ExecAll(r.value.l, ops[1..], r.value.open);
      assert r2.Some? ==> ExecAll(r.value.l, ops[1..], r.value.open) == ExecAll(r2.value.l, [], r2.value.open);
    }
  }

  /** The account after its own envelope: gone, or one slot and one signer poorer. */
  ghost predicate AfterOwn(l: State, l': State, p: Plan, k: Bridge.Kind, went: bool)
    requires Exists(l, p.bridge)
  {
    var a := l.accts[p.bridge].value;
    var tx := TxOf(p, k);
    && Ins(l'.log, p.bridge) == Ins(l.log, p.bridge)
    && Outs(l'.log, p.bridge) == Outs(l.log, p.bridge) + (if went && k.Forward? then [(p.dest, p.amount)] else [])
    && l'.num == l.num
    && l'.log != [] && l'.log[|l'.log| - 1] == Applied(tx, went)
    && if went && !k.Forward? then !Exists(l', p.bridge)
       else Exists(l', p.bridge)
            && var a' := l'.accts[p.bridge].value;
               && a'.seqNo == tx.seqNo && a'.signers == a.signers - {tx}
               && a'.master == a.master && a'.low == a.low && a'.med == a.med && a'.high == a.high
               && a'.trust && a'.usdc == (if went then a.usdc - p.amount else a.usdc)
               && a'.baseSponsored == a.baseSponsored && a'.trustSponsored == a.trustSponsored
               && a'.sponsoredSigners == a.sponsoredSigners - {tx}
  }

  /** Charging an envelope moves the sequence, spends the signer, and touches nothing else. */
  lemma ChargedFacts(l: State, p: Plan, k: Bridge.Kind)
    requires Proper(p) && Exists(l, p.bridge) && TxOf(p, k) in l.accts[p.bridge].value.signers
    ensures var c := Charged(l, p, k);
            var a := l.accts[p.bridge].value;
            && Charge(l, TxOf(p, k)) == c
            && c.log == l.log && c.num == l.num && Exists(c, p.bridge)
            && c.accts[p.bridge].value == a.(seqNo := TxOf(p, k).seqNo, signers := a.signers - {TxOf(p, k)},
                                             sponsoredSigners := a.sponsoredSigners - {TxOf(p, k)})
            && (forall i: Id | i != p.bridge ::
                Exists(c, i) == Exists(l, i)
                && (Exists(c, i) ==> c.accts[i] == l.accts[i]))
  {
    ChargeOwn(l, p, k);
  }

  lemma SettleForward(l: State, p: Plan, fault: bool)
    requires Proper(p) && Exists(l, p.bridge) && l.accts[p.bridge].value.trust
    requires ForwardTx(p) in l.accts[p.bridge].value.signers
    ensures var went := Went(l, p, Bridge.Forward, fault);
            AfterOwn(l, Settle(l, ForwardTx(p), fault), p, Bridge.Forward, went)
  {
    var k := Bridge.Forward;
    ChargedFacts(l, p, k);
    var c := Charged(l, p, k);
    RunForward(c, p);
    var went := Went(l, p, k, fault);
    assert Went(c, p, k, false) == Went(l, p, k, false);
    Snoc(c.log, Paid(Acct(p.bridge), p.dest, p.amount), p.bridge);
    Snoc(if went then c.log + [Paid(Acct(p.bridge), p.dest, p.amount)]
        else c.log, Applied(ForwardTx(p), went), p.bridge);
  }

  lemma SettleMergeBack(l: State, p: Plan, k: Bridge.Kind, fault: bool)
    requires Proper(p) && Exists(l, p.bridge) && l.accts[p.bridge].value.trust && !k.Forward?
    requires TxOf(p, k) in l.accts[p.bridge].value.signers
    ensures AfterOwn(l, Settle(l, TxOf(p, k), fault), p, k, Went(l, p, k, fault))
  {
    ChargedFacts(l, p, k);
    var c := Charged(l, p, k);
    RunMergeBack(c, p.bridge);
    assert TxOf(p, k).ops == MergeBack(p.bridge);
    Snoc(c.log, Applied(TxOf(p, k), Went(l, p, k, fault)), p.bridge);
  }

  // --- following a run --------------------------------------------------------------------------

  predicate IsEnvelope(p: Plan, tx: Tx) {
    tx == ForwardTx(p) || tx == AbortTx(p) || tx == CleanupTx(p)
  }

  function KindOf(p: Plan, tx: Tx): (k: Bridge.Kind)
    requires IsEnvelope(p, tx)
    ensures TxOf(p, k) == tx
  {
    if tx == ForwardTx(p) then Bridge.Forward else if tx == AbortTx(p) then Bridge.Abort else Bridge.Cleanup
  }

  /** The bridge's view of one ledger step. */
  function MoveOf(l: State, p: Plan, s: Step): Bridge.Move {
    if s.Submit? && Valid(l, s.envelope) && IsEnvelope(p, s.envelope.tx) && Exists(l, p.bridge)
    then Bridge.Submit(KindOf(p, s.envelope.tx), !Went(l, p, KindOf(p, s.envelope.tx), s.fault))
    else
      var more := Ins(Next(l, s).log, p.bridge) - Ins(l.log, p.bridge);
      Bridge.PayIn(if more >= 0 then more else 0)
  }

  function Follow(l: State, p: Plan, t: Tracker, s: Step): Tracker {
    if !Bridge.Alive(t.bridge) then t
    else
      var log := Next(l, s).log;
      t.(bridge := Bridge.Next(t.bridge, MoveOf(l, p, s)), ins := Ins(log, p.bridge), outs := Outs(log, p.bridge))
  }

  lemma SignersAfter(p: Plan, b: Bridge.Bridge, k: Bridge.Kind, ok: bool)
    requires Bridge.Valid(b) && b.abortable == p.abortable && Bridge.Applies(b, k)
    requires Bridge.Alive(Bridge.Submitted(b, k, !ok))
    ensures SignersLeft(p, Bridge.Submitted(b, k, !ok)) == SignersLeft(p, b) - {TxOf(p, k)}
  {
    var b' := Bridge.Submitted(b, k, !ok);
    assert ForwardTx(p) != AbortTx(p) && ForwardTx(p) != CleanupTx(p) && AbortTx(p) != CleanupTx(p);
    assert SignersLeft(p, b').Keys == SignersLeft(p, b).Keys - {TxOf(p, k)};
  }

  /** The bridge machine's side of an envelope: which slot it spends and what it sends. */
  lemma SlotSpent(p: Plan, b: Bridge.Bridge, k: Bridge.Kind, went: bool)
    requires Bridge.Valid(b) && Bridge.Alive(b) && Bridge.Applies(b, k)
    requires b.amount == p.amount
    requires went ==> Bridge.Succeeds(b, k, false)
    ensures var b' := Bridge.Submitted(b, k, !went);
            && Bridge.Valid(b') && b'.received == b.received && b'.amount == b.amount && b'.abortable == b.abortable
            && Bridge.Alive(b') == !(went && !k.Forward?)
            && p.seqNo + Bridge.Spent(b') == TxOf(p, k).seqNo
            && Planned(p, b') == Planned(p, b) + (if went && k.Forward? then [(p.dest, p.amount)] else [])
            && Bridge.Balance(b') == Bridge.Balance(b) - (if went && k.Forward? then p.amount else 0)
  {
  }

  lemma AfterOwnTracks(l: State, l': State, p: Plan, t: Tracker, t': Tracker, k: Bridge.Kind, went: bool)
    requires Tracks(l, p, t) && Bridge.Alive(t.bridge) && Bridge.Applies(t.bridge, k)
    requires AfterOwn(l, l', p, k, went)
    requires went ==> Bridge.Succeeds(t.bridge, k, false)
    requires went && !k.Forward? ==> TxOf(p, k).seqNo < StartSeq(l.num)
    requires t' == t.(bridge := Bridge.Submitted(t.bridge, k, !went), ins := Ins(l'.log, p.bridge),
        outs := Outs(l'.log, p.bridge))
    ensures Tracks(l', p, t')
  {
    SlotSpent(p, t.bridge, k, went);
    if Bridge.Alive(t'.bridge) {
      SignersAfter(p, t.bridge, k, went);
      assert (l.accts[p.bridge].value.signers - {TxOf(p, k)}).Keys ==
          l.accts[p.bridge].value.signers.Keys - {TxOf(p, k)};
      assert LockedAs(l'.accts[p.bridge].value, p, t'.bridge) by {
        if went { assert Bridge.Balance(t.bridge) >= p.amount; }
      }
    } else {
      assert Floor(l', p.bridge) == StartSeq(l.num);
    }
  }

  /** What one valid transaction acting for the bridge does: which envelope, and whether it went through. */
  lemma OwnOutcome(l: State, p: Plan, t: Tracker, e: Envelope, fault: bool) returns (k: Bridge.Kind, went: bool)
    requires Tracks(l, p, t) && Bridge.Alive(t.bridge)
    requires Valid(l, e) && PartyTo(e.tx, p.bridge)
    ensures e.tx == TxOf(p, k) && Bridge.Applies(t.bridge, k)
    ensures AfterOwn(l, Next(l, Submit(e, fault)), p, k, went)
    ensures went ==> Bridge.Succeeds(t.bridge, k, false)
    ensures went && !k.Forward? ==> TxOf(p, k).seqNo < StartSeq(l.num)
    ensures Follow(l, p, t, Submit(e, fault)).bridge == Bridge.Submitted(t.bridge, k, !went)
  {
    OnlyTheEnvelopes(l, p, t, e);
    k :| e.tx == TxOf(p, k) && Bridge.Applies(t.bridge, k);
    assert KindOf(p, TxOf(p, k)) == k;
    if k.Forward? { SettleForward(l, p, fault); } else { SettleMergeBack(l, p, k, fault); }
    went := Went(l, p, k, fault);
    assert MoveOf(l, p, Submit(e, fault)) == Bridge.Submit(k, !went);
  }

  lemma OwnStep(l: State, p: Plan, t: Tracker, e: Envelope, fault: bool)
    requires Tracks(l, p, t) && Bridge.Alive(t.bridge)
    requires Valid(l, e) && PartyTo(e.tx, p.bridge)
    ensures Tracks(Next(l, Submit(e, fault)), p, Follow(l, p, t, Submit(e, fault)))
  {
    var k, went := OwnOutcome(l, p, t, e, fault);
    AfterOwnTracks(l, Next(l, Submit(e, fault)), p, t, Follow(l, p, t, Submit(e, fault)), k, went);
  }

  /** One ledger step, whatever it is, is at most one move of the bridge. */
  lemma StepRefines(l: State, p: Plan, t: Tracker, s: Step)
    requires Tracks(l, p, t)
    ensures Tracks(Next(l, s), p, Follow(l, p, t, s))
  {
    NextAdvances(l, s);
    if Bridge.Alive(t.bridge) {
      if s.Submit? && Valid(l, s.envelope) && PartyTo(s.envelope.tx, p.bridge) {
        OwnStep(l, p, t, s.envelope, s.fault);
      } else {
        NextBystander(l, s, p.bridge);
      }
    }
  }

  // --- what the log says ------------------------------------------------------------------------

  lemma ExecKeepsApplied(l: State, op: Op, open: Sandwich, tx: Tx, ok: bool)
    requires Exec(l, op, open).Some?
    ensures Applied(tx, ok) in Exec(l, op, open).value.l.log <==> Applied(tx, ok) in l.log
  {
  }

  lemma {:induction false} ExecAllKeepsApplied(l: State, ops: seq<Op>, open: Sandwich, tx: Tx, ok: bool)
    requires ExecAll(l, ops, open).Some?
    ensures Applied(tx, ok) in ExecAll(l, ops, open).value.l.log <==> Applied(tx, ok) in l.log
    decreases |ops|
  {
    if ops != [] {
      ExecKeepsApplied(l, ops[0], open, tx, ok);
      var o := Exec(l, ops[0], open).value;
      ExecAllKeepsApplied(o.l, ops[1..], o.open, tx, ok);
    }
  }

  /** A step logs at most the one transaction it submits. */
  lemma NextApplied(l: State, s: Step, tx: Tx, ok: bool)
    ensures var l' := Next(l, s);
            Applied(tx, ok) in l'.log <==>
            || Applied(tx, ok) in l.log
            || (s.Submit? && Valid(l, s.envelope) && s.envelope.tx == tx && l'.log != []
                && l'.log[|l'.log| - 1] == Applied(tx, ok))
  {
    if s.Submit? && Valid(l, s.envelope) {
      var t := s.envelope.tx;
      var a := l.accts[t.source].value;
      var l1 := Put(l, t.source, Some(a.(seqNo := t.seqNo)), 0);
      SpendSignerKeeps(l1, t.source, t);
      SpendSignersKeeps(SpendSigner(l1, t.source, t), t.ops, t);
      if ExecAll(Charge(l, t), t.ops, map[]).Some? {
        ExecAllKeepsApplied(Charge(l, t), t.ops, map[], tx, ok);
      }
    }
  }

  /** A success in the ledger's log is exactly the bridge's own record of it. */
  ghost predicate Logged(l: State, p: Plan, b: Bridge.Bridge) {
    forall k: Bridge.Kind :: Applied(TxOf(p, k), true) in l.log <==> Bridge.Done(b, k)
  }

  lemma OwnLogged(l: State, p: Plan, t: Tracker, e: Envelope, fault: bool, k: Bridge.Kind)
    requires Tracks(l, p, t) && Bridge.Alive(t.bridge) && Valid(l, e) && PartyTo(e.tx, p.bridge)
    requires Applied(TxOf(p, k), true) in l.log <==> Bridge.Done(t.bridge, k)
    ensures Applied(TxOf(p, k), true) in Next(l, Submit(e, fault)).log <==>
        Bridge.Done(Follow(l, p, t, Submit(e, fault)).bridge, k)
  {
    NextApplied(l, Submit(e, fault), TxOf(p, k), true);
    var own, went := OwnOutcome(l, p, t, e, fault);
    LoggedAfter(l.log, Next(l, Submit(e, fault)).log, p, t.bridge, own, went, k);
  }

  lemma OtherLogged(l: State, p: Plan, t: Tracker, s: Step, k: Bridge.Kind)
    requires Tracks(l, p, t)
    requires Bridge.Alive(t.bridge) && s.Submit? && Valid(l, s.envelope) ==> !PartyTo(s.envelope.tx, p.bridge)
    ensures Applied(TxOf(p, k), true) in Next(l, s).log <==> Applied(TxOf(p, k), true) in l.log
    ensures Bridge.Done(Follow(l, p, t, s).bridge, k) <==> Bridge.Done(t.bridge, k)
  {
    NextApplied(l, s, TxOf(p, k), true);
  }

  lemma StepLogged(l: State, p: Plan, t: Tracker, s: Step)
    requires Tracks(l, p, t) && Logged(l, p, t.bridge)
    ensures Logged(Next(l, s), p, Follow(l, p, t, s).bridge)
  {
    forall k: Bridge.Kind ensures Applied(TxOf(p, k), true) in Next(l, s).log <==>
        Bridge.Done(Follow(l, p, t, s).bridge, k) {
      assert Applied(TxOf(p, k), true) in l.log <==> Bridge.Done(t.bridge, k);
      if s.Submit? && Valid(l, s.envelope) && PartyTo(s.envelope.tx, p.bridge) && Bridge.Alive(t.bridge) {
        OwnLogged(l, p, t, s.envelope, s.fault, k);
      } else {
        OtherLogged(l, p, t, s, k);
      }
    }
  }

  lemma LoggedAfter(log: seq<Event>, log': seq<Event>, p: Plan, b: Bridge.Bridge, k: Bridge.Kind, went: bool,
      j: Bridge.Kind)
    requires Bridge.Valid(b) && Bridge.Alive(b) && Bridge.Applies(b, k)
    requires went ==> Bridge.Succeeds(b, k, false)
    requires Applied(TxOf(p, j), true) in log <==> Bridge.Done(b, j)
    requires Applied(TxOf(p, j), true) in log' <==>
        Applied(TxOf(p, j), true) in log
        || (TxOf(p, k) == TxOf(p, j) && went)
    ensures Applied(TxOf(p, j), true) in log' <==> Bridge.Done(Bridge.Submitted(b, k, !went), j)
  {
    assert TxOf(p, j) == TxOf(p, k) ==> j == k;
    Bridge.DoneAfter(b, k, went, j);
  }

  // --- runs -------------------------------------------------------------------------------------

  function FollowAll(l: State, p: Plan, t: Tracker, steps: seq<Step>): Tracker
    decreases |steps|
  {
    if steps == [] then t else FollowAll(Next(l, steps[0]), p, Follow(l, p, t, steps[0]), steps[1..])
  }

  function MovesOf(l: State, p: Plan, steps: seq<Step>): seq<Bridge.Move>
    decreases |steps|
  {
    if steps == [] then [] else [MoveOf(l, p, steps[0])] + MovesOf(Next(l, steps[0]), p, steps[1..])
  }

  lemma DeadBridgeStaysPut(b: Bridge.Bridge, m: Bridge.Move)
    requires Bridge.Valid(b) && !Bridge.Alive(b)
    ensures Bridge.Next(b, m) == b
  {
  }

  /** Refinement over unbounded runs: what the ledger does to a locked account is a run of the bridge machine. */
  lemma {:induction false} LedgerRefinesBridge(l: State, p: Plan, t: Tracker, steps: seq<Step>)
    requires Tracks(l, p, t)
    ensures Tracks(Run(l, steps), p, FollowAll(l, p, t, steps))
    ensures Logged(l, p, t.bridge) ==> Logged(Run(l, steps), p, FollowAll(l, p, t, steps).bridge)
    ensures FollowAll(l, p, t, steps).bridge == Bridge.Run(t.bridge, MovesOf(l, p, steps))
    ensures var t' := FollowAll(l, p, t, steps); t'.opening == t.opening && t'.ins0 == t.ins0 && t'.outs0 == t.outs0
    decreases |steps|
  {
    if steps != [] {
      StepRefines(l, p, t, steps[0]);
      if Logged(l, p, t.bridge) { StepLogged(l, p, t, steps[0]); }
      if !Bridge.Alive(t.bridge) { DeadBridgeStaysPut(t.bridge, MoveOf(l, p, steps[0])); }
      LedgerRefinesBridge(Next(l, steps[0]), p, Follow(l, p, t, steps[0]), steps[1..]);
    }
  }

  /**
   USDC conservation on the ledger, from the lock on: everything accepted is the balance plus what
   left; what left is nothing or the exact planned payment; a merged bridge was empty.
   */
  lemma UsdcConservation(l: State, p: Plan, t: Tracker, steps: seq<Step>)
    requires Tracks(l, p, t) && t.bridge.first.Open?
    ensures var t' := FollowAll(l, p, t, steps);
            && (t'.outs == t.outs || t'.outs == t.outs + [(p.dest, p.amount)])
            && t.opening + t'.ins - t.ins0 == Bridge.Balance(t'.bridge) + Bridge.Sent(t'.bridge)
            && (Bridge.Alive(t'.bridge) ==> View(Run(l, steps), p.bridge).usdc == Bridge.Balance(t'.bridge))
            && (!Bridge.Alive(t'.bridge) ==> Bridge.Balance(t'.bridge) == 0)
  {
    LedgerRefinesBridge(l, p, t, steps);
    Bridge.Conservation(t.bridge, MovesOf(l, p, steps));
  }

  // --- each envelope once -----------------------------------------------------------------------

  /** Over any run: each envelope enters at most once, and forward and abort never both. */
  lemma EachEnvelopeOnce(l: State, p: Plan, steps: seq<Step>)
    requires OnePerSlot(l)
    ensures var ts := Entered(Run(l, steps).log);
            && (forall j, k | 0 <= j < k < |ts| && ts[j] == ts[k] :: !IsEnvelope(p, ts[j]))
            && !(ForwardTx(p) in ts && AbortTx(p) in ts)
  {
    AtMostOnce(l, steps);
  }

  /**
   An envelope is valid with the landing key's co-signature and no other: less is too little weight, more is
   refused.
   */
  lemma ExactlyTheCoSignature(l: State, p: Plan, t: Tracker, k: Bridge.Kind, signedBy: set<Id>)
    requires Tracks(l, p, t) && Bridge.Alive(t.bridge) && Bridge.Applies(t.bridge, k)
    ensures Valid(l, Envelope(TxOf(p, k), signedBy)) <==> signedBy == {p.bridge}
  {
    if signedBy == {p.bridge} { CoSignedIsValid(l, p, t, k); }
    if Valid(l, Envelope(TxOf(p, k), signedBy)) { OnlyCoSigned(l, p, t, k, signedBy); }
  }

  lemma CoSignedIsValid(l: State, p: Plan, t: Tracker, k: Bridge.Kind)
    requires Tracks(l, p, t) && Bridge.Alive(t.bridge) && Bridge.Applies(t.bridge, k)
    ensures Valid(l, Envelope(TxOf(p, k), {p.bridge}))
  {
    var tx, a := TxOf(p, k), l.accts[p.bridge].value;
    assert View(l, p.bridge) == a && PreWeight(a, tx) == 1;
    assert forall op <- tx.ops :: op.src == p.bridge;
  }

  lemma OnlyCoSigned(l: State, p: Plan, t: Tracker, k: Bridge.Kind, signedBy: set<Id>)
    requires Tracks(l, p, t) && Bridge.Alive(t.bridge) && Bridge.Applies(t.bridge, k)
    requires Valid(l, Envelope(TxOf(p, k), signedBy))
    ensures signedBy == {p.bridge}
  {
    var tx, a := TxOf(p, k), l.accts[p.bridge].value;
    assert View(l, p.bridge) == a && PreWeight(a, tx) == 1;
    assert forall op <- tx.ops :: op.src == p.bridge;
    assert p.bridge in signedBy;
    forall i <- signedBy ensures i == p.bridge { }
  }

  /** The envelope as it left createLandingAccount, submitted with nothing else in the way. */
  function Submission(p: Plan, k: Bridge.Kind): Step {
    Submit(Envelope(TxOf(p, k), {p.bridge}), false)
  }

  lemma Included(l: State, p: Plan, t: Tracker, k: Bridge.Kind)
    requires Tracks(l, p, t) && Bridge.Alive(t.bridge) && Bridge.Applies(t.bridge, k)
    ensures AfterOwn(l, Next(l, Submission(p, k)), p, k, Went(l, p, k, false))
  {
    ExactlyTheCoSignature(l, p, t, k, {p.bridge});
    assert TxOf(p, k) in l.accts[p.bridge].value.signers;
    if k.Forward? { SettleForward(l, p, false); } else { SettleMergeBack(l, p, k, false); }
  }

  /** The ledger merges an account whose sequence number a new account would start above. */
  predicate CanMerge(l: State, p: Plan, k: Bridge.Kind) {
    Exists(l, SPONSOR) && TxOf(p, k).seqNo < StartSeq(l.num)
  }

  /**
   An abort or cleanup in its slot takes the bridge away exactly when the bridge is empty and the ledger can merge
   it; otherwise it burns the slot.
   */
  lemma MergeGoesThrough(l: State, p: Plan, t: Tracker, k: Bridge.Kind)
    requires Tracks(l, p, t) && Bridge.Alive(t.bridge) && Bridge.Applies(t.bridge, k) && !k.Forward?
    ensures var l' := Next(l, Submission(p, k));
            && (!Exists(l', p.bridge) <==> Bridge.Balance(t.bridge) == 0 && CanMerge(l, p, k))
            && (Exists(l', p.bridge) ==> l'.accts[p.bridge].value.seqNo == TxOf(p, k).seqNo)
  {
    Included(l, p, t, k);
  }

  predicate CanReceive(l: State, to: Party) {
    to.Acct? ==> Exists(l, to.id) && l.accts[to.id].value.trust
  }

  /** A forward in its slot pays exactly when the bridge holds the amount and the destination can receive it. */
  lemma ForwardGoesThrough(l: State, p: Plan, t: Tracker)
    requires Tracks(l, p, t) && t.bridge.first.Open?
    ensures var l' := Next(l, Submission(p, Bridge.Forward));
            && Exists(l', p.bridge) && l'.accts[p.bridge].value.seqNo == ForwardTx(p).seqNo
            && (t.bridge.received >= p.amount && CanReceive(l, p.dest) <==>
                  Outs(l'.log, p.bridge) == Outs(l.log, p.bridge) + [(p.dest, p.amount)])
  {
    Included(l, p, t, Bridge.Forward);
  }

  /** For an account that started at ledger `born`, that is when a ledger has closed since. */
  lemma ALedgerHasClosed(p: Plan, k: Bridge.Kind, born: nat, num: nat)
    requires p.seqNo == StartSeq(born)
    ensures TxOf(p, k).seqNo < StartSeq(num) <==> born < num
  {
  }

  /**
   The reserves a living bridge locks on the sponsor: two for the account, one for the trustline, one per signer
   left.
   */
  lemma ReservesOfABridge(l: State, p: Plan, t: Tracker)
    requires Tracks(l, p, t) && Bridge.Alive(t.bridge)
    ensures Carried(l.accts[p.bridge]) == 3 + |SignersLeft(p, t.bridge).Keys|
  {
  }
}
