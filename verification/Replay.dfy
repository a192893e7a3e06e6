/**
 Replay: whatever anybody submits, in any order and however often, a transaction enters the ledger at
 most once, and two transactions that share an account and a sequence number never both do. An
 account's sequence floor never falls, not even when the account is merged away and created again.
 */
module Replay {
  import opened Prelude
  import opened Ledger

  /** The highest sequence number account `i` has used, or would have if it were created now. */
  function Floor(l: State, i: Id): nat {
    if Exists(l, i) then l.accts[i].value.seqNo else StartSeq(l.num)
  }

  /** The transactions that entered the ledger, in order. */
  function Entered(log: seq<Event>): seq<Tx> {
    if log == [] then []
    else
      var before := Entered(log[..|log| - 1]);
      match log[|log| - 1]
      case Applied(tx, _) => before + [tx]
      case Paid(_, _, _) => before
  }

  lemma EnteredSnoc(log: seq<Event>, e: Event)
    ensures Entered(log + [e]) == if e.Applied? then Entered(log) + [e.tx] else Entered(log)
  {
    assert (log + [e])[..|log|] == log;
  }

  /** What operations can do to sequence floors and to the list of entered transactions. */
  ghost predicate Advances(l: State, l': State) {
    && |l'.accts| == |l.accts|
    && l'.num >= l.num
    && l.log <= l'.log
    && (forall i: Id :: Floor(l, i) <= Floor(l', i))
  }

  lemma PayAdvances(l: State, i: Id, to: Party, amount: nat, open: Sandwich)
    requires Exec(l, Op(i, Pay(to, amount)), open).Some?
    ensures Moves(l, Exec(l, Op(i, Pay(to, amount)), open).value.l)
  {
    EnteredSnoc(l.log, Paid(Acct(i), to, amount));
  }

  /** What one operation can do: floors rise, the ledger stays open, nothing new enters. */
  ghost predicate Moves(l: State, l': State) {
    Advances(l, l') && l'.num == l.num && Entered(l'.log) == Entered(l.log)
  }

  /** Operations other than payments log nothing and rewrite one account, whose floor does not fall. */
  lemma OneAccountMoves(l: State, l': State, i: Id)
    requires |l'.accts| == |l.accts| && l'.num == l.num && l'.log == l.log
    requires forall j: Id | j != i && j < |l.accts| :: l'.accts[j] == l.accts[j]
    requires Floor(l, i) <= Floor(l', i)
    ensures Moves(l, l')
  {
    forall j: Id ensures Floor(l, j) <= Floor(l', j) {
      if j != i && j < |l.accts| { assert l'.accts[j] == l.accts[j]; }
    }
  }

  /** The account an operation other than a payment rewrites. */
  function Touched(op: Op): Id {
    if op.body.Create? then op.body.dest else op.src
  }

  lemma ExecTouchesOne(l: State, op: Op, open: Sandwich)
    requires !op.body.Pay? && Exec(l, op, open).Some?
    ensures var l' := Exec(l, op, open).value.l;
            && |l'.accts| == |l.accts| && l'.num == l.num && l'.log == l.log
            && forall j: Id | j != Touched(op) && j < |l.accts| :: l'.accts[j] == l.accts[j]
  {
  }

  lemma ExecRaisesFloor(l: State, op: Op, open: Sandwich)
    requires !op.body.Pay? && Exec(l, op, open).Some?
    ensures Floor(l, Touched(op)) <= Floor(Exec(l, op, open).value.l, Touched(op))
  {
    var l' := Exec(l, op, open).value.l;
    if op.body.Create? {
      assert Floor(l', op.body.dest) == StartSeq(l.num);
    } else if op.body.Merge? {
      assert Floor(l', op.src) == StartSeq(l.num);
    } else {
      assert Exists(l', op.src) && l'.accts[op.src].value.seqNo >= l.accts[op.src].value.seqNo;
    }
  }

  lemma ExecAdvances(l: State, op: Op, open: Sandwich)
    requires Exec(l, op, open).Some?
    ensures Moves(l, Exec(l, op, open).value.l)
  {
    if op.body.Pay? {
      PayAdvances(l, op.src, op.body.to, op.body.amount, open);
    } else {
      ExecTouchesOne(l, op, open);
      ExecRaisesFloor(l, op, open);
      OneAccountMoves(l, Exec(l, op, open).value.l, Touched(op));
    }
  }

  lemma {:induction false} ExecAllAdvances(l: State, ops: seq<Op>, open: Sandwich)
    requires ExecAll(l, ops, open).Some?
    ensures Moves(l, ExecAll(l, ops, open).value.l)
    decreases |ops|
  {
    if ops != [] {
      ExecAdvances(l, ops[0], open);
      var o := Exec(l, ops[0], open).value;
      ExecAllAdvances(o.l, ops[1..], o.open);
    }
  }

  lemma SpendSignerKeeps(l: State, i: Id, tx: Tx)
    ensures var l' := SpendSigner(l, i, tx);
            l'.num == l.num && l'.log == l.log && |l'.accts| == |l.accts| && forall j: Id :: Floor(l', j) == Floor(l, j)
  {
  }

  lemma {:induction false} SpendSignersKeeps(l: State, ops: seq<Op>, tx: Tx)
    ensures var l' := SpendSigners(l, ops, tx);
            l'.num == l.num && l'.log == l.log && |l'.accts| == |l.accts| && forall i: Id :: Floor(l', i) == Floor(l, i)
    decreases |ops|
  {
    if ops != [] {
      SpendSignerKeeps(l, ops[0].src, tx);
      SpendSignersKeeps(SpendSigner(l, ops[0].src, tx), ops[1..], tx);
    }
  }

  lemma ChargeAdvances(l: State, tx: Tx)
    requires SeqOk(l, tx)
    ensures Advances(l, Charge(l, tx)) && Charge(l, tx).log == l.log && Charge(l, tx).num == l.num
    ensures Floor(Charge(l, tx), tx.source) == tx.seqNo
  {
    var a := l.accts[tx.source].value;
    var l1 := Put(l, tx.source, Some(a.(seqNo := tx.seqNo)), 0);
    assert forall i: Id :: Floor(l, i) <= Floor(l1, i);
    SpendSignerKeeps(l1, tx.source, tx);
    SpendSignersKeeps(SpendSigner(l1, tx.source, tx), tx.ops, tx);
  }

  lemma LoggedAdvances(l: State, m: State, tx: Tx, ok: bool)
    requires Moves(l, m) && Floor(m, tx.source) >= tx.seqNo
    ensures var l' := m.(log := m.log + [Applied(tx, ok)]);
            Advances(l, l') && l'.num == l.num && Floor(l', tx.source) >= tx.seqNo
                && Entered(l'.log) == Entered(l.log) + [tx]
  {
    EnteredSnoc(m.log, Applied(tx, ok));
    var l' := m.(log := m.log + [Applied(tx, ok)]);
    assert forall i: Id :: Floor(l', i) == Floor(m, i);
  }

  lemma SettleAdvances(l: State, tx: Tx, fault: bool)
    requires SeqOk(l, tx)
    ensures Advances(l, Settle(l, tx, fault))
    ensures Settle(l, tx, fault).num == l.num
    ensures Floor(Settle(l, tx, fault), tx.source) >= tx.seqNo
    ensures Entered(Settle(l, tx, fault).log) == Entered(l.log) + [tx]
  {
    ChargeAdvances(l, tx);
    var charged := Charge(l, tx);
    var run := ExecAll(charged, tx.ops, map[]);
    if run.Some? {
      ExecAllAdvances(charged, tx.ops, map[]);
      LoggedAdvances(l, run.value.l, tx, true);
    }
    LoggedAdvances(l, charged, tx, false);
  }

  lemma NextAdvances(l: State, s: Step)
    ensures Advances(l, Next(l, s))
    ensures Entered(Next(l, s).log) ==
            if s.Submit? && Valid(l, s.envelope) then Entered(l.log) + [s.envelope.tx] else Entered(l.log)
  {
    match s
    case Submit(e, fault) => if Valid(l, e) { SettleAdvances(l, e.tx, fault); }
    case PayFrom(c, i, amount) => EnteredSnoc(l.log, Paid(Contract(c), Acct(i), amount));
    case Close =>
  }

  lemma {:induction false} RunAdvances(l: State, steps: seq<Step>)
    ensures Advances(l, Run(l, steps))
    decreases |steps|
  {
    if steps != [] {
      NextAdvances(l, steps[0]);
      RunAdvances(Next(l, steps[0]), steps[1..]);
    }
  }

  /** Every entered transaction sits at or below its account's floor, and per account they ascend. */
  ghost predicate OnePerSlot(l: State) {
    && (forall tx <- Entered(l.log) :: tx.seqNo <= Floor(l, tx.source))
    && Ascending(Entered(l.log))
  }

  ghost predicate Ascending(ts: seq<Tx>) {
    forall j, k | 0 <= j < k < |ts| && ts[j].source == ts[k].source :: ts[j].seqNo < ts[k].seqNo
  }

  lemma AscendingSnoc(ts: seq<Tx>, tx: Tx)
    requires Ascending(ts) && forall t <- ts | t.source == tx.source :: t.seqNo < tx.seqNo
    ensures Ascending(ts + [tx])
  {
  }

  lemma NextKeepsOnePerSlot(l: State, s: Step)
    requires OnePerSlot(l)
    ensures OnePerSlot(Next(l, s))
  {
    NextAdvances(l, s);
    var l' := Next(l, s);
    if s.Submit? && Valid(l, s.envelope) {
      var tx := s.envelope.tx;
      SettleAdvances(l, tx, s.fault);
      AscendingSnoc(Entered(l.log), tx);
    }
    forall tx <- Entered(l'.log) ensures tx.seqNo <= Floor(l', tx.source) {
      if tx in Entered(l.log) {
        assert Floor(l, tx.source) <= Floor(l', tx.source);
      }
    }
  }

  /**
   Over every run from a ledger with no history: one transaction per account and sequence number,
   hence every transaction at most once, whoever submits what.
   */
  lemma {:induction false} AtMostOnce(l: State, steps: seq<Step>)
    requires OnePerSlot(l)
    ensures OnePerSlot(Run(l, steps))
    ensures var ts := Entered(Run(l, steps).log);
            forall j, k | 0 <= j < k < |ts| :: ts[j] != ts[k]
    decreases |steps|
  {
    if steps != [] {
      NextKeepsOnePerSlot(l, steps[0]);
      AtMostOnce(Next(l, steps[0]), steps[1..]);
    }
  }

  /** A transaction whose slot is behind the floor and that never entered. */
  ghost predicate Dead(l: State, tx: Tx) {
    tx.seqNo <= Floor(l, tx.source) && tx !in Entered(l.log)
  }

  lemma {:induction false} DeadStaysDead(l: State, tx: Tx, steps: seq<Step>)
    requires Dead(l, tx)
    ensures Dead(Run(l, steps), tx)
    decreases |steps|
  {
    if steps != [] {
      NextAdvances(l, steps[0]);
      DeadStaysDead(Next(l, steps[0]), tx, steps[1..]);
    }
  }

  /** What entered stays entered. */
  lemma {:induction false} EnteredGrows(l: State, steps: seq<Step>)
    ensures Entered(l.log) <= Entered(Run(l, steps).log)
    decreases |steps|
  {
    if steps != [] {
      NextAdvances(l, steps[0]);
      EnteredGrows(Next(l, steps[0]), steps[1..]);
    }
  }
}
