/**
 Reserves: the sponsor's own count of sponsored entries is, in every reachable ledger, the sum of
 what the live accounts carry. Merging them all brings it back to zero, so the sponsor's spendable
 balance comes back up to fees.
 */
module Reserves {
  import opened Prelude
  import opened Ledger

  /** Two base reserves for the account, one for its trustline, one per remaining signer. */
  function Carried(o: Option<Account>): nat {
    if o.None? then 0
    else 2 * Unit(o.value.baseSponsored) + Unit(o.value.trustSponsored) + |o.value.sponsoredSigners|
  }

  function Total(accts: seq<Option<Account>>): nat {
    if accts == [] then 0 else Total(accts[..|accts| - 1]) + Carried(accts[|accts| - 1])
  }

  lemma {:induction false} TotalUpdate(accts: seq<Option<Account>>, i: nat, a: Option<Account>)
    requires i < |accts|
    ensures Total(accts[i := a]) == Total(accts) - Carried(accts[i]) + Carried(a)
  {
    var n := |accts| - 1;
    if i == n {
      assert accts[i := a][..n] == accts[..n];
    } else {
      assert accts[i := a][..n] == accts[..n][i := a];
      TotalUpdate(accts[..n], i, a);
    }
  }

  /** Sponsored parts belong to things that are there. */
  predicate Sound(o: Option<Account>) {
    o.Some? ==> o.value.sponsoredSigners <= o.value.signers.Keys && (o.value.trustSponsored ==> o.value.trust)
  }

  ghost predicate Balanced(l: State) {
    && l.sponsoring == Total(l.accts)
    && forall i | 0 <= i < |l.accts| :: Sound(l.accts[i])
  }

  lemma PutBalanced(l: State, i: Id, a: Option<Account>, delta: int)
    requires Balanced(l) && i < |l.accts| && Sound(a)
    requires delta == Carried(a) - Carried(l.accts[i])
    ensures Balanced(Put(l, i, a, delta))
  {
    TotalUpdate(l.accts, i, a);
  }

  lemma DropSignerBalanced(l: State, i: Id, hash: Tx)
    requires Balanced(l) && Exists(l, i)
    ensures Balanced(DropSigner(l, i, l.accts[i].value, hash))
  {
    var a := l.accts[i].value;
    if hash in a.signers {
      var a' := a.(signers := a.signers - {hash}, sponsoredSigners := a.sponsoredSigners - {hash});
      if hash in a.sponsoredSigners {
        assert a.sponsoredSigners == a'.sponsoredSigners + {hash};
      } else {
        assert a.sponsoredSigners == a'.sponsoredSigners;
      }
      PutBalanced(l, i, Some(a'), -(Unit(hash in a.sponsoredSigners) as int));
    }
  }

  lemma SignerSetBalanced(l: State, i: Id, hash: Tx, weight: nat, covered: bool)
    requires Balanced(l) && Exists(l, i)
    ensures Balanced(SignerSet(l, i, l.accts[i].value, hash, weight, covered))
  {
    var a := l.accts[i].value;
    assert Sound(l.accts[i]);
    if weight == 0 {
      DropSignerBalanced(l, i, hash);
    } else if hash in a.signers {
      PutBalanced(l, i, Some(a.(signers := a.signers[hash := weight])), 0);
    } else {
      assert hash !in a.sponsoredSigners;
      var sponsored := if covered then a.sponsoredSigners + {hash} else a.sponsoredSigners;
      PutBalanced(l, i, Some(a.(signers := a.signers[hash := weight], sponsoredSigners := sponsored)), Unit(covered));
    }
  }

  lemma CreditBalanced(l: State, from: Party, to: Party, amount: nat)
    requires Balanced(l) && Credit(l, from, to, amount).Some?
    ensures Balanced(Credit(l, from, to, amount).value)
  {
    if to.Acct? {
      var a := l.accts[to.id].value;
      PutBalanced(l, to.id, Some(a.(usdc := a.usdc + amount)), 0);
    }
  }

  /** Operations that change who exists or who holds a trustline. */
  lemma EntryOpBalanced(l: State, op: Op, open: Sandwich)
    requires Balanced(l) && Exec(l, op, open).Some?
    requires op.body.Create? || op.body.TrustAdd? || op.body.TrustDrop? || op.body.Merge?
    ensures Balanced(Exec(l, op, open).value.l)
  {
    var i := op.src;
    var a := l.accts[i].value;
    assert Sound(l.accts[i]);
    if op.body.Create? {
      var d := op.body.dest;
      PutBalanced(l, d, Some(Fresh(StartSeq(l.num), Covered(open, d))), 2 * Unit(Covered(open, d)));
    } else if op.body.TrustAdd? {
      if !a.trust { PutBalanced(l, i, Some(a.(trust := true, trustSponsored := Covered(open, i))),
          Unit(Covered(open, i))); }
    } else if op.body.TrustDrop? {
      PutBalanced(l, i, Some(a.(trust := false, trustSponsored := false)), -(Unit(a.trustSponsored) as int));
    } else {
      PutBalanced(l, i, None, -(MergeRelease(a) as int));
    }
  }

  lemma PayBalanced(l: State, i: Id, to: Party, amount: nat)
    requires Balanced(l) && Exec(l, Op(i, Pay(to, amount)), map[]).Some?
    ensures Balanced(Exec(l, Op(i, Pay(to, amount)), map[]).value.l)
  {
    var a := l.accts[i].value;
    assert Sound(l.accts[i]);
    PutBalanced(l, i, Some(a.(usdc := a.usdc - amount)), 0);
    CreditBalanced(Put(l, i, Some(a.(usdc := a.usdc - amount)), 0), Acct(i), to, amount);
  }

  lemma ExecBalanced(l: State, op: Op, open: Sandwich)
    requires Balanced(l) && Exec(l, op, open).Some?
    ensures Balanced(Exec(l, op, open).value.l)
  {
    var i := op.src;
    var a := l.accts[i].value;
    match op.body
    case Pay(to, amount) => PayBalanced(l, i, to, amount);
    case SetSigner(hash, weight) => SignerSetBalanced(l, i, hash, weight, Covered(open, i));
    case SetWeights(m, low, med, high) =>
      assert Sound(l.accts[i]);
      PutBalanced(l, i, Some(a.(master := m, low := low, med := med, high := high)), 0);
    case BumpTo(n) =>
      assert Sound(l.accts[i]);
      PutBalanced(l, i, Some(a.(seqNo := if n > a.seqNo then n else a.seqNo)), 0);
    case BeginSponsor(_) =>
    case EndSponsor =>
    case _ => EntryOpBalanced(l, op, open);
  }

  lemma {:induction false} ExecAllBalanced(l: State, ops: seq<Op>, open: Sandwich)
    requires Balanced(l) && ExecAll(l, ops, open).Some?
    ensures Balanced(ExecAll(l, ops, open).value.l)
    decreases |ops|
  {
    if ops != [] {
      ExecBalanced(l, ops[0], open);
      var o := Exec(l, ops[0], open).value;
      ExecAllBalanced(o.l, ops[1..], o.open);
    }
  }

  lemma SpendSignerBalanced(l: State, i: Id, tx: Tx)
    requires Balanced(l)
    ensures Balanced(SpendSigner(l, i, tx))
  {
    if Exists(l, i) { DropSignerBalanced(l, i, tx); }
  }

  lemma {:induction false} SpendSignersBalanced(l: State, ops: seq<Op>, tx: Tx)
    requires Balanced(l)
    ensures Balanced(SpendSigners(l, ops, tx))
    decreases |ops|
  {
    if ops != [] {
      SpendSignerBalanced(l, ops[0].src, tx);
      SpendSignersBalanced(SpendSigner(l, ops[0].src, tx), ops[1..], tx);
    }
  }

  lemma SettleBalanced(l: State, tx: Tx, fault: bool)
    requires Balanced(l) && Exists(l, tx.source)
    ensures Balanced(Settle(l, tx, fault))
  {
    var a := l.accts[tx.source].value;
    assert Sound(l.accts[tx.source]);
    var l1 := Put(l, tx.source, Some(a.(seqNo := tx.seqNo)), 0);
    PutBalanced(l, tx.source, Some(a.(seqNo := tx.seqNo)), 0);
    SpendSignerBalanced(l1, tx.source, tx);
    SpendSignersBalanced(SpendSigner(l1, tx.source, tx), tx.ops, tx);
    if ExecAll(Charge(l, tx), tx.ops, map[]).Some? {
      ExecAllBalanced(Charge(l, tx), tx.ops, map[]);
    }
  }

  lemma NextBalanced(l: State, s: Step)
    requires Balanced(l)
    ensures Balanced(Next(l, s))
  {
    match s
    case Submit(e, fault) => if Valid(l, e) { SettleBalanced(l, e.tx, fault); }
    case PayFrom(c, i, amount) =>
      if Credit(l, Contract(c), Acct(i), amount).Some? { CreditBalanced(l, Contract(c), Acct(i), amount); }
    case Close =>
  }

  /** Over any interleaving of creations, undos, locks, forwards, aborts and cleanups on any number of accounts. */
  lemma {:induction false} SponsoringIsTheSum(l: State, steps: seq<Step>)
    requires Balanced(l)
    ensures Balanced(Run(l, steps))
    decreases |steps|
  {
    if steps != [] {
      NextBalanced(l, steps[0]);
      SponsoringIsTheSum(Next(l, steps[0]), steps[1..]);
    }
  }

  // --- the sponsor's balance --------------------------------------------------------------------

  const BASE_RESERVE: nat := 5_000_000

  /** Spendable stroops: the raw balance less two reserves, the subentries and everything sponsored. */
  function Available(balance: nat, subentries: nat, sponsoring: int): nat {
    var reserve := BASE_RESERVE * (2 + subentries + sponsoring);
    if balance > reserve then balance - reserve else 0
  }

  /** An account with nothing else keeps one XLM back, and every subentry and every carried reserve half an XLM more. */
  lemma EachReserveCosts(balance: nat, subentries: nat, carried: nat)
    ensures Available(balance, 0, 0) == if balance > 10_000_000 then balance - 10_000_000 else 0
    ensures Available(balance, subentries, carried + 1) ==
            var before := Available(balance, subentries, carried); if before > 5_000_000 then before - 5_000_000 else 0
    ensures Available(balance, subentries + 1, carried) == Available(balance, subentries, carried + 1)
  {
  }

  ghost predicate NothingCarried(accts: seq<Option<Account>>) {
    forall i | 0 <= i < |accts| :: Carried(accts[i]) == 0
  }

  lemma {:induction false} TotalZero(accts: seq<Option<Account>>)
    requires NothingCarried(accts)
    ensures Total(accts) == 0
  {
    if accts != [] {
      TotalZero(accts[..|accts| - 1]);
    }
  }

  /** Once nothing sponsored is left alive, the sponsor spends what it could before, less the fees it paid. */
  lemma AllMergedRestoresBalance(l: State, steps: seq<Step>, balance: nat, subentries: nat, fees: nat)
    requires Balanced(l) && l.sponsoring == 0 && fees <= balance
    requires NothingCarried(Run(l, steps).accts)
    ensures var after := Available(balance - fees, subentries, Run(l, steps).sponsoring);
            var before := Available(balance, subentries, l.sponsoring);
            after == if before > fees then before - fees else 0
  {
    SponsoringIsTheSum(l, steps);
    TotalZero(Run(l, steps).accts);
  }
}
