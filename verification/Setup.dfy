/**
 The ledger's side of `createLandingAccount`, from a fresh key to a locked account, while the rest of
 the world keeps submitting. Until the function returns, the landing key's signatures are only on
 transactions the function itself has broadcast; NothingWithoutTheKey shows that nothing else can act
 for the account.
 */
module Setup {
  import opened Prelude
  import opened Ledger
  import opened Envelopes
  import opened Replay
  import opened Authority
  import Bridge

  /**
   A step of the world. Anybody submits anything; what carries the landing key's signature is something that
   was broadcast, or a challenge with sequence number 0.
   */
  ghost predicate WorldStep(s: Step, key: Id, sent: set<Tx>) {
    s.Submit? && PartyTo(s.envelope.tx, key) && key in s.envelope.signedBy ==>
      s.envelope.tx in sent || s.envelope.tx.seqNo == 0
  }

  ghost predicate World(steps: seq<Step>, key: Id, sent: set<Tx>) {
    forall s <- steps :: WorldStep(s, key, sent)
  }

  lemma WorldAppend(s: seq<Step>, t: seq<Step>, key: Id, sent: set<Tx>, sent': set<Tx>)
    requires World(s, key, sent) && World(t, key, sent') && sent <= sent'
    ensures World(s + t, key, sent')
  {
  }

  /** The challenges that the key signs can never be submitted. */
  lemma ChallengeIsNeverValid(l: State, e: Envelope)
    requires e.tx.seqNo == 0
    ensures !Valid(l, e)
  {
  }

  // --- before the lock --------------------------------------------------------------------------

  /** An account as creation leaves it; a trustline is only ever there because our own creation put it there. */
  ghost predicate Untouched(a: Account) {
    && a.master == 1 && a.low == 0 && a.med == 0 && a.high == 0
    && a.signers == map[] && a.sponsoredSigners == {}
    && a.seqNo % 0x1_0000_0000 == 0
    && (a.trust ==> a.baseSponsored && a.trustSponsored)
    && (!a.trust ==> a.usdc == 0)
  }

  /** Nothing acts for an untouched (or missing) account without the key's signature. */
  lemma NothingWithoutTheKey(l: State, key: Id, e: Envelope)
    requires Exists(l, key) ==> Untouched(l.accts[key].value)
    requires Valid(l, e) && PartyTo(e.tx, key)
    ensures key in e.signedBy
  {
    assert PreWeight(View(l, key), e.tx) == 0;
    if e.tx.source != key {
      var op :| op in e.tx.ops && op.src == key;
      assert Authorizes(View(l, op.src), e.tx, op.src in e.signedBy, LevelOf(op.body));
    }
  }

  ghost predicate CreatesOnly(sent: set<Tx>, key: Id) {
    forall tx <- sent :: exists n: nat :: tx == CreateTx(key, n)
  }

  /** Our creation went through. */
  ghost predicate OursCreated(l: State, key: Id) {
    exists n: nat :: Applied(CreateTx(key, n), true) in l.log
  }

  /**
   Before the lock is built: the account is missing or untouched, and has a trustline exactly when our creation
   went through.
   */
  ghost predicate PreLock(l: State, key: Id) {
    && (Exists(l, key) ==> Untouched(l.accts[key].value))
    && (OursCreated(l, key) <==> Exists(l, key) && l.accts[key].value.trust)
  }

  /** A creation that finds the account already there fails and leaves it alone. */
  lemma CreateOnExisting(l: State, key: Id, n: nat, fault: bool)
    requires key != SPONSOR && Exists(l, key) && Untouched(l.accts[key].value) && SeqOk(l, CreateTx(key, n))
    ensures Bystander(l, Settle(l, CreateTx(key, n), fault), key)
    ensures var l' := Settle(l, CreateTx(key, n), fault); l'.log == l.log + [Applied(CreateTx(key, n), false)]
  {
    var tx := CreateTx(key, n);
    ChargeSetup(l, tx, key);
    var c := Charge(l, tx);
    var open1: Sandwich := map[key := SPONSOR];
    assert tx.ops[1..] == [tx.ops[1], tx.ops[2], tx.ops[3]];
    assert ExecAll(c, tx.ops, map[]) == ExecAll(c, tx.ops[1..], open1);
    assert Exec(c, tx.ops[1], open1) == None;
    Snoc(c.log, Applied(tx, false), key);
  }

  /** Charging a sponsor-sourced setup transaction does not touch the landing account. */
  lemma {:induction false} SpendSetup(l: State, ops: seq<Op>, tx: Tx, key: Id)
    requires key != SPONSOR && (forall op <- ops :: op.src == SPONSOR || op.src == key)
    requires Exists(l, key) ==> l.accts[key].value.signers == map[]
    ensures var l' := SpendSigners(l, ops, tx);
            l'.log == l.log && l'.num == l.num && |l'.accts| == |l.accts|
            && (key < |l.accts| ==> l'.accts[key] == l.accts[key]) && Exists(l', SPONSOR) == Exists(l, SPONSOR)
    decreases |ops|
  {
    if ops != [] {
      SpendSetup(SpendSigner(l, ops[0].src, tx), ops[1..], tx, key);
    }
  }

  lemma ChargeSetup(l: State, tx: Tx, key: Id)
    requires key != SPONSOR && tx.source == SPONSOR && Exists(l, SPONSOR)
    requires forall op <- tx.ops :: op.src == SPONSOR || op.src == key
    requires Exists(l, key) ==> l.accts[key].value.signers == map[]
    ensures var c := Charge(l, tx);
            c.log == l.log && c.num == l.num && |c.accts| == |l.accts|
            && (key < |l.accts| ==> c.accts[key] == l.accts[key]) && Exists(c, SPONSOR)
  {
    var a := l.accts[SPONSOR].value;
    var l1 := Put(l, SPONSOR, Some(a.(seqNo := tx.seqNo)), 0);
    SpendSetup(SpendSigner(l1, SPONSOR, tx), tx.ops, tx, key);
  }

  /** A creation that finds no account makes an untouched one with a sponsored trustline, or makes nothing. */
  lemma CreateOnMissing(l: State, key: Id, n: nat, fault: bool)
    requires key != SPONSOR && key < |l.accts| && !Exists(l, key) && SeqOk(l, CreateTx(key, n))
    ensures var l' := Settle(l, CreateTx(key, n), fault);
            if Exists(l', key)
            then Untouched(l'.accts[key].value) && l'.accts[key].value.trust
                && l'.log == l.log + [Applied(CreateTx(key, n), true)]
            else l'.log == l.log + [Applied(CreateTx(key, n), false)]
  {
    var tx := CreateTx(key, n);
    ChargeSetup(l, tx, key);
    var c := Charge(l, tx);
    var open1: Sandwich := map[key := SPONSOR];
    var r1 := Exec(c, tx.ops[1], open1).value;
    var r2 := Exec(r1.l, tx.ops[2], open1).value;
    var r3 := Exec(r2.l, tx.ops[3], open1).value;
    assert tx.ops[1..][1..][1..][1..] == [];
    assert ExecAll(c, tx.ops, map[]) == ExecAll(c, tx.ops[1..], open1);
    assert ExecAll(c, tx.ops[1..], open1) == ExecAll(r1.l, tx.ops[1..][1..], open1);
    assert ExecAll(r1.l, tx.ops[1..][1..], open1) == ExecAll(r2.l, tx.ops[1..][1..][1..], open1);
    assert ExecAll(r2.l, tx.ops[1..][1..][1..], open1) == ExecAll(r3.l, [], r3.open);
    assert r3.open == map[];
  }

  /**
   The merge back after the anchor refused: it takes the account away exactly when nobody has paid it and
   a ledger has closed since its creation.
   */
  lemma UndoOutcome(l: State, key: Id, n: nat, fault: bool)
    requires key != SPONSOR && Exists(l, key) && Untouched(l.accts[key].value) && l.accts[key].value.trust
    requires SeqOk(l, UndoTx(key, n))
    ensures var l' := Settle(l, UndoTx(key, n), fault);
            var a := l.accts[key].value;
            && (!Exists(l', key) <==> !fault && a.usdc == 0 && a.seqNo < StartSeq(l.num))
            && (Exists(l', key) ==> l'.accts[key] == l.accts[key])
  {
    var tx := UndoTx(key, n);
    ChargeSetup(l, tx, key);
    RunMergeBack(Charge(l, tx), key);
  }

  /** Transactions of others leave the account missing, or create it bare, or pay it if it has a trustline. */
  ghost predicate Unclaimed(l: State, key: Id) {
    Exists(l, key) ==> Untouched(l.accts[key].value)
  }

  lemma OneOpCannotClaim(l: State, op: Op, open: Sandwich, key: Id)
    requires !Exists(l, key) && op.src != key && Exec(l, op, open).Some?
    ensures var l' := Exec(l, op, open).value.l;
            Exists(l', key) ==> Untouched(l'.accts[key].value) && !l'.accts[key].value.trust
  {
    if op.body == Create(key) {
      assert Exec(l, op, open).value.l.accts[key].value == Fresh(StartSeq(l.num), Covered(open, key));
    }
  }

  lemma {:induction false} OthersCannotClaim(l: State, ops: seq<Op>, open: Sandwich, key: Id)
    requires Unclaimed(l, key) && !Exists(l, key)
    requires (forall op <- ops :: op.src != key) && ExecAll(l, ops, open).Some?
    ensures var l' := ExecAll(l, ops, open).value.l;
        Unclaimed(l', key)
        && (Exists(l', key) ==> !l'.accts[key].value.trust)
    decreases |ops|
  {
    if ops != [] {
      var o := Exec(l, ops[0], open).value;
      OneOpCannotClaim(l, ops[0], open, key);
      if Exists(o.l, key) {
        ExecAllBystander(o.l, ops[1..], o.open, key);
      } else {
        OthersCannotClaim(o.l, ops[1..], o.open, key);
      }
    }
  }

  lemma {:induction false} SpendKeepsMissing(l: State, ops: seq<Op>, tx: Tx, key: Id)
    requires !Exists(l, key)
    ensures !Exists(SpendSigners(l, ops, tx), key)
    decreases |ops|
  {
    if ops != [] {
      SpendKeepsMissing(SpendSigner(l, ops[0].src, tx), ops[1..], tx, key);
    }
  }

  lemma OtherStepKeepsUnclaimed(l: State, s: Step, key: Id)
    requires Unclaimed(l, key)
    requires s.Submit? && Valid(l, s.envelope) ==> !PartyTo(s.envelope.tx, key)
    ensures Unclaimed(Next(l, s), key)
    ensures Exists(l, key) ==> Bystander(l, Next(l, s), key)
    ensures !Exists(l, key) && Exists(Next(l, s), key) ==> !Next(l, s).accts[key].value.trust
  {
    if Exists(l, key) {
      NextBystander(l, s, key);
    } else if s.Submit? && Valid(l, s.envelope) {
      var tx := s.envelope.tx;
      var a := l.accts[tx.source].value;
      var l1 := Put(l, tx.source, Some(a.(seqNo := tx.seqNo)), 0);
      SpendKeepsMissing(SpendSigner(l1, tx.source, tx), tx.ops, tx, key);
      forall op <- tx.ops ensures op.src != key { }
      if ExecAll(Charge(l, tx), tx.ops, map[]).Some? {
        OthersCannotClaim(Charge(l, tx), tx.ops, map[], key);
      }
    }
  }

  // --- who can act during the setup -------------------------------------------------------------

  /** As the lock leaves it: the master key alone is not enough, and the only signers are for its own transactions. */
  ghost predicate Bolted(a: Account, key: Id) {
    && a.master == 1 && a.low == 2 && a.med == 2 && a.high == 2
    && forall h <- a.signers :: a.signers[h] == 1 && h.source == key
  }

  ghost predicate Shut(l: State, key: Id) {
    Exists(l, key) ==> Untouched(l.accts[key].value) || Bolted(l.accts[key].value, key)
  }

  /** Nothing acts for the account without its key's signature, and once it is bolted only what it is the source of. */
  lemma NeedsTheKey(l: State, key: Id, e: Envelope)
    requires Shut(l, key) && Valid(l, e) && PartyTo(e.tx, key)
    ensures key in e.signedBy
    ensures Exists(l, key) && Bolted(l.accts[key].value, key) ==> e.tx.source == key
  {
    if !(Exists(l, key) && Bolted(l.accts[key].value, key)) { NothingWithoutTheKey(l, key, e); }
  }

  /** So what is included for it is something that was broadcast. */
  lemma ActsInSetup(l: State, s: Step, key: Id, sent: set<Tx>)
    requires Shut(l, key) && WorldStep(s, key, sent)
    requires s.Submit? && Valid(l, s.envelope) && PartyTo(s.envelope.tx, key)
    ensures s.envelope.tx in sent
    ensures Exists(l, key) && Bolted(l.accts[key].value, key) ==> s.envelope.tx.source == key
  {
    NeedsTheKey(l, key, s.envelope);
  }

  lemma StepKeepsPreLock(l: State, s: Step, key: Id, sent: set<Tx>)
    requires key != SPONSOR && key < |l.accts| && PreLock(l, key) && CreatesOnly(sent, key) && WorldStep(s, key, sent)
    ensures PreLock(Next(l, s), key)
    ensures Exists(l, key) ==> Bystander(l, Next(l, s), key)
  {
    var l' := Next(l, s);
    if s.Submit? && Valid(l, s.envelope) && PartyTo(s.envelope.tx, key) {
      ActsInSetup(l, s, key, sent);
      var n: nat :| s.envelope.tx == CreateTx(key, n);
      if Exists(l, key) {
        CreateOnExisting(l, key, n, s.fault);
      } else {
        CreateOnMissing(l, key, n, s.fault);
      }
    } else {
      OtherStepKeepsUnclaimed(l, s, key);
    }
    StepCreates(l, s, key);
  }

  /** What a step adds to the log about our creation. */
  lemma StepCreates(l: State, s: Step, key: Id)
    ensures OursCreated(l, key) ==> OursCreated(Next(l, s), key)
    ensures OursCreated(Next(l, s), key) && !OursCreated(l, key) ==>
              s.Submit? && Valid(l, s.envelope) && PartyTo(s.envelope.tx, key)
              && Next(l, s).log != [] && Next(l, s).log[|Next(l, s).log| - 1] == Applied(s.envelope.tx, true)
  {
    if OursCreated(l, key) {
      var n: nat :| Applied(CreateTx(key, n), true) in l.log;
      NextApplied(l, s, CreateTx(key, n), true);
    } else if OursCreated(Next(l, s), key) {
      var n: nat :| Applied(CreateTx(key, n), true) in Next(l, s).log;
      NextApplied(l, s, CreateTx(key, n), true);
      assert CreateTx(key, n).ops[2].src == key;
    }
  }

  /** While only creations have been broadcast the account stays as it was created; its sequence stands still. */
  lemma {:induction false} WorldKeepsPreLock(l: State, steps: seq<Step>, key: Id, sent: set<Tx>)
    requires key != SPONSOR && key < |l.accts| && PreLock(l, key) && CreatesOnly(sent, key) && World(steps, key, sent)
    ensures PreLock(Run(l, steps), key) && |Run(l, steps).accts| == |l.accts|
    ensures Exists(l, key) ==> Bystander(l, Run(l, steps), key)
    decreases |steps|
  {
    if steps != [] {
      assert WorldStep(steps[0], key, sent);
      var l1 := Next(l, steps[0]);
      StepKeepsPreLock(l, steps[0], key, sent);
      NextAdvances(l, steps[0]);
      WorldKeepsPreLock(l1, steps[1..], key, sent);
      if Exists(l, key) { BystanderTransitive(l, l1, Run(l, steps), key); }
    }
  }

  // --- the lock ---------------------------------------------------------------------------------

  /** The tracker of a bridge that starts now, with whatever USDC it already holds. */
  function OpenTracker(l: State, p: Plan): Tracker {
    var held := View(l, p.bridge).usdc;
    var ins := Ins(l.log, p.bridge);
    var outs := Outs(l.log, p.bridge);
    Tracker(Bridge.Bridge(p.amount, p.abortable, held, Bridge.Open, Bridge.Pending), held, ins, outs, ins, outs)
  }

  /** Locked, and no envelope used yet. */
  ghost predicate LockedOpen(l: State, p: Plan) {
    Tracks(l, p, OpenTracker(l, p))
  }

  /** Locked without a trustline: what the lock makes of an account that somebody else created. */
  ghost predicate LockedBare(l: State, p: Plan) {
    && Proper(p) && Exists(l, p.bridge)
    && var a := l.accts[p.bridge].value; a == LockedAccount(a, p) && !a.trust && a.seqNo == p.seqNo
  }

  ghost predicate Locked(l: State, p: Plan) {
    Exists(l, p.bridge) && if l.accts[p.bridge].value.trust then LockedOpen(l, p) else LockedBare(l, p)
  }

  /** Still waiting for the lock, with the sequence the envelopes were built for. */
  ghost predicate Unlocked(l: State, p: Plan) {
    && Proper(p) && Exists(l, p.bridge)
    && Untouched(l.accts[p.bridge].value) && l.accts[p.bridge].value.seqNo == p.seqNo
    && forall n: nat :: Applied(LockTx(p, n), true) !in l.log
  }

  ghost predicate SetupOnly(sent: set<Tx>, p: Plan) {
    forall tx <- sent :: exists n: nat :: tx == CreateTx(p.bridge, n) || tx == LockTx(p, n)
  }

  /** The account the lock leaves behind. */
  function LockedAccount(a: Account, p: Plan): Account {
    var signers := map[ForwardTx(p) := 1] + (if p.abortable then map[AbortTx(p) := 1]
        else map[]) + map[CleanupTx(p) := 1];
    a.(master := 1, low := 2, med := 2, high := 2, signers := signers, sponsoredSigners := signers.Keys)
  }

  lemma ExecAllHead(l: State, op: Op, rest: seq<Op>, open: Sandwich, r: Outcome)
    requires Exec(l, op, open) == Some(r)
    ensures ExecAll(l, [op] + rest, open) == ExecAll(r.l, rest, r.open)
  {
    assert ([op] + rest)[1..] == rest;
  }

  /** Adding one sponsored signer of weight 1, inside the sandwich. */
  function WithSigner(a: Account, h: Tx): Account {
    a.(signers := a.signers[h := 1], sponsoredSigners := a.sponsoredSigners + {h})
  }

  lemma AddSigner(c: State, b: Id, h: Tx, rest: seq<Op>, open: Sandwich) returns (r: State)
    requires Exists(c, b) && h !in c.accts[b].value.signers && Covered(open, b)
    ensures ExecAll(c, [Op(b, SetSigner(h, 1))] + rest, open) == ExecAll(r, rest, open)
    ensures Exists(r, b) && r.accts[b].value == WithSigner(c.accts[b].value, h) && r.log == c.log
  {
    var o := Exec(c, Op(b, SetSigner(h, 1)), open).value;
    r := o.l;
    ExecAllHead(c, Op(b, SetSigner(h, 1)), rest, open, o);
  }

  lemma RunLockTail(c: State, b: Id, open: Sandwich)
    requires Exists(c, b) && open == map[b := SPONSOR]
    ensures var a := c.accts[b].value;
            ExecAll(c, LockTail(b), open) == Some(Outcome(Put(c, b,
                Some(a.(master := 1, low := 2, med := 2, high := 2)), 0), map[]))
  {
    var a := c.accts[b].value;
    var l1 := Put(c, b, Some(a.(master := 1, low := 2, med := 2, high := 2)), 0);
    ExecAllHead(c, Op(b, SetWeights(1, 2, 2, 2)), [Op(b, EndSponsor)] + [], open, Outcome(l1, open));
    assert open - {b} == map[];
    ExecAllHead(l1, Op(b, EndSponsor), [], open, Outcome(l1, map[]));
  }

  /** What the lock's operations make of an untouched account. */
  lemma RunLock(c: State, p: Plan)
    requires Proper(p) && Exists(c, SPONSOR) && Exists(c, p.bridge) && Untouched(c.accts[p.bridge].value)
    ensures var run := ExecAll(c, LockOps(p), map[]);
            && run.Some? && run.value.open == map[] && run.value.l.log == c.log
            && Exists(run.value.l, p.bridge) && run.value.l.accts[p.bridge].value ==
                LockedAccount(c.accts[p.bridge].value, p)
  {
    var b := p.bridge;
    var open: Sandwich := map[b := SPONSOR];
    var tail := if p.abortable then [Op(b, SetSigner(AbortTx(p), 1))] + LockTail(b) else LockTail(b);
    var withCleanup := [Op(b, SetSigner(CleanupTx(p), 1))] + tail;
    ExecAllHead(c, Op(SPONSOR, BeginSponsor(b)), [Op(b, SetSigner(ForwardTx(p), 1))] + withCleanup, map[],
        Outcome(c, open));
    var r1 := AddSigner(c, b, ForwardTx(p), withCleanup, open);
    var r2 := AddSigner(r1, b, CleanupTx(p), tail, open);
    var r3 := r2;
    if p.abortable { r3 := AddSigner(r2, b, AbortTx(p), LockTail(b), open); }
    RunLockTail(r3, b, open);
    LockedSigners(c.accts[b].value, p);
  }

  lemma LockedSigners(a: Account, p: Plan)
    requires a.signers == map[] && a.sponsoredSigners == {}
    ensures var two := WithSigner(WithSigner(a, ForwardTx(p)), CleanupTx(p));
            var all := if p.abortable then WithSigner(two, AbortTx(p)) else two;
            all.(master := 1, low := 2, med := 2, high := 2) == LockedAccount(a, p)
  {
    var two := WithSigner(WithSigner(a, ForwardTx(p)), CleanupTx(p));
    var all := if p.abortable then WithSigner(two, AbortTx(p)) else two;
    assert all.signers == LockedAccount(a, p).signers;
    assert all.sponsoredSigners == LockedAccount(a, p).signers.Keys;
  }

  lemma LockedAccountTracks(l: State, p: Plan, a: Account)
    requires Proper(p) && Exists(l, p.bridge) && Untouched(a) && a.trust && a.seqNo == p.seqNo
    requires l.accts[p.bridge].value == LockedAccount(a, p)
    ensures LockedOpen(l, p)
  {
    var b := OpenTracker(l, p).bridge;
    assert SignersLeft(p, b) == LockedAccount(a, p).signers;
  }

  /** The lock either takes hold completely or leaves the account as it was; the trustline is not its business. */
  lemma LockStep(l: State, p: Plan, n: nat, fault: bool)
    requires Unlocked(l, p) && SeqOk(l, LockTx(p, n))
    ensures var l' := Settle(l, LockTx(p, n), fault);
            && Exists(l', p.bridge) && l'.accts[p.bridge].value.trust == l.accts[p.bridge].value.trust
            && l'.log == l.log + [Applied(LockTx(p, n), !fault)]
            && (if fault then l'.accts[p.bridge] == l.accts[p.bridge] else Locked(l', p))
  {
    var tx := LockTx(p, n);
    forall op <- tx.ops ensures op.src == SPONSOR || op.src == p.bridge { }
    ChargeSetup(l, tx, p.bridge);
    var c := Charge(l, tx);
    RunLock(c, p);
    var run := ExecAll(c, tx.ops, map[]).value;
    var l' := Settle(l, tx, fault);
    var a := l.accts[p.bridge].value;
    if !fault {
      assert l'.accts == run.l.accts;
      if a.trust { LockedAccountTracks(l', p, a); }
    }
  }

  /** The state between building the envelopes and returning the plan. */
  ghost predicate Locking(l: State, p: Plan) {
    Unlocked(l, p) || Locked(l, p)
  }

  /**
   The account is still there, with the trustline it had or without one as before; our creation has not gone
   through since.
   */
  ghost predicate SameOrigin(l: State, l': State, b: Id) {
    && Exists(l, b) && Exists(l', b) && l'.accts[b].value.trust == l.accts[b].value.trust
    && (OursCreated(l', b) <==> OursCreated(l, b))
  }

  lemma LockedIsBolted(l: State, p: Plan)
    requires Locked(l, p)
    ensures Bolted(l.accts[p.bridge].value, p.bridge)
  {
  }

  /** No transaction of the setup acts for a locked account any more. */
  lemma SetupIsOver(l: State, s: Step, p: Plan, sent: set<Tx>)
    requires Locked(l, p) && SetupOnly(sent, p) && WorldStep(s, p.bridge, sent) && p.bridge != SPONSOR && s.Submit?
    ensures !(Valid(l, s.envelope) && PartyTo(s.envelope.tx, p.bridge))
  {
    LockedIsBolted(l, p);
    if Valid(l, s.envelope) && PartyTo(s.envelope.tx, p.bridge) { ActsInSetup(l, s, p.bridge, sent); }
  }

  lemma BystanderKeepsOpen(l: State, l': State, p: Plan)
    requires LockedOpen(l, p) && Bystander(l, l', p.bridge)
    ensures LockedOpen(l', p)
  {
  }

  lemma BystanderKeepsLocked(l: State, l': State, p: Plan)
    requires Locked(l, p) && Bystander(l, l', p.bridge)
    ensures Locked(l', p)
  {
    if l.accts[p.bridge].value.trust { BystanderKeepsOpen(l, l', p); }
  }

  lemma LockedIgnoresSetup(l: State, s: Step, p: Plan, sent: set<Tx>)
    requires Locked(l, p) && SetupOnly(sent, p) && WorldStep(s, p.bridge, sent)
    ensures Locked(Next(l, s), p) && SameOrigin(l, Next(l, s), p.bridge)
  {
    if s.Submit? { SetupIsOver(l, s, p, sent); }
    NextBystander(l, s, p.bridge);
    StepCreates(l, s, p.bridge);
    BystanderKeepsLocked(l, Next(l, s), p);
  }

  lemma BystanderKeepsUnlocked(l: State, l': State, p: Plan)
    requires Unlocked(l, p) && Bystander(l, l', p.bridge)
    requires forall n: nat :: Applied(LockTx(p, n), true) !in l'.log
    ensures Unlocked(l', p)
  {
  }

  lemma LockAttempt(l: State, s: Step, p: Plan, n: nat)
    requires Unlocked(l, p) && s.Submit? && Valid(l, s.envelope) && s.envelope.tx == LockTx(p, n)
    ensures Locking(Next(l, s), p) && SameOrigin(l, Next(l, s), p.bridge)
  {
    LockStep(l, p, n, s.fault);
    assert PartyTo(LockTx(p, n), p.bridge) by { assert LockTx(p, n).ops[1].src == p.bridge; }
    StepCreates(l, s, p.bridge);
    LockIsNotCreate(p, n);
    CreatedByCreation(l, s, p.bridge);
    if s.fault { NoLockLogged(l, s, p); }
  }

  lemma UnlockedStep(l: State, s: Step, p: Plan, sent: set<Tx>)
    requires Unlocked(l, p) && SetupOnly(sent, p) && WorldStep(s, p.bridge, sent)
    ensures Locking(Next(l, s), p) && SameOrigin(l, Next(l, s), p.bridge)
  {
    var b := p.bridge;
    if s.Submit? && Valid(l, s.envelope) && PartyTo(s.envelope.tx, b) {
      ActsInSetup(l, s, b, sent);
      var n: nat :| s.envelope.tx == CreateTx(b, n) || s.envelope.tx == LockTx(p, n);
      if s.envelope.tx == LockTx(p, n) {
        LockAttempt(l, s, p, n);
        return;
      }
      CreateOnExisting(l, b, n, s.fault);
    } else {
      NextBystander(l, s, b);
    }
    StepCreates(l, s, b);
    NoLockLogged(l, s, p);
    BystanderKeepsUnlocked(l, Next(l, s), p);
  }

  /** Only a creation can log a creation. */
  lemma CreatedByCreation(l: State, s: Step, key: Id)
    requires s.Submit? && forall n: nat :: s.envelope.tx != CreateTx(key, n)
    ensures OursCreated(Next(l, s), key) <==> OursCreated(l, key)
  {
    StepCreates(l, s, key);
    if OursCreated(Next(l, s), key) {
      var n: nat :| Applied(CreateTx(key, n), true) in Next(l, s).log;
      NextApplied(l, s, CreateTx(key, n), true);
    }
  }

  lemma LockIsNotCreate(p: Plan, n: nat)
    ensures forall m: nat :: LockTx(p, n) != CreateTx(p.bridge, m)
  {
    forall m: nat ensures LockTx(p, n) != CreateTx(p.bridge, m) {
      assert LockTx(p, n).ops[1].body.SetSigner? && CreateTx(p.bridge, m).ops[1].body.Create?;
    }
  }

  /** A step that does not log the success of a transaction acting for the account logs no lock. */
  lemma NoLockLogged(l: State, s: Step, p: Plan)
    requires forall n: nat :: Applied(LockTx(p, n), true) !in l.log
    requires s.Submit? && Valid(l, s.envelope) && PartyTo(s.envelope.tx, p.bridge) ==>
               Next(l, s).log != [] && Next(l, s).log[|Next(l, s).log| - 1] == Applied(s.envelope.tx, false)
    ensures forall n: nat :: Applied(LockTx(p, n), true) !in Next(l, s).log
  {
    forall n: nat ensures Applied(LockTx(p, n), true) !in Next(l, s).log {
      NextApplied(l, s, LockTx(p, n), true);
      assert LockTx(p, n).ops[1].src == p.bridge;
    }
  }

  /** From the sequence read to the return of the plan, with creations and lock attempts in flight. */
  lemma {:induction false} WorldKeepsLocking(l: State, steps: seq<Step>, p: Plan, sent: set<Tx>)
    requires Locking(l, p) && SetupOnly(sent, p) && World(steps, p.bridge, sent)
    ensures Locking(Run(l, steps), p) && SameOrigin(l, Run(l, steps), p.bridge)
    decreases |steps|
  {
    if steps != [] {
      assert WorldStep(steps[0], p.bridge, sent);
      if Locked(l, p) { LockedIgnoresSetup(l, steps[0], p, sent); } else { UnlockedStep(l, steps[0], p, sent); }
      WorldKeepsLocking(Next(l, steps[0]), steps[1..], p, sent);
    }
  }

  // --- nothing unsent ---------------------------------------------------------------------------

  ghost predicate IsSetup(tx: Tx, key: Id) {
    || (exists n: nat :: tx == CreateTx(key, n))
    || (exists p: Plan, n: nat :: Proper(p) && p.bridge == key && tx == LockTx(p, n))
  }

  ghost predicate Setups(sent: set<Tx>, key: Id) {
    forall tx <- sent :: IsSetup(tx, key)
  }

  lemma AnyLockKeepsShut(l: State, p: Plan, n: nat, fault: bool)
    requires Proper(p) && p.bridge != SPONSOR && SeqOk(l, LockTx(p, n)) && Exists(l, p.bridge)
    requires Untouched(l.accts[p.bridge].value)
    ensures Shut(Settle(l, LockTx(p, n), fault), p.bridge)
  {
    var tx := LockTx(p, n);
    forall op <- tx.ops ensures op.src == SPONSOR || op.src == p.bridge { }
    ChargeSetup(l, tx, p.bridge);
    RunLock(Charge(l, tx), p);
  }

  lemma LockOfMissingFails(l: State, p: Plan, n: nat, fault: bool)
    requires Proper(p) && p.bridge != SPONSOR && SeqOk(l, LockTx(p, n)) && !Exists(l, p.bridge)
    ensures !Exists(Settle(l, LockTx(p, n), fault), p.bridge)
  {
    var tx := LockTx(p, n);
    forall op <- tx.ops ensures op.src == SPONSOR || op.src == p.bridge { }
    var a := l.accts[SPONSOR].value;
    var l1 := Put(l, SPONSOR, Some(a.(seqNo := tx.seqNo)), 0);
    SpendKeepsMissing(SpendSigner(l1, SPONSOR, tx), tx.ops, tx, p.bridge);
    var c := Charge(l, tx);
    var open: Sandwich := map[p.bridge := SPONSOR];
    assert tx.ops[0].body.BeginSponsor? && tx.ops[1].src == p.bridge;
    assert ExecAll(c, tx.ops, map[]) == None by {
      assert Exec(c, tx.ops[0], map[]) == Some(Outcome(c, open)) || Exec(c, tx.ops[0], map[]) == None;
      assert tx.ops[1..][0] == tx.ops[1] && Exec(c, tx.ops[1], open) == None;
      assert ExecAll(c, tx.ops[1..], open) == None;
    }
  }

  lemma SetupKeepsShut(l: State, s: Step, key: Id)
    requires key != SPONSOR && key < |l.accts| && Shut(l, key) && (Exists(l, key) ==> Untouched(l.accts[key].value))
    requires s.Submit? && Valid(l, s.envelope) && IsSetup(s.envelope.tx, key)
    ensures Shut(Next(l, s), key)
  {
    if n: nat :| s.envelope.tx == CreateTx(key, n) {
      if Exists(l, key) { CreateOnExisting(l, key, n, s.fault); } else { CreateOnMissing(l, key, n, s.fault); }
    } else {
      var p: Plan, n: nat :| Proper(p) && p.bridge == key && s.envelope.tx == LockTx(p, n);
      if Exists(l, key) { AnyLockKeepsShut(l, p, n, s.fault); } else { LockOfMissingFails(l, p, n, s.fault); }
    }
  }

  lemma BystanderKeepsShut(l: State, l': State, key: Id)
    requires Shut(l, key) && Bystander(l, l', key)
    ensures Shut(l', key)
  {
  }

  lemma StepKeepsShut(l: State, s: Step, key: Id, sent: set<Tx>)
    requires key != SPONSOR && key < |l.accts| && Shut(l, key) && Setups(sent, key) && WorldStep(s, key, sent)
    ensures Shut(Next(l, s), key)
  {
    if s.Submit? && Valid(l, s.envelope) && PartyTo(s.envelope.tx, key) {
      ActsInSetup(l, s, key, sent);
      assert s.envelope.tx.source == SPONSOR;
      SetupKeepsShut(l, s, key);
    } else if Exists(l, key) {
      NextBystander(l, s, key);
      BystanderKeepsShut(l, Next(l, s), key);
    } else {
      OtherStepKeepsUnclaimed(l, s, key);
    }
  }

  /** What was never broadcast never enters, whatever is submitted without the key's signature. */
  lemma {:induction false} UnsentNeverEnters(l: State, steps: seq<Step>, key: Id, sent: set<Tx>, tx: Tx)
    requires key != SPONSOR && key < |l.accts| && Shut(l, key) && Setups(sent, key)
    requires World(steps, key, sent) && PartyTo(tx, key) && tx !in sent && tx !in Entered(l.log)
    ensures tx !in Entered(Run(l, steps).log)
    decreases |steps|
  {
    if steps != [] {
      assert WorldStep(steps[0], key, sent);
      NextAdvances(l, steps[0]);
      if steps[0].Submit? && Valid(l, steps[0].envelope) && steps[0].envelope.tx == tx {
        ActsInSetup(l, steps[0], key, sent);
      }
      StepKeepsShut(l, steps[0], key, sent);
      UnsentNeverEnters(Next(l, steps[0]), steps[1..], key, sent, tx);
    }
  }

  lemma {:induction false} WorldKeepsShut(l: State, steps: seq<Step>, key: Id, sent: set<Tx>)
    requires key != SPONSOR && key < |l.accts| && Shut(l, key) && Setups(sent, key) && World(steps, key, sent)
    ensures Shut(Run(l, steps), key) && |Run(l, steps).accts| == |l.accts|
    decreases |steps|
  {
    if steps != [] {
      assert WorldStep(steps[0], key, sent);
      NextAdvances(l, steps[0]);
      StepKeepsShut(l, steps[0], key, sent);
      WorldKeepsShut(Next(l, steps[0]), steps[1..], key, sent);
    }
  }

  // --- an account locked without a trustline ----------------------------------------------------

  /** One-time signers for envelopes, no trustline, and a master key that is not enough. */
  ghost predicate Bare(l: State, p: Plan) {
    && Proper(p) && Exists(l, p.bridge)
    && var a := l.accts[p.bridge].value;
       && a.master == 1 && a.low == 2 && a.med == 2 && a.high == 2 && !a.trust
       && forall h <- a.signers :: a.signers[h] == 1 && IsEnvelope(p, h)
  }

  lemma OnlyEnvelopesOfBare(l: State, p: Plan, e: Envelope)
    requires Bare(l, p) && Valid(l, e) && PartyTo(e.tx, p.bridge)
    ensures IsEnvelope(p, e.tx) && e.tx in l.accts[p.bridge].value.signers
  {
    var a := l.accts[p.bridge].value;
    assert View(l, p.bridge) == a;
    if e.tx.source != p.bridge {
      var op :| op in e.tx.ops && op.src == p.bridge;
      assert Authorizes(View(l, op.src), e.tx, op.src in e.signedBy, LevelOf(op.body));
    }
  }

  /** An envelope of a bare bridge always fails: there is no trustline to pay from, and none to drop. */
  lemma BareEnvelopeFails(l: State, p: Plan, k: Bridge.Kind, fault: bool)
    requires Bare(l, p) && TxOf(p, k) in l.accts[p.bridge].value.signers
    ensures var l' := Settle(l, TxOf(p, k), fault);
            Bare(l', p) && l'.log == l.log + [Applied(TxOf(p, k), false)]
  {
    var tx := TxOf(p, k);
    ChargedFacts(l, p, k);
    var c := Charged(l, p, k);
    assert ExecAll(c, tx.ops, map[]).None? by { assert Exec(c, tx.ops[0], map[]).None?; }
  }

  lemma BareStep(l: State, p: Plan, s: Step)
    requires Bare(l, p)
    ensures Bare(Next(l, s), p) && Ins(Next(l, s).log, p.bridge) == Ins(l.log, p.bridge)
    ensures forall k :: Applied(TxOf(p, k), true) in Next(l, s).log <==> Applied(TxOf(p, k), true) in l.log
  {
    var l' := Next(l, s);
    if s.Submit? && Valid(l, s.envelope) && PartyTo(s.envelope.tx, p.bridge) {
      OnlyEnvelopesOfBare(l, p, s.envelope);
      BareEnvelopeFails(l, p, KindOf(p, s.envelope.tx), s.fault);
      Snoc(l.log, Applied(s.envelope.tx, false), p.bridge);
    } else {
      NextBystander(l, s, p.bridge);
    }
    forall k ensures Applied(TxOf(p, k), true) in l'.log <==> Applied(TxOf(p, k), true) in l.log {
      NextApplied(l, s, TxOf(p, k), true);
    }
  }

  /** For good: it receives nothing, none of its envelopes ever goes through, and it is never merged. */
  lemma {:induction false} BareForever(l: State, p: Plan, steps: seq<Step>)
    requires Bare(l, p)
    ensures Bare(Run(l, steps), p) && Ins(Run(l, steps).log, p.bridge) == Ins(l.log, p.bridge)
    ensures forall k :: Applied(TxOf(p, k), true) in Run(l, steps).log <==> Applied(TxOf(p, k), true) in l.log
    decreases |steps|
  {
    if steps != [] {
      BareStep(l, p, steps[0]);
      BareForever(Next(l, steps[0]), p, steps[1..]);
    }
  }

  /** The step that pays a locked bridge, and the one that forwards. */
  function PayAndForward(p: Plan): seq<Step> {
    [PayFrom(0, p.bridge, p.amount), Submit(Envelope(ForwardTx(p), {p.bridge}), false)]
  }

  lemma PaymentCredits(l: State, b: Id, amount: nat)
    requires Exists(l, b) && l.accts[b].value.trust
    ensures var l1 := Next(l, PayFrom(0, b, amount));
            var a := l.accts[b].value;
            l1.accts == l.accts[b := Some(a.(usdc := a.usdc + amount))]
  {
  }

  /** One payment of the amount makes the balance cover the forward. */
  lemma PaymentArrives(l: State, p: Plan)
    requires LockedOpen(l, p)
    ensures var l1 := Next(l, PayFrom(0, p.bridge, p.amount));
            LockedOpen(l1, p) && l1.accts[p.bridge].value.usdc >= p.amount
  {
    var s := PayFrom(0, p.bridge, p.amount);
    NextBystander(l, s, p.bridge);
    BystanderKeepsOpen(l, Next(l, s), p);
    PaymentCredits(l, p.bridge, p.amount);
  }

  lemma ForwardApplies(l: State, p: Plan)
    requires LockedOpen(l, p) && l.accts[p.bridge].value.usdc >= p.amount
    requires p.dest.Acct? ==> Exists(l, p.dest.id) && l.accts[p.dest.id].value.trust
    ensures Applied(ForwardTx(p), true) in Next(l, Submit(Envelope(ForwardTx(p), {p.bridge}), false)).log
  {
    ExactlyTheCoSignature(l, p, OpenTracker(l, p), Bridge.Forward, {p.bridge});
    assert ForwardTx(p) == TxOf(p, Bridge.Forward);
    SettleForward(l, p, false);
  }

  lemma OpenForwards(l: State, p: Plan)
    requires LockedOpen(l, p) && (p.dest.Acct? ==> Exists(l, p.dest.id) && l.accts[p.dest.id].value.trust)
    ensures Applied(ForwardTx(p), true) in Run(l, PayAndForward(p)).log
  {
    var steps := PayAndForward(p);
    var l1 := Next(l, steps[0]);
    PaymentArrives(l, p);
    PaymentCredits(l, p.bridge, p.amount);
    ForwardApplies(l1, p);
    assert steps[1..][0] == steps[1] && steps[1..][1..] == [];
    assert Run(l, steps) == Run(l1, steps[1..]) == Run(Next(l1, steps[1]), []);
  }

  /** The lock leaves a bridge that can still pay, if and only if the account it found had the trustline. */
  lemma UsableIffTrustline(l: State, p: Plan)
    requires Locked(l, p) && (p.dest.Acct? ==> Exists(l, p.dest.id) && l.accts[p.dest.id].value.trust)
    requires Applied(ForwardTx(p), true) !in l.log
    ensures (exists steps :: Applied(ForwardTx(p), true) in Run(l, steps).log) <==> l.accts[p.bridge].value.trust
  {
    if l.accts[p.bridge].value.trust {
      OpenForwards(l, p);
    } else {
      assert TxOf(p, Bridge.Forward) == ForwardTx(p);
      forall steps ensures Applied(ForwardTx(p), true) !in Run(l, steps).log { BareForever(l, p, steps); }
    }
  }

  /**
   Somebody else creates the account first: our creation fails, and still the account exists, which is all
   that the creation's `landed` check asks. It has no trustline.
   */
  lemma SomebodyElseCreates() returns (l: State, key: Id, steps: seq<Step>)
    ensures !Exists(l, key) && key < |l.accts| && World(steps, key, {CreateTx(key, 0)})
    ensures var l' := Run(l, steps);
            && Applied(CreateTx(key, 0), false) in l'.log && !OursCreated(l', key)
            && Exists(l', key) && !l'.accts[key].value.trust && PreLock(l', key)
  {
    key := 2;
    l := State(7, [Some(Fresh(0, false)), Some(Fresh(0, false)), None], 0, []);
    var e1, e2 := Envelope(Tx(1, 1, [Op(1, Create(2))], 0), {1}), Envelope(CreateTx(2, 0), {0, 2});
    steps := [Submit(e1, false), Submit(e2, false)];
    var l1 := TheirCreation(l, e1);
    assert steps[1..] == [steps[1]] && [steps[1]][1..] == [];
    assert Run(l, steps) == Run(l1, [steps[1]]) == Run(Next(l1, steps[1]), []);
    OurCreation(l1, e2);
  }

  lemma TheirCreation(l: State, e: Envelope) returns (l1: State)
    requires l == State(7, [Some(Fresh(0, false)), Some(Fresh(0, false)), None], 0, [])
    requires e == Envelope(Tx(1, 1, [Op(1, Create(2))], 0), {1})
    ensures l1 == Next(l, Submit(e, false))
    ensures l1 == State(7, [Some(Fresh(0, false)), Some(Fresh(0, false).(seqNo := 1)),
        Some(Fresh(StartSeq(7), false))], 0,
                        [Applied(e.tx, true)])
  {
    var op := Op(1, Create(2));
    assert e.tx.ops[0] == op && e.tx.ops[1..] == [];
    assert op in e.tx.ops;
    assert Valid(l, e);
    var c := Put(l, 1, Some(Fresh(0, false).(seqNo := 1)), 0);
    assert SpendSigners(c, e.tx.ops, e.tx) == SpendSigners(c, e.tx.ops[1..], e.tx);
    assert Charge(l, e.tx) == c;
    var made := Put(c, 2, Some(Fresh(StartSeq(7), false)), 0);
    assert ExecAll(c, e.tx.ops, map[]) == ExecAll(made, e.tx.ops[1..], map[]);
    l1 := Next(l, Submit(e, false));
  }

  lemma OurCreation(l1: State, e: Envelope)
    requires e == Envelope(CreateTx(2, 0), {0, 2}) && |l1.log| == 1
        && l1.log[0] == Applied(Tx(1, 1, [Op(1, Create(2))], 0), true)
    requires Exists(l1, 0) && l1.accts[0].value == Fresh(0, false) && Exists(l1, 2)
        && l1.accts[2].value == Fresh(StartSeq(7), false)
    ensures var l2 := Next(l1, Submit(e, false));
            && Applied(CreateTx(2, 0), false) in l2.log && !OursCreated(l2, 2)
            && Exists(l2, 2) && !l2.accts[2].value.trust && PreLock(l2, 2)
  {
    assert CreateTx(2, 0).ops[0].src == 0 && CreateTx(2, 0).ops[2].src == 2;
    assert Valid(l1, e);
    CreateOnExisting(l1, 2, 0, false);
    forall n: nat ensures CreateTx(2, n) != Tx(1, 1, [Op(1, Create(2))], 0) { assert CreateTx(2, n).source == 0; }
    StepCreates(l1, Submit(e, false), 2);
  }
}
