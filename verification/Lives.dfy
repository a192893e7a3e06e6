/**
 The life of a locked bridge on the ledger, from the lock to its merge: what went in and what came out, read
 off the ledger's own log. An account created later at the same address is another account.
 */
module Lives {
  import opened Ledger
  import opened Envelopes
  import opened Authority
  import opened Setup
  import Bridge

  /**
   The first `k` steps are the account's life: it exists before each of them, and is gone after them unless the
   run ends first.
   */
  ghost predicate LifeOf(l: State, b: Id, steps: seq<Step>, k: nat) {
    && k <= |steps|
    && (forall j | 0 <= j < k :: Exists(Run(l, steps[..j]), b))
    && (k < |steps| ==> !Exists(Run(l, steps[..k]), b))
  }

  lemma MergedIsGone(l: State, p: Plan, t: Tracker, s: Step)
    requires Tracks(l, p, t) && Bridge.Alive(t.bridge)
    ensures Bridge.Alive(Follow(l, p, t, s).bridge) <==> Exists(Next(l, s), p.bridge)
  {
    if s.Submit? && Valid(l, s.envelope) && PartyTo(s.envelope.tx, p.bridge) {
      var k, went := OwnOutcome(l, p, t, s.envelope, s.fault);
      SlotSpent(p, t.bridge, k, went);
    } else {
      NextBystander(l, s, p.bridge);
      assert !(s.Submit? && Valid(l, s.envelope) && IsEnvelope(p, s.envelope.tx));
    }
  }

  lemma {:induction false} DeadFrozen(l: State, p: Plan, t: Tracker, steps: seq<Step>)
    requires !Bridge.Alive(t.bridge)
    ensures FollowAll(l, p, t, steps) == t
    decreases |steps|
  {
    if steps != [] { DeadFrozen(Next(l, steps[0]), p, t, steps[1..]); }
  }

  lemma RunTail(l: State, steps: seq<Step>, j: nat)
    requires 0 < j <= |steps|
    ensures Run(l, steps[..j]) == Run(Next(l, steps[0]), steps[1..][..j - 1])
  {
    assert steps[..j][1..] == steps[1..][..j - 1];
  }

  lemma LifeExtends(l: State, b: Id, steps: seq<Step>, rest: nat)
    requires steps != [] && Exists(l, b) && LifeOf(Next(l, steps[0]), b, steps[1..], rest)
    ensures LifeOf(l, b, steps, rest + 1)
    ensures Run(l, steps[..rest + 1]) == Run(Next(l, steps[0]), steps[1..][..rest])
  {
    forall j | 0 < j <= rest + 1 ensures Run(l, steps[..j]) == Run(Next(l, steps[0]), steps[1..][..j - 1]) {
      RunTail(l, steps, j);
    }
  }

  /** The tracker's books are the log's, at the end of the account's life. */
  lemma {:induction false} LifeStory(l: State, p: Plan, t: Tracker, steps: seq<Step>) returns (k: nat)
    requires Tracks(l, p, t) && Bridge.Alive(t.bridge)
    ensures LifeOf(l, p.bridge, steps, k)
    ensures var t' := FollowAll(l, p, t, steps);
            var end := Run(l, steps[..k]);
            && t'.outs == Outs(end.log, p.bridge) && t'.ins == Ins(end.log, p.bridge)
            && (Bridge.Alive(t'.bridge) <==> Exists(end, p.bridge))
            && (Bridge.Alive(t'.bridge) ==> k == |steps|)
    decreases |steps|
  {
    if steps == [] { return 0; }
    var l1, t1 := Next(l, steps[0]), Follow(l, p, t, steps[0]);
    FollowUnfold(l, p, t, steps);
    StepRefines(l, p, t, steps[0]);
    MergedIsGone(l, p, t, steps[0]);
    if Bridge.Alive(t1.bridge) {
      var rest := LifeStory(l1, p, t1, steps[1..]);
      LifeExtends(l, p.bridge, steps, rest);
      k := rest + 1;
    } else {
      DeadFrozen(l1, p, t1, steps[1..]);
      LifeEnds(l, p.bridge, steps);
      k := 1;
    }
  }

  lemma FollowUnfold(l: State, p: Plan, t: Tracker, steps: seq<Step>)
    requires steps != []
    ensures FollowAll(l, p, t, steps) == FollowAll(Next(l, steps[0]), p, Follow(l, p, t, steps[0]), steps[1..])
    ensures Bridge.Alive(t.bridge) ==>
              var t1 := Follow(l, p, t, steps[0]);
              t1.outs == Outs(Next(l, steps[0]).log, p.bridge) && t1.ins == Ins(Next(l, steps[0]).log, p.bridge)
  {
  }

  lemma LifeEnds(l: State, b: Id, steps: seq<Step>)
    requires steps != [] && Exists(l, b) && !Exists(Next(l, steps[0]), b)
    ensures LifeOf(l, b, steps, 1) && Run(l, steps[..1]) == Next(l, steps[0])
  {
    RunTail(l, steps, 1);
    assert steps[1..][..0] == [] && steps[..0] == [];
  }

  /** What createLandingAccount hands over: locked, with no envelope used. */
  ghost predicate Handed(l0: State, p: Plan) {
    LockedOpen(l0, p) && Logged(l0, p, OpenTracker(l0, p).bridge)
  }

  ghost predicate ForwardApplied(l: State, p: Plan) {
    Applied(ForwardTx(p), true) in l.log
  }

  /**
   Books of a locked bridge, in the ledger's terms: over its life what left it is the planned payment if the
   forward went through and nothing otherwise, and everything it ever accepted is what it holds plus that.
   */
  ghost predicate Books(l0: State, p: Plan, steps: seq<Step>, k: nat) {
    && LifeOf(l0, p.bridge, steps, k)
    && var end, paid := Run(l0, steps[..k]), ForwardApplied(Run(l0, steps), p);
       && Outs(end.log, p.bridge) == Outs(l0.log, p.bridge) + (if paid then [(p.dest, p.amount)] else [])
       && View(l0, p.bridge).usdc + Ins(end.log, p.bridge) - Ins(l0.log, p.bridge)
          == View(end, p.bridge).usdc + (if paid then p.amount else 0)
  }

  ghost function After(l0: State, p: Plan, steps: seq<Step>): Tracker {
    FollowAll(l0, p, OpenTracker(l0, p), steps)
  }

  /** The books balance in every run from the lock on, whatever anybody submits. */
  lemma BooksBalance(l0: State, p: Plan, steps: seq<Step>) returns (k: nat)
    requires Handed(l0, p)
    ensures Books(l0, p, steps, k)
    ensures Bridge.Alive(After(l0, p, steps).bridge) <==> Exists(Run(l0, steps[..k]), p.bridge)
  {
    var t := OpenTracker(l0, p);
    k := LifeStory(l0, p, t, steps);
    LedgerRefinesBridge(l0, p, t, steps);
    var t' := FollowAll(l0, p, t, steps);
    assert ForwardApplied(Run(l0, steps), p) <==> Bridge.Done(t'.bridge, Bridge.Forward) by {
      assert TxOf(p, Bridge.Forward) == ForwardTx(p);
    }
    if k == |steps| { assert steps[..k] == steps; }
    Holdings(Run(l0, steps), p, t', Run(l0, steps[..k]));
  }

  /** What the tracker says the account holds is what the ledger says. */
  lemma Holdings(l: State, p: Plan, t: Tracker, end: State)
    requires Tracks(l, p, t) && (Bridge.Alive(t.bridge) ==> l == end)
        && (Bridge.Alive(t.bridge) <==> Exists(end, p.bridge))
    ensures View(end, p.bridge).usdc == Bridge.Balance(t.bridge)
    ensures t.opening + t.ins - t.ins0 == View(end, p.bridge).usdc + (if t.bridge.first.Forwarded? then p.amount else 0)
  {
  }

  /** One more step of the ledger, seen from the lock. */
  lemma {:induction false} AfterSnoc(l: State, p: Plan, t: Tracker, steps: seq<Step>, s: Step)
    ensures FollowAll(l, p, t, steps + [s]) == Follow(Run(l, steps), p, FollowAll(l, p, t, steps), s)
    ensures Run(l, steps + [s]) == Next(Run(l, steps), s)
    decreases |steps|
  {
    if steps == [] {
      assert [] + [s] == [s] && [s][1..] == [];
    } else {
      assert (steps + [s])[0] == steps[0] && (steps + [s])[1..] == steps[1..] + [s];
      AfterSnoc(Next(l, steps[0]), p, Follow(l, p, t, steps[0]), steps[1..], s);
    }
  }
}
