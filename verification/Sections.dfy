/**
 Leased sections interleaved: any number of invocations acquire, load, save, release, stall and crash
 around one stored record, while the world they ask about moves on its own. Provided every save
 happens before its lease expires, what is saved is a run of the sequential machine.
 */
module Sections {
  import opened Prelude
  import opened Lease

  datatype Proc<R> =
    | Idle
    | Holding(token: nat, until: nat)
    | Loaded(token: nat, until: nat, seen: R)
    | Leaving(token: nat)

  datatype Sys<R, W> = Sys(now: nat, row: Option<Row>, minted: nat, record: R, world: W, procs: seq<Proc<R>>,
      saved: seq<(W, R)>)

  datatype Action<R, W> =
    | Tick
    | World(next: W)
    | Acquire(p: nat, ttl: nat)
    | Load(p: nat)
    | Save(p: nat, value: R)
    | Skip(p: nat)
    | Release(p: nat)
    | Crash(p: nat)

  /**
   What the sections compute, and what the world may do. The code does not fence its saves: nothing stops an
   overrun section from saving, so it is assumed that there is none. `fenced` is the alternative in which a save
   asks for its own token in the row and the clock may do anything.
   */
  datatype Rules<!R, !W> = Rules(machine: (R, W, R) -> bool, worldStep: (W, W) -> bool, fenced: bool)

  predicate MaySave<R, W>(rules: Rules<R, W>, s: Sys<R, W>, p: nat)
    requires p < |s.procs| && s.procs[p].Loaded?
  {
    if rules.fenced then s.row.Some? && s.row.value.token == s.procs[p].token else s.now <= s.procs[p].until
  }

  predicate Enabled<R, W>(rules: Rules<R, W>, s: Sys<R, W>, a: Action<R, W>) {
    match a
    case Tick => true
    case World(w) => rules.worldStep(s.world, w)
    case Acquire(p, _) => p < |s.procs| && s.procs[p].Idle? && CanTake(s.row, s.now)
    case Load(p) => p < |s.procs| && s.procs[p].Holding?
    case Save(p, r) =>
      p < |s.procs| && s.procs[p].Loaded? && MaySave(rules, s, p) && rules.machine(s.procs[p].seen, s.world, r)
    case Skip(p) => p < |s.procs| && (s.procs[p].Holding? || s.procs[p].Loaded?)
    case Release(p) => p < |s.procs| && s.procs[p].Leaving?
    case Crash(p) => p < |s.procs|
  }

  function Do<R, W>(s: Sys<R, W>, a: Action<R, W>): Sys<R, W>
    requires !a.Tick? && !a.World? ==> a.p < |s.procs|
    requires a.Load? ==> s.procs[a.p].Holding?
    requires a.Save? ==> s.procs[a.p].Loaded?
    requires a.Skip? ==> s.procs[a.p].Holding? || s.procs[a.p].Loaded?
    requires a.Release? ==> s.procs[a.p].Leaving?
  {
    match a
    case Tick => s.(now := s.now + 1)
    case World(w) => s.(world := w)
    case Acquire(p, ttl) =>
      s.(row := Taken(s.row, s.minted, s.now, ttl), minted := s.minted + 1,
          procs := s.procs[p := Holding(s.minted, s.now + ttl)])
    case Load(p) => s.(procs := s.procs[p := Loaded(s.procs[p].token, s.procs[p].until, s.record)])
    case Save(p, r) => s.(record := r, saved := s.saved + [(s.world, r)],
        procs := s.procs[p := Leaving(s.procs[p].token)])
    case Skip(p) => s.(procs := s.procs[p := Leaving(s.procs[p].token)])
    case Release(p) => s.(row := Released(s.row, s.procs[p].token), procs := s.procs[p := Idle])
    case Crash(p) => s.(procs := s.procs[p := Idle])
  }

  ghost predicate Runs<R, W>(rules: Rules<R, W>, s: Sys<R, W>, acts: seq<Action<R, W>>)
    decreases |acts|
  {
    acts != [] ==> Enabled(rules, s, acts[0]) && Runs(rules, Do(s, acts[0]), acts[1..])
  }

  function Run<R, W>(rules: Rules<R, W>, s: Sys<R, W>, acts: seq<Action<R, W>>): Sys<R, W>
    requires Runs(rules, s, acts)
    decreases |acts|
  {
    if acts == [] then s else Run(rules, Do(s, acts[0]), acts[1..])
  }

  function Start<R, W>(record: R, world: W, invocations: nat): Sys<R, W> {
    Sys(0, None, 0, record, world, seq(invocations, _ => Idle), [])
  }

  // --- mutual exclusion -------------------------------------------------------------------------

  /** Inside its section with an unexpired lease. */
  predicate Live<R, W>(s: Sys<R, W>, p: nat) {
    p < |s.procs| && (s.procs[p].Holding? || s.procs[p].Loaded?) && s.now <= s.procs[p].until
  }

  ghost predicate Owned<R, W>(s: Sys<R, W>) {
    && (s.row.Some? ==> s.row.value.token < s.minted)
    && (forall p | 0 <= p < |s.procs| && !s.procs[p].Idle? :: s.procs[p].token < s.minted)
    && (forall p, q | 0 <= p < q < |s.procs| && !s.procs[p].Idle?
        && !s.procs[q].Idle? :: s.procs[p].token != s.procs[q].token)
    && (forall p | 0 <= p < |s.procs| && Live(s, p) :: s.row == Some(Row(s.procs[p].token, s.procs[p].until)))
    && (forall p | 0 <= p < |s.procs| && Live(s, p) && s.procs[p].Loaded? :: s.procs[p].seen == s.record)
  }

  /** At most one invocation is inside its section with an unexpired lease. */
  lemma MutualExclusion<R, W>(s: Sys<R, W>, p: nat, q: nat)
    requires Owned(s) && Live(s, p) && Live(s, q)
    ensures p == q
  {
  }

  lemma KeepsOwned<R, W>(rules: Rules<R, W>, s: Sys<R, W>, a: Action<R, W>)
    requires Owned(s) && Enabled(rules, s, a) && !rules.fenced
    ensures Owned(Do(s, a))
  {
    var s' := Do(s, a);
    forall p | 0 <= p < |s'.procs| && Live(s', p)
      ensures s'.row == Some(Row(s'.procs[p].token, s'.procs[p].until))
          && (s'.procs[p].Loaded? ==> s'.procs[p].seen == s'.record)
    {
      if !(a.Acquire? && a.p == p) {
        assert Live(s, p);
        if a.Save? { MutualExclusion(s, p, a.p); }
      }
    }
  }

  /** A release with a stale token frees nobody: whoever holds an unexpired lease still does. */
  lemma StaleReleaseFreesNobody<R, W>(s: Sys<R, W>, p: nat, q: nat)
    requires Owned(s) && p < |s.procs| && s.procs[p].Leaving? && Live(s, q)
    ensures Do(s, Release(p)).row == s.row && Live(Do(s, Release(p)), q)
  {
  }

  /** The holder's release lets every idle invocation in at once. */
  lemma ReleaseEnablesTheNext<R, W>(rules: Rules<R, W>, s: Sys<R, W>, p: nat, q: nat, ttl: nat)
    requires p < |s.procs| && s.procs[p].Leaving? && s.row.Some? && s.row.value.token == s.procs[p].token
    requires q < |s.procs| && (s.procs[q].Idle? || q == p)
    ensures Enabled(rules, Do(s, Release(p)), Acquire(q, ttl))
    ensures var s' := Do(Do(s, Release(p)), Acquire(q, ttl)); Live(s', q) && s'.row == Some(Row(s.minted, s.now + ttl))
  {
    ReleaseFrees(s.row, s.procs[p].token, s.minted, s.now, ttl);
  }

  /** A holder that crashed keeps the others out until its lease has run out, and no longer. */
  lemma CrashBlocksUntilExpiry<R, W>(rules: Rules<R, W>, s: Sys<R, W>, p: nat, q: nat, ttl: nat)
    requires p < |s.procs| && Live(s, p) && Owned(s) && q < |s.procs| && s.procs[q].Idle?
    ensures var s' := Do(s, Crash(p)); Enabled(rules, s', Acquire(q, ttl)) <==> s.procs[p].until < s'.now
    ensures forall now: nat | now > s.procs[p].until ::
              Enabled(rules, Do(s, Crash(p)).(now := now), Acquire(q, ttl))
  {
    HeldUntilItExpires(s.row.value, s.minted, s.now, ttl);
  }

  // --- no lost update ---------------------------------------------------------------------------

  function Prior<R, W>(first: R, saved: seq<(W, R)>, i: nat): R
    requires i <= |saved|
  {
    if i == 0 then first else saved[i - 1].1
  }

  /** Each saved record is a machine step from the one saved before it. */
  ghost predicate Chain<R, W>(rules: Rules<R, W>, first: R, saved: seq<(W, R)>, last: R) {
    && (forall i | 0 <= i < |saved| :: rules.machine(Prior(first, saved, i), saved[i].0, saved[i].1))
    && last == Prior(first, saved, |saved|)
  }

  lemma ChainSnoc<R, W>(rules: Rules<R, W>, first: R, saved: seq<(W, R)>, last: R, w: W, r: R)
    requires Chain(rules, first, saved, last) && rules.machine(last, w, r)
    ensures Chain(rules, first, saved + [(w, r)], r)
  {
    var longer := saved + [(w, r)];
    forall i | 0 <= i < |longer| ensures rules.machine(Prior(first, longer, i), longer[i].0, longer[i].1) {
      if i < |saved| { assert Prior(first, longer, i) == Prior(first, saved, i); }
          else { assert Prior(first, longer, i) == last; }
    }
  }

  lemma {:induction false} RunRefines<R, W>(rules: Rules<R, W>, first: R, s: Sys<R, W>, acts: seq<Action<R, W>>)
    requires Owned(s) && Chain(rules, first, s.saved, s.record) && Runs(rules, s, acts) && !rules.fenced
    ensures var s' := Run(rules, s, acts); Owned(s') && Chain(rules, first, s'.saved, s'.record)
    decreases |acts|
  {
    if acts != [] {
      KeepsOwned(rules, s, acts[0]);
      if acts[0].Save? {
        assert Live(s, acts[0].p);
        ChainSnoc(rules, first, s.saved, s.record, s.world, acts[0].value);
      }
      RunRefines(rules, first, Do(s, acts[0]), acts[1..]);
    }
  }

  /**
   For any number of invocations, interleaved anyhow, crashing and being taken over: the saved records
   form a run of the sequential machine, each computed from the one before it. No update is lost.
   */
  lemma NoLostUpdate<R, W>(rules: Rules<R, W>, record: R, world: W, invocations: nat, acts: seq<Action<R, W>>)
    requires Runs(rules, Start(record, world, invocations), acts) && !rules.fenced
    ensures var s := Run(rules, Start(record, world, invocations), acts);
        Owned(s)
        && Chain(rules, record, s.saved, s.record)
  {
    RunRefines(rules, record, Start(record, world, invocations), acts);
  }

  /** Steps of the sequential machine and of the world keep `inv`. */
  ghost predicate KeptBy<R(!new), W(!new)>(rules: Rules<R, W>, inv: (R, W) -> bool) {
    && (forall r: R, w: W, n: R | inv(r, w) && rules.machine(r, w, n) :: inv(n, w))
    && (forall r: R, w: W, w': W | inv(r, w) && rules.worldStep(w, w') :: inv(r, w'))
  }

  /** Whatever the sequential machine and the world keep, the concurrent system keeps in every reachable state. */
  lemma {:induction false} ConcurrentInvariant<R(!new), W(!new)>(
    rules: Rules<R, W>, inv: (R, W) -> bool, s: Sys<R, W>, acts: seq<Action<R, W>>)
    requires Owned(s) && inv(s.record, s.world) && Runs(rules, s, acts) && !rules.fenced
    requires KeptBy(rules, inv)
    ensures var s' := Run(rules, s, acts); inv(s'.record, s'.world)
    decreases |acts|
  {
    if acts != [] {
      KeepsOwned(rules, s, acts[0]);
      if acts[0].Save? { assert Live(s, acts[0].p); }
      ConcurrentInvariant(rules, inv, Do(s, acts[0]), acts[1..]);
    }
  }

  // --- the hypothesis is needed -----------------------------------------------------------------

  /** Adding one. */
  function Increments(fenced: bool): Rules<nat, ()> {
    Rules((r: nat, w, n: nat) => n == r + 1, (w, w') => true, fenced)
  }

  /** The first invocation's section up to its load; then the clock runs past its lease. */
  function Overrun(): Sys<nat, ()> {
    Do(Do(Do(Start<nat, ()>(0, (), 2), Acquire(0, 0)), Load(0)), Tick)
  }

  /** The second one takes over, adds one, and is done. */
  function TakenOver(): Sys<nat, ()> {
    Do(Do(TakingOver(), Save(1, 1)), Release(1))
  }

  function TakingOver(): Sys<nat, ()> {
    Do(Do(Overrun(), Acquire(1, 10)), Load(1))
  }

  lemma RunsThen<R, W>(rules: Rules<R, W>, s: Sys<R, W>, a: Action<R, W>, rest: seq<Action<R, W>>)
    requires Enabled(rules, s, a) && Runs(rules, Do(s, a), rest)
    ensures Runs(rules, s, [a] + rest) && Run(rules, s, [a] + rest) == Run(rules, Do(s, a), rest)
  {
    assert ([a] + rest)[1..] == rest;
  }

  /** All of that is a run in which no section saves after its lease has expired. */
  lemma TakeoverRuns() returns (acts: seq<Action<nat, ()>>)
    ensures Runs(Increments(false), Start<nat, ()>(0, (), 2), acts)
    ensures Run(Increments(false), Start<nat, ()>(0, (), 2), acts) == TakenOver()
  {
    acts := TakingOverRuns();
    acts := AcquiringRuns(acts);
    acts := OverrunRuns(acts);
  }

  lemma AcquiringRuns(rest: seq<Action<nat, ()>>) returns (acts: seq<Action<nat, ()>>)
    requires Runs(Increments(false), TakingOver(), rest)
    ensures Runs(Increments(false), Overrun(), acts)
    ensures Run(Increments(false), Overrun(), acts) == Run(Increments(false), TakingOver(), rest)
  {
    var rules := Increments(false);
    var s := Overrun();
    assert s.row == Some(Row(0, 0)) && s.now == 1 && s.procs == [Loaded(0, 0, 0), Idle];
    RunsThen(rules, Do(s, Acquire(1, 10)), Load(1), rest);
    RunsThen(rules, s, Acquire(1, 10), [Load(1)] + rest);
    acts := [Acquire(1, 10)] + ([Load(1)] + rest);
  }

  lemma TakingOverRuns() returns (acts: seq<Action<nat, ()>>)
    ensures Runs(Increments(false), TakingOver(), acts) && Run(Increments(false), TakingOver(), acts) == TakenOver()
  {
    var rules := Increments(false);
    var s := TakingOver();
    assert s.procs[1] == Loaded(1, 11, 0) && s.now == 1;
    RunsThen(rules, Do(s, Save(1, 1)), Release(1), []);
    RunsThen(rules, s, Save(1, 1), [Release(1)] + []);
    acts := [Save(1, 1)] + ([Release(1)] + []);
  }

  lemma OverrunRuns(rest: seq<Action<nat, ()>>) returns (acts: seq<Action<nat, ()>>)
    requires Runs(Increments(false), Overrun(), rest)
    ensures Runs(Increments(false), Start<nat, ()>(0, (), 2), acts)
    ensures Run(Increments(false), Start<nat, ()>(0, (), 2), acts) == Run(Increments(false), Overrun(), rest)
  {
    var rules := Increments(false);
    var s0 := Start<nat, ()>(0, (), 2);
    var s1 := Do(s0, Acquire(0, 0));
    var s2 := Do(s1, Load(0));
    assert s0.procs[0].Idle? && s1.procs[0].Holding? && Do(s2, Tick) == Overrun();
    RunsThen(rules, s2, Tick, rest);
    RunsThen(rules, s1, Load(0), [Tick] + rest);
    RunsThen(rules, s0, Acquire(0, 0), [Load(0)] + ([Tick] + rest));
    acts := [Acquire(0, 0)] + ([Load(0)] + ([Tick] + rest));
  }

  /**
   Saves are not fenced by the token. The overrun section, whose lease has expired, overwrites what its
   successor saved: the two saves together are no run of the machine. A fenced save would be refused.
   */
  lemma OverrunLosesAnUpdate() returns (s: Sys<nat, ()>)
    ensures s == TakenOver() && s.procs[0].Loaded? && !Live(s, 0)
    ensures Increments(false).machine(s.procs[0].seen, s.world, 1)
    ensures var late := Do(s, Save(0, 1)); !Chain(Increments(false), 0, late.saved, late.record)
    ensures !MaySave(Increments(true), s, 0)
  {
    s := TakenOver();
    assert s.saved == [((), 1)] && s.procs[0] == Loaded(0, 0, 0) && s.now == 1;
    var late := Do(s, Save(0, 1));
    assert late.saved == [((), 1), ((), 1)];
    assert !Increments(false).machine(Prior(0, late.saved, 1), late.saved[1].0, late.saved[1].1);
  }

  // --- fenced saves -----------------------------------------------------------------------------

  /** Tokens are distinct, and whoever has loaded and still has the row has loaded the current record. */
  ghost predicate Fenced<R, W>(s: Sys<R, W>) {
    && (s.row.Some? ==> s.row.value.token < s.minted)
    && (forall p | 0 <= p < |s.procs| && !s.procs[p].Idle? :: s.procs[p].token < s.minted)
    && (forall p, q | 0 <= p < q < |s.procs| && !s.procs[p].Idle?
        && !s.procs[q].Idle? :: s.procs[p].token != s.procs[q].token)
    && (forall p | 0 <= p < |s.procs| && s.procs[p].Loaded? && s.row.Some? && s.row.value.token == s.procs[p].token ::
          s.procs[p].seen == s.record)
  }

  lemma KeepsFenced<R, W>(rules: Rules<R, W>, s: Sys<R, W>, a: Action<R, W>)
    requires Fenced(s) && Enabled(rules, s, a) && rules.fenced
    ensures Fenced(Do(s, a))
  {
  }

  lemma {:induction false} FencedRunRefines<R, W>(rules: Rules<R, W>, first: R, s: Sys<R, W>, acts: seq<Action<R, W>>)
    requires Fenced(s) && Chain(rules, first, s.saved, s.record) && Runs(rules, s, acts) && rules.fenced
    ensures var s' := Run(rules, s, acts); Fenced(s') && Chain(rules, first, s'.saved, s'.record)
    decreases |acts|
  {
    if acts != [] {
      KeepsFenced(rules, s, acts[0]);
      if acts[0].Save? { ChainSnoc(rules, first, s.saved, s.record, s.world, acts[0].value); }
      FencedRunRefines(rules, first, Do(s, acts[0]), acts[1..]);
    }
  }

  /** With fenced saves no update is lost, however long sections take: the hypothesis could be dropped. */
  lemma FencedLosesNoUpdate<R, W>(rules: Rules<R, W>, record: R, world: W, invocations: nat, acts: seq<Action<R, W>>)
    requires Runs(rules, Start(record, world, invocations), acts) && rules.fenced
    ensures var s := Run(rules, Start(record, world, invocations), acts); Chain(rules, record, s.saved, s.record)
  {
    FencedRunRefines(rules, record, Start(record, world, invocations), acts);
  }
}
