/**
 A pipeline's records over the ledger, generic in the record: concurrent leased sections with crashes and
 takeovers, while anybody submits anything, from the moment the bridge is locked.
 */
module Together {
  import opened Ledger
  import opened Envelopes
  import opened Authority
  import opened Setup
  import opened Lives
  import Sections
  import Bridge

  /**
   What a section `X` makes of a record `R`, which records are well-formed, what a record claims of its bridge,
   and which sections report submissions truthfully.
   */
  datatype Pipeline<!R, !X> = Pipeline(
    act: (R, X) -> R,
    fine: R -> bool,
    claims: (R, Bridge.Bridge) -> bool,
    truthful: (R, X, State) -> bool)

  /** Truthful sections and the ledger keep records well-formed and their claims true. */
  ghost predicate Lawful<R(!new), X(!new)>(k: Pipeline<R, X>, p: Plan) {
    && (forall r, x, l, b | k.fine(r) && k.claims(r, b) && Logged(l, p, b) && k.truthful(r, x, l) ::
          k.fine(k.act(r, x)) && k.claims(k.act(r, x), b))
    && (forall r, b, m | k.claims(r, b) && Bridge.Valid(b) :: k.claims(r, Bridge.Next(b, m)))
  }

  ghost predicate Machine<R, X(!new)>(k: Pipeline<R, X>, r: R, l: State, n: R) {
    exists x :: n == k.act(r, x) && k.truthful(r, x, l)
  }

  ghost predicate WorldMoves(l: State, l': State) {
    exists s: Step :: l' == Next(l, s)
  }

  ghost function RulesOf<R, X(!new)>(k: Pipeline<R, X>): Sections.Rules<R, State> {
    Sections.Rules((r, l, n) => Machine(k, r, l, n), (l, l') => WorldMoves(l, l'), false)
  }

  /** The ledger is a run from the lock, and the record's claims are true of what that run made of the bridge. */
  ghost predicate Story<R, X>(k: Pipeline<R, X>, p: Plan, l0: State, r: R, l: State, steps: seq<Step>) {
    l == Run(l0, steps) && k.claims(r, After(l0, p, steps).bridge)
  }

  ghost predicate Consistent<R, X>(k: Pipeline<R, X>, p: Plan, l0: State, r: R, l: State) {
    k.fine(r) && exists steps :: Story(k, p, l0, r, l, steps)
  }

  ghost function Invariant<R, X>(k: Pipeline<R, X>, p: Plan, l0: State): (R, State) -> bool {
    (r, l) => Consistent(k, p, l0, r, l)
  }

  lemma SectionKeepsConsistent<R(!new), X(!new)>(k: Pipeline<R, X>, p: Plan, l0: State, r: R, l: State, n: R)
    requires Lawful(k, p) && Handed(l0, p) && Consistent(k, p, l0, r, l) && Machine(k, r, l, n)
    ensures Consistent(k, p, l0, n, l)
  {
    var x :| n == k.act(r, x) && k.truthful(r, x, l);
    var steps :| Story(k, p, l0, r, l, steps);
    LedgerRefinesBridge(l0, p, OpenTracker(l0, p), steps);
    assert Story(k, p, l0, n, l, steps);
  }

  lemma LedgerKeepsConsistent<R(!new), X(!new)>(k: Pipeline<R, X>, p: Plan, l0: State, r: R, l: State, l': State)
    requires Lawful(k, p) && Handed(l0, p) && Consistent(k, p, l0, r, l) && WorldMoves(l, l')
    ensures Consistent(k, p, l0, r, l')
  {
    var s: Step :| l' == Next(l, s);
    var steps :| Story(k, p, l0, r, l, steps);
    LedgerRefinesBridge(l0, p, OpenTracker(l0, p), steps);
    AfterSnoc(l0, p, OpenTracker(l0, p), steps, s);
    assert Story(k, p, l0, r, l', steps + [s]);
  }

  lemma RulesKeepConsistent<R(!new), X(!new)>(k: Pipeline<R, X>, p: Plan, l0: State)
    requires Lawful(k, p) && Handed(l0, p)
    ensures Sections.KeptBy(RulesOf(k), Invariant(k, p, l0))
  {
    var (rules, inv) := (RulesOf(k), Invariant(k, p, l0));
    forall r, l, n | inv(r, l) && rules.machine(r, l, n) ensures inv(n,
        l) { SectionKeepsConsistent(k, p, l0, r, l, n); }
    forall r, l, l' | inv(r, l) && rules.worldStep(l, l') ensures inv(r, l') {
      LedgerKeepsConsistent(k, p, l0, r, l, l');
    }
  }

  /** The books of the bridge balance over the whole run since the lock, and the record's claims are true of it. */
  ghost predicate Accounted<R, X>(k: Pipeline<R, X>, p: Plan, l0: State, r: R, l: State, steps: seq<Step>, life: nat) {
    && Story(k, p, l0, r, l, steps) && Books(l0, p, steps, life)
    && Logged(l, p, After(l0, p, steps).bridge) && Bridge.Valid(After(l0, p, steps).bridge)
    && After(l0, p, steps).bridge.amount == p.amount && After(l0, p, steps).bridge.abortable == p.abortable
    && (Bridge.Alive(After(l0, p, steps).bridge) <==> Exists(Run(l0, steps[..life]), p.bridge))
  }

  lemma ConsistentIsAccounted<R(!new), X(!new)>(k: Pipeline<R, X>, p: Plan, l0: State, r: R, l: State)
    returns (steps: seq<Step>, life: nat)
    requires Handed(l0, p) && Consistent(k, p, l0, r, l)
    ensures Accounted(k, p, l0, r, l, steps, life)
  {
    steps :| Story(k, p, l0, r, l, steps);
    LedgerRefinesBridge(l0, p, OpenTracker(l0, p), steps);
    life := BooksBalance(l0, p, steps);
  }

  /**
   In every reachable state, from any moment after the lock at which the record is first stored with true claims:
   it is well-formed and accounted for, and what was saved is a run of the sequential machine.
   */
  lemma RecordsAreAccounted<R(!new), X(!new)>(
    k: Pipeline<R, X>, p: Plan, first: R, l0: State, already: seq<Step>, invocations: nat,
    acts: seq<Sections.Action<R, State>>) returns (steps: seq<Step>, life: nat)
    requires Lawful(k, p) && Handed(l0, p) && k.fine(first) && k.claims(first, After(l0, p, already).bridge)
    requires Sections.Runs(RulesOf(k), Sections.Start(first, Run(l0, already), invocations), acts)
    ensures var s := Sections.Run(RulesOf(k), Sections.Start(first, Run(l0, already), invocations), acts);
            && k.fine(s.record) && Accounted(k, p, l0, s.record, s.world, steps, life)
            && Sections.Chain(RulesOf(k), first, s.saved, s.record)
  {
    assert Story(k, p, l0, first, Run(l0, already), already);
    RulesKeepConsistent(k, p, l0);
    var start := Sections.Start(first, Run(l0, already), invocations);
    Sections.ConcurrentInvariant(RulesOf(k), Invariant(k, p, l0), start, acts);
    Sections.NoLostUpdate(RulesOf(k), first, Run(l0, already), invocations, acts);
    var s := Sections.Run(RulesOf(k), start, acts);
    assert Invariant(k, p, l0)(s.record, s.world);
    steps, life := ConsistentIsAccounted(k, p, l0, s.record, s.world);
  }
}
