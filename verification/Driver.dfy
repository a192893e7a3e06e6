/**
 The pipeline driver (lib/pipeline.server.ts): one pass over the waiting records, each stepped until it
 stops moving or time is up, while other invocations keep writing the same records. Like `drive` it is
 generic in the record; Driving.dfy instantiates it for deposits and withdrawals.
 */
module Driver {
  import opened Prelude

  const RETRY_BACKOFF_MS := 10_000
  const PER_STATUS: nat := 25
  const MAX_STEPS_PER_RECORD := 6

  /**
   What the driver drives: records `R` with statuses `S`, the driveable ones among them, the section that
   `advance` runs on an answer `A`, and the changes `C` others make.
   */
  datatype Kind<!R, !S(==), !A, !C> = Kind(
    driveable: seq<S>,
    status: R -> S,
    failedAt: R -> Option<nat>,
    advance: (R, A, nat) -> R,
    change: (R, C) -> R,
    good: R -> bool,
    later: (R, R) -> bool,
    left: S -> nat)

  /** The records are kept good, they only move on, and a driveable status is never returned to. */
  ghost predicate Lawful<R(!new), S, A(!new), C(!new)>(k: Kind<R, S, A, C>) {
    && (forall r | k.good(r) :: k.later(r, r))
    && (forall a, b, c | k.later(a, b) && k.later(b, c) :: k.later(a, c))
    && (forall r, c | k.good(r) :: k.good(k.change(r, c)) && k.later(r, k.change(r, c)))
    && (forall r, a, t: nat | k.good(r) :: k.good(k.advance(r, a, t)) && k.later(r, k.advance(r, a, t)))
    && (forall a, b | k.later(a, b) && k.status(a) in k.driveable && k.status(b) in k.driveable
        && k.status(a) != k.status(b) ::
          k.left(k.status(b)) < k.left(k.status(a)))
    && (forall s | s in k.driveable :: 1 <= k.left(s) < MAX_STEPS_PER_RECORD)
  }

  function ChangeAll<R, S, A, C>(k: Kind<R, S, A, C>, r: R, changes: seq<C>): R
    decreases |changes|
  {
    if changes == [] then r else ChangeAll(k, k.change(r, changes[0]), changes[1..])
  }

  lemma {:induction false} ChangeAllMovesOn<R(!new), S, A(!new), C(!new)>(k: Kind<R, S, A, C>, r: R, changes: seq<C>)
    requires Lawful(k) && k.good(r)
    ensures k.good(ChangeAll(k, r, changes)) && k.later(r, ChangeAll(k, r, changes))
    decreases |changes|
  {
    if changes != [] {
      var next := k.change(r, changes[0]);
      assert k.good(next) && k.later(r, next);
      ChangeAllMovesOn(k, next, changes[1..]);
    }
  }

  /** A record as a query returned it. */
  datatype Listed<R> = Listed(id: nat, record: R)

  datatype TickItem<S> = TickItem(id: nat, from: S, to: S, steps: nat, backoff: bool)

  // --- collect ----------------------------------------------------------------------------------

  ghost predicate Distinct<R>(s: seq<Listed<R>>) {
    forall i, j | 0 <= i < j < |s| :: s[i].id != s[j].id
  }

  predicate Has<R>(s: seq<Listed<R>>, id: nat) {
    exists i | 0 <= i < |s| :: s[i].id == id
  }

  /** The rows that no row before them has the id of, in order. */
  function Firsts<R>(s: seq<Listed<R>>): seq<Listed<R>> {
    if s == [] then []
    else
      var rest, last := s[..|s| - 1], s[|s| - 1];
      if Has(rest, last.id) then Firsts(rest) else Firsts(rest) + [last]
  }

  /** Each id once, every id listed is there, and each with the row that was listed first. */
  lemma {:induction false} FirstsAreTheFirst<R>(s: seq<Listed<R>>)
    ensures Distinct(Firsts(s))
    ensures forall id: nat :: Has(s, id) <==> Has(Firsts(s), id)
    ensures forall l <- Firsts(s) :: FirstIn(s, l)
  {
    if s != [] {
      var rest, last := s[..|s| - 1], s[|s| - 1];
      FirstsAreTheFirst(rest);
      assert s == rest + [last];
      FirstIdsGrow(rest, last);
      FirstIdsGrow(Firsts(rest), last);
      forall l <- Firsts(s) ensures FirstIn(s, l) { FirstInGrows(rest, last, l); }
    }
  }

  ghost predicate FirstIn<R>(s: seq<Listed<R>>, l: Listed<R>) {
    exists i | 0 <= i < |s| :: s[i] == l && forall j | 0 <= j < i :: s[j].id != l.id
  }

  lemma FirstInGrows<R>(rest: seq<Listed<R>>, last: Listed<R>, l: Listed<R>)
    requires FirstIn(rest, l) || (l == last && !Has(rest, last.id))
    ensures FirstIn(rest + [last], l)
  {
    var s := rest + [last];
    if FirstIn(rest, l) {
      var i :| 0 <= i < |rest| && rest[i] == l && forall j | 0 <= j < i :: rest[j].id != l.id;
      assert s[i] == l && forall j | 0 <= j < i :: s[j].id != l.id;
    } else {
      assert s[|rest|] == l && forall j | 0 <= j < |rest| :: s[j] == rest[j];
    }
  }

  lemma FirstIdsGrow<R>(rest: seq<Listed<R>>, last: Listed<R>)
    ensures forall id: nat :: Has(rest + [last], id) <==> Has(rest, id) || id == last.id
  {
    var s := rest + [last];
    assert s[|rest|] == last;
    forall id: nat | Has(rest, id) ensures Has(s, id) {
      var i :| 0 <= i < |rest| && rest[i].id == id;
      assert s[i].id == id;
    }
  }

  lemma FirstsSnoc<R>(s: seq<Listed<R>>, row: Listed<R>)
    ensures Firsts(s + [row]) == if Has(s, row.id) then Firsts(s) else Firsts(s) + [row]
    ensures forall id: nat :: Has(s + [row], id) <==> Has(s, id) || id == row.id
  {
    assert (s + [row])[..|s|] == s;
    FirstIdsGrow(s, row);
  }

  /** collect: the pages one after another, skipping ids already seen. */
  method Collect<R>(pages: seq<seq<Listed<R>>>) returns (out: seq<Listed<R>>)
    ensures out == Firsts(Flatten(pages))
  {
    out := [];
    var seen: set<nat> := {};
    for p := 0 to |pages|
      invariant out == Firsts(Flatten(pages[..p])) && SeenIn(seen, Flatten(pages[..p]))
    {
      assert pages[..p + 1][..p] == pages[..p];
      out, seen := CollectPage(pages[p], out, seen, Flatten(pages[..p]));
    }
    assert pages[..|pages|] == pages;
  }

  ghost predicate SeenIn<R>(seen: set<nat>, rows: seq<Listed<R>>) {
    forall id: nat :: id in seen <==> Has(rows, id)
  }

  method CollectPage<R>(page: seq<Listed<R>>, sofar: seq<Listed<R>>, seenBefore: set<nat>, ghost before: seq<Listed<R>>)
    returns (out: seq<Listed<R>>, seen: set<nat>)
    requires sofar == Firsts(before) && SeenIn(seenBefore, before)
    ensures out == Firsts(before + page) && SeenIn(seen, before + page)
  {
    out, seen := sofar, seenBefore;
    assert before + page[..0] == before;
    for i := 0 to |page|
      invariant out == Firsts(before + page[..i]) && SeenIn(seen, before + page[..i])
    {
      PageStep(before, page, i);
      if page[i].id !in seen {
        seen := seen + {page[i].id};
        out := out + [page[i]];
      }
    }
    assert page[..|page|] == page;
  }

  lemma PageStep<R>(before: seq<Listed<R>>, page: seq<Listed<R>>, i: nat)
    requires i < |page|
    ensures var sofar := before + page[..i];
            && Firsts(before + page[..i + 1]) == (if Has(sofar, page[i].id) then Firsts(sofar)
                else Firsts(sofar) + [page[i]])
            && forall id: nat :: Has(before + page[..i + 1], id) <==> Has(sofar, id) || id == page[i].id
  {
    FirstsSnoc(before + page[..i], page[i]);
    assert before + page[..i + 1] == before + page[..i] + [page[i]];
  }

  function Flatten<R>(pages: seq<seq<R>>): seq<R> {
    if pages == [] then [] else Flatten(pages[..|pages| - 1]) + pages[|pages| - 1]
  }

  // --- drive and tick ---------------------------------------------------------------------------

  predicate RecentlyFailed(failedAt: Option<nat>, now: nat) {
    failedAt.Some? && now < failedAt.value + RETRY_BACKOFF_MS
  }

  /** Nothing is deleted, and every record has only moved on. */
  ghost predicate Onward<R, S, A, C>(k: Kind<R, S, A, C>, rows: map<nat, R>, next: map<nat, R>) {
    rows.Keys == next.Keys && forall id <- rows :: k.later(rows[id], next[id])
  }

  lemma OnwardTwice<R(!new), S, A(!new), C(!new)>(k: Kind<R, S, A, C>, a: map<nat, R>, b: map<nat, R>, c: map<nat, R>)
    requires Lawful(k) && Onward(k, a, b) && Onward(k, b, c)
    ensures Onward(k, a, c)
  {
    forall id <- a ensures k.later(a[id], c[id]) {
      assert k.later(a[id], b[id]) && k.later(b[id], c[id]);
    }
  }

  /** Everything started since `before` was started in time. */
  ghost predicate StartedBefore(before: seq<nat>, starts: seq<nat>, deadline: nat) {
    before <= starts && forall i | |before| <= i < |starts| :: starts[i] < deadline
  }

  lemma StartedTwice(a: seq<nat>, b: seq<nat>, c: seq<nat>, deadline: nat)
    requires StartedBefore(a, b, deadline) && StartedBefore(b, c, deadline)
    ensures StartedBefore(a, c, deadline)
  {
  }

  /** A look at a record: later than the first one, and the stored record is later still. */
  ghost predicate Between<R, S, A, C>(k: Kind<R, S, A, C>, first: R, current: R, stored: R) {
    k.good(current) && k.later(first, current) && k.later(current, stored)
  }

  /** The steps taken so far and those that the status still allows fit what the first status allowed. */
  ghost predicate Affords<R, S, A, C>(k: Kind<R, S, A, C>, from: S, s: S, steps: nat) {
    from in k.driveable ==>
        steps <= k.left(from) < MAX_STEPS_PER_RECORD
        && (s in k.driveable ==> steps + k.left(s) <= k.left(from))
  }

  lemma StepOn<R(!new), S, A(!new), C(!new)>(k: Kind<R, S, A, C>, first: R, current: R, stored: R, next: R, steps: nat)
    requires Lawful(k) && Between(k, first, current, stored) && k.good(next) && k.later(stored, next)
    requires k.status(current) in k.driveable && Affords(k, k.status(first), k.status(current), steps)
    ensures Between(k, first, next, next)
    ensures k.status(next) != k.status(current) ==> Affords(k, k.status(first), k.status(next), steps + 1)
    ensures k.status(first) in k.driveable ==> steps + 1 <= k.left(k.status(first))
  {
    assert k.later(current, next) && k.later(next, next);
  }

  /** What was stored before an advance, what others made of it, and the section that ran on that. */
  ghost predicate RanOn<R, S, A, C>(k: Kind<R, S, A, C>, before: R, after: R, answer: A, found: R, now: nat) {
    k.good(found) && k.later(before, found) && after == k.advance(found, answer, now)
  }

  /** An advance that gets the lease runs the section, on whatever the record has become by then. */
  ghost predicate Ran<R(!new), S, A, C>(k: Kind<R, S, A, C>, before: R, after: R, answer: A, leased: bool) {
    && k.good(after) && k.later(before, after)
    && (leased ==> exists found, now :: RanOn(k, before, after, answer, found, now))
  }

  lemma RanLater<R(!new), S, A(!new), C(!new)>(
    k: Kind<R, S, A, C>, earlier: R, before: R, after: R, answer: A, leased: bool)
    requires Lawful(k) && k.later(earlier, before) && Ran(k, before, after, answer, leased)
    ensures Ran(k, earlier, after, answer, leased)
  {
    if leased {
      var found, now :| RanOn(k, before, after, answer, found, now);
      assert RanOn(k, earlier, after, answer, found, now);
    }
  }

  /** The record as each step left it: every step ran on the outside's answer to it. */
  ghost predicate Trace<R(!new), S, A, C>(k: Kind<R, S, A, C>, first: R, seen: seq<R>, answers: nat -> (A, bool)) {
    && seen != [] && seen[0] == first
    && forall i | 0 <= i < |seen| - 1 :: Ran(k, seen[i], seen[i + 1], answers(i).0, answers(i).1)
  }

  /** The trace of that many steps, ending with the record at hand. */
  ghost predicate TraceTo<R(!new), S, A, C>(
    k: Kind<R, S, A, C>, first: R, seen: seq<R>, answers: nat -> (A, bool), steps: nat, current: R)
  {
    Trace(k, first, seen, answers) && |seen| == steps + 1 && seen[steps] == current
  }

  lemma TraceSnoc<R(!new), S, A, C>(
    k: Kind<R, S, A, C>, first: R, seen: seq<R>, answers: nat -> (A, bool), steps: nat, current: R, next: R)
    requires TraceTo(k, first, seen, answers, steps, current)
    requires Ran(k, current, next, answers(steps).0, answers(steps).1)
    ensures TraceTo(k, first, seen + [next], answers, steps + 1, next)
    ensures Stuck(k, seen + [next]) <==> k.status(next) == k.status(current)
  {
  }

  /** The last step left the status as it was. */
  predicate Stuck<R, S(==), A, C>(k: Kind<R, S, A, C>, seen: seq<R>) {
    |seen| > 1 && k.status(seen[|seen| - 1]) == k.status(seen[|seen| - 2])
  }

  /** Listed earlier: good then, and the stored record has only moved on since. */
  ghost predicate Seen<R, S, A, C>(k: Kind<R, S, A, C>, rows: map<nat, R>, l: Listed<R>) {
    l.id in rows && k.good(l.record) && k.later(l.record, rows[l.id]) && k.status(l.record) in k.driveable
  }

  ghost predicate AllSeen<R, S, A, C>(k: Kind<R, S, A, C>, rows: map<nat, R>, listed: seq<Listed<R>>) {
    forall l <- listed :: Seen(k, rows, l)
  }

  lemma StillSeen<R(!new), S, A(!new), C(!new)>(k: Kind<R, S, A, C>, was: map<nat, R>, rows: map<nat, R>,
      listed: seq<Listed<R>>)
    requires Lawful(k) && Onward(k, was, rows) && AllSeen(k, was, listed)
    ensures AllSeen(k, rows, listed)
  {
    forall l <- listed ensures Seen(k, rows, l) {
      assert Seen(k, was, l);
    }
  }

  /** What a query for one status returns: its first rows in the store's order, with that status. */
  function Page<R, S(==), A, C>(k: Kind<R, S, A, C>, rows: map<nat, R>, status: S,
      order: seq<nat>): (page: seq<Listed<R>>)
    ensures |page| <= PER_STATUS
  {
    if order == [] then []
    else
      var id := order[|order| - 1];
      var before := Page(k, rows, status, order[..|order| - 1]);
      if |before| < PER_STATUS && id in rows && k.status(rows[id]) == status then before + [Listed(id, rows[id])]
          else before
  }

  /** A page holds rows with the status only, and all of them in that order unless it is full. */
  lemma {:induction false} PageIsComplete<R, S, A, C>(k: Kind<R, S, A, C>, rows: map<nat, R>, status: S,
      order: seq<nat>)
    ensures var page := Page(k, rows, status, order);
            && (forall l <- page ::
                l.id in order && l.id in rows && l.record == rows[l.id]
                && k.status(l.record) == status)
            && (|page| < 25 ==> forall id <- order | id in rows
                && k.status(rows[id]) == status :: Has(page, id))
  {
    if order != [] {
      var id := order[|order| - 1];
      var before := Page(k, rows, status, order[..|order| - 1]);
      PageIsComplete(k, rows, status, order[..|order| - 1]);
      if id in rows { FirstIdsGrow(before, Listed(id, rows[id])); }
    }
  }

  function Pages<R, S(==), A, C>(k: Kind<R, S, A, C>, stores: seq<map<nat, R>>, order: seq<nat>): seq<seq<Listed<R>>>
    requires |stores| == |k.driveable|
  {
    seq(|stores|, i requires 0 <= i < |stores| => Page(k, stores[i], k.driveable[i], order))
  }

  class Pipeline<R(!new), S(==), A(!new), C(!new)> {
    const kind: Kind<R, S, A, C>
    var rows: map<nat, R>
    var now: nat
    /** When each advance of this driver started. */
    ghost var starts: seq<nat>
    /** When each record's turn began. */
    ghost var turns: seq<nat>

    ghost predicate Valid()
      reads this
    {
      Lawful(kind) && forall id <- rows :: kind.good(rows[id])
    }

    constructor (kind: Kind<R, S, A, C>, rows: map<nat, R>, now: nat)
      requires Lawful(kind) && forall id <- rows :: kind.good(rows[id])
      ensures Valid() && this.kind == kind && this.rows == rows && this.now == now && starts == [] && turns == []
    {
      this.kind, this.rows, this.now, starts, turns := kind, rows, now, [], [];
    }

    /** Time passes and others write. */
    method Others()
      requires Valid()
      modifies `rows, `now
      ensures Valid() && now >= old(now) && Onward(kind, old(rows), rows)
    {
      var t: nat :| t >= now;
      now := t;
      var changes: map<nat, seq<C>> := *;
      forall id | id in rows && id in changes
        ensures kind.good(ChangeAll(kind, rows[id], changes[id]))
            && kind.later(rows[id], ChangeAll(kind, rows[id], changes[id]))
      {
        ChangeAllMovesOn(kind, rows[id], changes[id]);
      }
      rows := map id | id in rows :: if id in changes then ChangeAll(kind, rows[id], changes[id]) else rows[id];
    }

    /**
     The leased section of advanceDeposit and advanceWithdrawal; while another invocation keeps the lease, the
     stored record as it is.
     */
    method Advance(id: nat, answer: A, leased: bool) returns (next: R)
      requires Valid() && id in rows
      modifies `rows, `now, `starts
      ensures Valid() && now >= old(now) && Onward(kind, old(rows), rows) && id in rows && next == rows[id]
      ensures Ran(kind, old(rows[id]), next, answer, leased)
      ensures starts == old(starts) + [old(now)]
    {
      starts := starts + [now];
      ghost var before := rows[id];
      Others();
      ghost var found := rows[id];
      if leased {
        rows := rows[id := kind.advance(rows[id], answer, now)];
        assert RanOn(kind, before, rows[id], answer, found, now);
      }
      next := rows[id];
    }

    /** One turn of the driver's loop. */
    method Step(listed: Listed<R>, current: R, steps: nat, deadline: nat, answers: nat -> (A, bool)) returns (next: R)
      requires Valid() && listed.id in rows && Between(kind, listed.record, current, rows[listed.id]) && now < deadline
      requires kind.status(current) in kind.driveable
      requires Affords(kind, kind.status(listed.record), kind.status(current), steps)
      modifies `rows, `now, `starts
      ensures Valid() && now >= old(now) && Onward(kind, old(rows), rows)
      ensures listed.id in rows && Between(kind, listed.record, next, rows[listed.id])
      ensures Ran(kind, current, next, answers(steps).0, answers(steps).1)
      ensures kind.status(next) != kind.status(current) ==>
                Affords(kind, kind.status(listed.record), kind.status(next), steps + 1)
      ensures kind.status(listed.record) in kind.driveable ==> steps + 1 <= kind.left(kind.status(listed.record))
      ensures StartedBefore(old(starts), starts, deadline) && |starts| == |old(starts)| + 1
    {
      var (answer, leased) := answers(steps);
      next := Advance(listed.id, answer, leased);
      StepOn(kind, listed.record, current, old(rows[listed.id]), next, steps);
      RanLater(kind, current, old(rows[listed.id]), next, answer, leased);
    }

    /**
     Nothing starts once time is up, the record has only moved on, and it takes no more steps than its
     status leaves it: the cap of six is never what stops it. `answers` is what the outside says, step by step;
     `seen` is the record as each step left it. It stops when the status is none of the driver's, when a step
     left it where it was, or when time is up.
     */
    method Drive(listed: Listed<R>, deadline: nat, answers: nat -> (A, bool))
      returns (item: TickItem<S>, ghost seen: seq<R>)
      requires Valid() && listed.id in rows && kind.good(listed.record) && kind.later(listed.record, rows[listed.id])
      modifies `rows, `now, `starts
      ensures Valid() && now >= old(now) && Onward(kind, old(rows), rows)
      ensures item.id == listed.id && item.from == kind.status(listed.record)
      ensures exists last :: item.to == kind.status(last) && kind.later(listed.record, last)
                && TraceTo(kind, listed.record, seen, answers, item.steps, last)
      ensures item.backoff <==>
                kind.failedAt(listed.record).Some? && old(now) - kind.failedAt(listed.record).value < 10_000
      ensures item.steps == 0 <==> item.backoff || old(now) >= deadline || item.from !in kind.driveable
      ensures item.backoff || item.to !in kind.driveable || Stuck(kind, seen) || now >= deadline
      ensures item.from in kind.driveable ==> item.steps <= kind.left(item.from)
      ensures item.steps < 6
      ensures StartedBefore(old(starts), starts, deadline) && |starts| == |old(starts)| + item.steps
    {
      var from := kind.status(listed.record);
      item, seen := TickItem(listed.id, from, from, 0, false), [listed.record];
      if RecentlyFailed(kind.failedAt(listed.record), now) { return item.(backoff := true), seen; }
      var current := listed.record;
      while item.steps < MAX_STEPS_PER_RECORD && now < deadline && kind.status(current) in kind.driveable
        invariant Valid() && now >= old(now) && Onward(kind, old(rows), rows) && listed.id in rows
        invariant Between(kind, listed.record, current, rows[listed.id])
        invariant item == TickItem(listed.id, from, kind.status(current), item.steps, false)
        invariant TraceTo(kind, listed.record, seen, answers, item.steps, current)
        invariant item.steps == 0 ==> current == listed.record && now == old(now)
        invariant item.steps > 0 ==> old(now) < deadline && from in kind.driveable
        invariant Affords(kind, from, kind.status(current), item.steps)
        invariant StartedBefore(old(starts), starts, deadline) && |starts| == |old(starts)| + item.steps
      {
        var before := kind.status(current);
        ghost var was, startedBefore := rows, starts;
        var next := Step(listed, current, item.steps, deadline, answers);
        OnwardTwice(kind, old(rows), was, rows);
        StartedTwice(old(starts), startedBefore, starts, deadline);
        TraceSnoc(kind, listed.record, seen, answers, item.steps, current, next);
        item, seen := item.(steps := item.steps + 1, to := kind.status(next)), seen + [next];
        if kind.status(next) == before { return; }
        current := next;
      }
    }

    /** One page of one status, in whatever order the store has its rows. */
    method ListByStatus(status: S, order: seq<nat>) returns (page: seq<Listed<R>>)
      requires Valid()
      ensures page == Page(kind, rows, status, order)
      ensures forall l <- page :: l.id in rows && l.record == rows[l.id] && kind.status(l.record) == status
    {
      page := [];
      for i := 0 to |order|
        invariant page == Page(kind, rows, status, order[..i])
        invariant forall l <- page :: l.id in rows && l.record == rows[l.id] && kind.status(l.record) == status
      {
        assert order[..i + 1][..i] == order[..i];
        if |page| < PER_STATUS && order[i] in rows && kind.status(rows[order[i]]) == status {
          page := page + [Listed(order[i], rows[order[i]])];
        }
      }
      assert order[..|order|] == order;
    }

    /** Each page was listed from some store between the first one and the one at hand. */
    ghost predicate ListedFrom(first: map<nat, R>, stores: seq<map<nat, R>>, pages: seq<seq<Listed<R>>>,
        order: seq<nat>)
      reads this
    {
      && |stores| == |pages| <= |kind.driveable|
      && forall i | 0 <= i < |pages| ::
           Onward(kind, first, stores[i]) && Onward(kind, stores[i], rows)
               && pages[i] == Page(kind, stores[i], kind.driveable[i], order)
    }

    /** A page per driveable status, others writing in between: a record that moves meanwhile is listed twice. */
    method ListAll(order: seq<nat>) returns (pages: seq<seq<Listed<R>>>, ghost stores: seq<map<nat, R>>)
      requires Valid()
      modifies `rows, `now
      ensures Valid() && now >= old(now) && Onward(kind, old(rows), rows)
      ensures |pages| == |kind.driveable| && ListedFrom(old(rows), stores, pages, order)
      ensures AllSeen(kind, rows, Flatten(pages))
    {
      pages, stores := [], [];
      for i := 0 to |kind.driveable|
        invariant Valid() && now >= old(now) && Onward(kind, old(rows), rows)
        invariant |pages| == i && ListedFrom(old(rows), stores, pages, order)
        invariant AllSeen(kind, rows, Flatten(pages))
      {
        ghost var was := rows;
        Others();
        OnwardTwice(kind, old(rows), was, rows);
        StillSeen(kind, was, rows, Flatten(pages));
        StillListed(old(rows), was, stores, pages, order);
        var page := ListByStatus(kind.driveable[i], order);
        assert (pages + [page])[..|pages|] == pages;
        pages, stores := pages + [page], stores + [rows];
      }
    }

    lemma StillListed(first: map<nat, R>, was: map<nat, R>, stores: seq<map<nat, R>>, pages: seq<seq<Listed<R>>>,
        order: seq<nat>)
      requires Valid() && Onward(kind, was, rows) && |stores| == |pages| <= |kind.driveable|
      requires forall i | 0 <= i < |pages| ::
                 Onward(kind, first, stores[i]) && Onward(kind, stores[i], was)
                     && pages[i] == Page(kind, stores[i], kind.driveable[i], order)
      ensures ListedFrom(first, stores, pages, order)
    {
      forall i | 0 <= i < |pages| ensures Onward(kind, stores[i], rows) { OnwardTwice(kind, stores[i], was, rows); }
    }

    /**
     The pass over one kind of record: the first of the stored records in each driveable status, each record
     once and in order, and all of them unless the budget is spent; nothing starts once it is. `stores` are the
     stores that the pages were listed from, one after another.
     */
    method Tick(budget: nat, order: seq<nat>, answers: (nat, nat) -> (A, bool))
      returns (items: seq<TickItem<S>>, ghost stores: seq<map<nat, R>>)
      requires Valid()
      modifies this
      ensures Valid() && now >= old(now) && Onward(kind, old(rows), rows)
      ensures |stores| == |kind.driveable| && ListedFrom(old(rows), stores, Pages(kind, stores, order), order)
      ensures var listed := Firsts(Flatten(Pages(kind, stores, order)));
              AllDriven(items, listed, old(now), now, old(now) + budget)
              && (|items| < |listed| ==> now >= old(now) + budget)
      ensures forall i, j | 0 <= i < j < |items| :: items[i].id != items[j].id
      ensures StartedBefore(old(starts), starts, old(now) + budget) && |starts| == |old(starts)| + StepsOf(items)
      ensures StartedBefore(old(turns), turns, old(now) + budget) && |turns| == |old(turns)| + |items|
    {
      var deadline := now + budget;
      var pages;
      pages, stores := ListAll(order);
      assert pages == Pages(kind, stores, order);
      ghost var was := rows;
      var listed := Collect(pages);
      FirstsAreTheFirst(Flatten(pages));
      items := TickListed(listed, deadline, answers);
      OnwardTwice(kind, old(rows), was, rows);
      StillListed(old(rows), was, stores, pages, order);
    }

    /** The listed records one after another, until time is up. */
    method TickListed(listed: seq<Listed<R>>, deadline: nat, answers: (nat, nat) -> (A, bool))
        returns (items: seq<TickItem<S>>)
      requires Valid() && AllSeen(kind, rows, listed)
      modifies this
      ensures Valid() && now >= old(now) && Onward(kind, old(rows), rows)
      ensures AllDriven(items, listed, old(now), now, deadline) && (|items| < |listed| ==> now >= deadline)
      ensures StartedBefore(old(starts), starts, deadline) && |starts| == |old(starts)| + StepsOf(items)
      ensures StartedBefore(old(turns), turns, deadline) && |turns| == |old(turns)| + |items|
    {
      items := [];
      for i := 0 to |listed|
        invariant Valid() && now >= old(now) && Onward(kind, old(rows), rows)
        invariant AllSeen(kind, rows, listed)
        invariant |items| == i && AllDriven(items, listed, old(now), now, deadline)
        invariant StartedBefore(old(starts), starts, deadline) && |starts| == |old(starts)| + StepsOf(items)
        invariant StartedBefore(old(turns), turns, deadline) && |turns| == |old(turns)| + |items|
      {
        if now >= deadline { break; }
        ghost var was, before, begun, began := rows, starts, turns, now;
        var item := TickOne(listed[i], deadline, answers, i);
        OnwardTwice(kind, old(rows), was, rows);
        StillSeen(kind, was, rows, listed);
        StartedTwice(old(starts), before, starts, deadline);
        StartedTwice(old(turns), begun, turns, deadline);
        DrivenSnoc(items, item, listed, old(now), began, now, deadline);
        items := items + [item];
      }
    }

    ghost predicate AllDriven(items: seq<TickItem<S>>, listed: seq<Listed<R>>, begin: nat, end: nat, deadline: nat) {
      |items| <= |listed| && forall i | 0 <= i < |items| :: Driven(items[i], listed[i], begin, end, deadline)
    }

    lemma DrivenSnoc(
      items: seq<TickItem<S>>, item: TickItem<S>, listed: seq<Listed<R>>, begin: nat, mid: nat, end: nat, deadline: nat)
      requires AllDriven(items, listed, begin, mid, deadline) && |items| < |listed| && begin <= mid <= end
      requires Driven(item, listed[|items|], mid, end, deadline)
      ensures AllDriven(items + [item], listed, begin, end, deadline)
      ensures StepsOf(items + [item]) == StepsOf(items) + item.steps
    {
      assert (items + [item])[..|items|] == items;
    }

    function StepsOf(items: seq<TickItem<S>>): nat {
      if items == [] then 0 else StepsOf(items[..|items| - 1]) + items[|items| - 1].steps
    }

    /** A record that was listed and had its turn: no step only after a recent failure, or because time was up. */
    predicate Driven(item: TickItem<S>, listed: Listed<R>, begin: nat, end: nat, deadline: nat) {
      && item.id == listed.id && item.from == kind.status(listed.record) && Bounded(item)
      && (item.steps == 0 ==> item.backoff || end >= deadline)
      && (item.backoff ==>
            item.steps == 0 && kind.failedAt(listed.record).Some?
                && begin - kind.failedAt(listed.record).value < 10_000)
    }

    predicate Bounded(item: TickItem<S>) {
      item.from in kind.driveable && item.steps <= kind.left(item.from)
    }

    /** Between the listing and the drive (autoPlayBank) others write. */
    method TickOne(listed: Listed<R>, deadline: nat, answers: (nat, nat) -> (A, bool), i: nat)
        returns (item: TickItem<S>)
      requires Valid() && Seen(kind, rows, listed)
      modifies this
      ensures Valid() && now >= old(now) && Onward(kind, old(rows), rows)
      ensures Driven(item, listed, old(now), now, deadline)
      ensures StartedBefore(old(starts), starts, deadline) && |starts| == |old(starts)| + item.steps
      ensures turns == old(turns) + [old(now)]
    {
      turns := turns + [now];
      Others();
      StillSeen(kind, old(rows), rows, [listed]);
      assert listed in [listed];
      ghost var was := rows;
      ghost var seen;
      item, seen := Drive(listed, deadline, (n: nat) => answers(i, n));
      OnwardTwice(kind, old(rows), was, rows);
    }
  }
}
