/**
 The public numbers (lib/metrics.server.ts): the funnel of records by the furthest stage they reached,
 and the onboarding curve in buckets.
 */
module Metrics {
  import opened Prelude
  import Deposit
  import DepositFacts

  // --- the funnel -------------------------------------------------------------------------------

  datatype Entry<S> = Entry(status: S, history: seq<S>)

  /** What the history and the current status name, in order. */
  function Past<S>(e: Entry<S>): seq<S> {
    e.history + [e.status]
  }

  /** `f` is the highest stage among the statuses, or -1 when none of them is a stage. */
  ghost predicate Furthest<S>(past: seq<S>, index: S -> Option<nat>, f: int) {
    && f >= -1
    && (forall i | 0 <= i < |past| && index(past[i]).Some? :: index(past[i]).value <= f)
    && (f >= 0 ==> exists i :: 0 <= i < |past| && index(past[i]) == Some(f))
  }

  /** The record has, or had, a status at stage `i` or past it. */
  predicate Reached<S>(e: Entry<S>, index: S -> Option<nat>, i: nat) {
    exists k | 0 <= k < |Past(e)| :: index(Past(e)[k]).Some? && index(Past(e)[k]).value >= i
  }

  function CountReached<S>(records: seq<Entry<S>>, index: S -> Option<nat>, i: nat): nat {
    if records == [] then 0
    else CountReached(records[..|records| - 1], index, i) + (if Reached(records[|records| - 1], index, i) then 1 else 0)
  }

  /** Records that reached stage `i` and no later one. */
  function CountStopped<S>(records: seq<Entry<S>>, index: S -> Option<nat>, i: nat): nat {
    if records == [] then 0
    else
      var e := records[|records| - 1];
      CountStopped(records[..|records| - 1], index, i) + (if Reached(e, index, i) && !Reached(e, index, i + 1)
          then 1 else 0)
  }

  function CountExits<S(==)>(records: seq<Entry<S>>, index: S -> Option<nat>, s: S): nat {
    if records == [] then 0
    else CountExits(records[..|records| - 1], index, s) + (if records[|records| - 1].status == s && index(s).None?
        then 1 else 0)
  }

  method FurthestStage<S>(e: Entry<S>, index: S -> Option<nat>) returns (f: int)
    ensures Furthest(Past(e), index, f)
    ensures forall i: nat :: Reached(e, index, i) <==> i <= f
  {
    f := -1;
    var past := Past(e);
    for k := 0 to |past|
      invariant Furthest(past[..k], index, f)
    {
      assert past[..k + 1] == past[..k] + [past[k]];
      var i := index(past[k]);
      if i.Some? && i.value > f {
        f := i.value;
        assert index(past[..k + 1][k]) == Some(f);
      } else if f >= 0 {
        var j :| 0 <= j < k && index(past[..k][j]) == Some(f);
        assert index(past[..k + 1][j]) == Some(f);
      }
    }
    assert past[..|past|] == past;
  }

  /** The counts, the drop-offs as the records that stopped at each stage, and the exits by status. */
  method Funnel<S(==, !new)>(records: seq<Entry<S>>, stages: nat, index: S -> Option<nat>)
    returns (counts: seq<nat>, dropOffs: seq<int>, exits: map<S, nat>)
    requires forall s :: index(s).Some? ==> index(s).value < stages
    ensures |counts| == |dropOffs| == stages
    ensures forall i | 0 <= i < stages :: counts[i] == CountReached(records, index, i)
    ensures forall i | 0 <= i < stages :: dropOffs[i] == if i < stages - 1 then CountStopped(records, index, i) else 0
    ensures forall s :: CountExits(records, index, s) == if s in exits then exits[s] else 0
  {
    var reached := new nat[stages](_ => 0);
    exits := map[];
    for n := 0 to |records|
      invariant forall i | 0 <= i < stages :: reached[i] == CountReached(records[..n], index, i)
      invariant forall s :: CountExits(records[..n], index, s) == if s in exits then exits[s] else 0
    {
      var r := records[n];
      assert records[..n + 1][..n] == records[..n];
      var furthest := FurthestStage(r, index);
      for i := 0 to furthest + 1
        invariant forall j | 0 <= j < i :: reached[j] == CountReached(records[..n], index, j) + 1
        invariant forall j | i <= j < stages :: reached[j] == CountReached(records[..n], index, j)
      {
        reached[i] := reached[i] + 1;
      }
      if index(r.status).None? {
        exits := exits[r.status := (if r.status in exits then exits[r.status] else 0) + 1];
      }
    }
    assert records[..|records|] == records;
    counts := reached[..];
    dropOffs := seq(stages, i requires 0 <= i < stages => if i < stages - 1
        then counts[i] as int - counts[i + 1] as int else 0);
    forall i | 0 <= i < stages - 1 ensures dropOffs[i] == CountStopped(records, index,
        i) { StoppedIsTheDifference(records, index, i); }
  }

  lemma {:induction false} StoppedIsTheDifference<S>(records: seq<Entry<S>>, index: S -> Option<nat>, i: nat)
    ensures CountStopped(records, index, i) == CountReached(records, index, i) - CountReached(records, index, i + 1)
  {
    if records != [] {
      StoppedIsTheDifference(records[..|records| - 1], index, i);
      var e := records[|records| - 1];
      assert Reached(e, index, i + 1) ==> Reached(e, index, i);
    }
  }

  /** Later stages have no more records than earlier ones. */
  lemma {:induction false} CountsNeverRise<S>(records: seq<Entry<S>>, index: S -> Option<nat>, i: nat, j: nat)
    requires i <= j
    ensures CountReached(records, index, j) <= CountReached(records, index, i) <= |records|
  {
    if records != [] {
      CountsNeverRise(records[..|records| - 1], index, i, j);
      var e := records[|records| - 1];
      assert Reached(e, index, j) ==> Reached(e, index, i);
    }
  }

  function SumStopped<S>(records: seq<Entry<S>>, index: S -> Option<nat>, upTo: nat): nat {
    if upTo == 0 then 0 else SumStopped(records, index, upTo - 1) + CountStopped(records, index, upTo - 1)
  }

  /** The drop-offs add up to what was lost between the first stage and the last. */
  lemma {:induction false} DropOffsTelescope<S>(records: seq<Entry<S>>, index: S -> Option<nat>, last: nat)
    ensures SumStopped(records, index, last) == CountReached(records, index, 0) - CountReached(records, index, last)
  {
    if last > 0 {
      DropOffsTelescope(records, index, last - 1);
      StoppedIsTheDifference(records, index, last - 1);
    }
  }

  // --- deposits in the funnel -------------------------------------------------------------------

  function DepositStage(s: Deposit.Status): Option<nat> {
    match s
    case AwaitingTransfer => Some(0)
    case TransferReceived => Some(1)
    case OnrampPending => Some(1)
    case OnrampPaid => Some(2)
    case Forwarded => Some(2)
    case InWallet => Some(3)
    case InVault => Some(4)
    case _ => None
  }

  /** A live deposit counts for exactly the stages up to its current one: its history never was further. */
  lemma LiveDepositStage(r: Deposit.Record, i: nat)
    requires DepositFacts.RecordOk(r) && DepositStage(r.status).Some?
    ensures Reached(Entry(r.status, r.history), s => DepositStage(s), i) <==> i <= DepositStage(r.status).value
  {
    var past := Past(Entry(r.status, r.history));
    assert past[|r.history|] == r.status;
    forall k | 0 <= k < |past| && DepositStage(past[k]).Some?
        ensures DepositStage(past[k]).value <= DepositStage(r.status).value {
      if k < |r.history| { assert DepositFacts.Rank(r.history[k]) <= DepositFacts.Rank(r.history[|r.history| - 1]); }
    }
  }

  ghost predicate Was(r: Deposit.Record, s: Deposit.Status) {
    s in Past(Entry(r.status, r.history))
  }

  /** What each stage of the funnel counts, in statuses: its own, those it contains, and all later ones. */
  lemma StagesInStatuses(r: Deposit.Record, i: nat)
    ensures Reached(Entry(r.status, r.history), s => DepositStage(s), i) <==> exists s :: Was(r, s) && Counts(s, i)
  {
    var past := Past(Entry(r.status, r.history));
    if s :| Was(r, s) && Counts(s, i) {
      var k :| 0 <= k < |past| && past[k] == s;
      assert DepositStage(past[k]).Some? && DepositStage(past[k]).value >= i;
    }
    if Reached(Entry(r.status, r.history), s => DepositStage(s), i) {
      var k :| 0 <= k < |past| && DepositStage(past[k]).Some? && DepositStage(past[k]).value >= i;
      assert Was(r, past[k]) && Counts(past[k], i);
    }
  }

  /** awaiting_transfer, transfer_received, onramp_paid, in_wallet and in_vault are the stages 0 to 4. */
  predicate Counts(s: Deposit.Status, stage: nat) {
    || (s.InVault? && stage <= 4)
    || (s.InWallet? && stage <= 3)
    || ((s.Forwarded? || s.OnrampPaid?) && stage <= 2)
    || ((s.OnrampPending? || s.TransferReceived?) && stage <= 1)
    || (s.AwaitingTransfer? && stage == 0)
  }

  // --- the curve --------------------------------------------------------------------------------

  const MINUTE: nat := 60_000
  const DAY: nat := 1440 * MINUTE

  /** Events in a half-open interval. */
  function Inside(times: seq<nat>, from: int, to: int): nat {
    if times == [] then 0
    else Inside(times[..|times| - 1], from, to) + (if from <= times[|times| - 1] < to then 1 else 0)
  }

  /** The narrowest width that keeps the window within two hundred bars, or else a day. */
  ghost predicate Chosen(span: nat, width: nat) {
    && width in {15 * MINUTE, 60 * MINUTE, 360 * MINUTE, DAY}
    && (span <= 200 * width || width == DAY)
    && (forall w | w in {15 * MINUTE, 60 * MINUTE, 360 * MINUTE} && w < width :: 200 * w < span)
  }

  method BucketWidth(span: nat) returns (width: nat)
    ensures Chosen(span, width)
  {
    var widths: seq<nat> := [15, 60, 360, 1440];
    for i := 0 to |widths|
      invariant i > 0 ==> 200 * (15 * MINUTE) < span
      invariant i > 1 ==> 200 * (60 * MINUTE) < span
      invariant i > 2 ==> 200 * (360 * MINUTE) < span
    {
      if span <= 200 * (widths[i] * MINUTE) { return widths[i] * MINUTE; }
    }
    width := DAY;
  }

  lemma Divide(n: nat, width: nat)
    requires width > 0
    ensures n / width * width <= n < n / width * width + width
  {
  }

  lemma InTheBarOf(t: nat, width: nat, k: nat)
    requires width > 0
    ensures t / width == k <==> k * width <= t < k * width + width
  {
    Divide(t, width);
    if k < t / width { Scale(k + 1, t / width, width); }
    if t / width < k { Scale(t / width + 1, k, width); }
  }

  lemma Scale(a: nat, b: nat, width: nat)
    requires a <= b
    ensures a * width <= b * width
  {
  }

  /** Where the bars start: at `first`, a multiple of the width no later than the window. */
  datatype Curve = Curve(first: nat, width: nat, bars: seq<nat>)

  /** Where bar `k` starts: the width added `k` times. */
  function BarStart(first: nat, width: nat, k: nat): nat {
    if k == 0 then first else BarStart(first, width, k - 1) + width
  }

  lemma {:induction false} BarStartIs(first: nat, width: nat, k: nat)
    ensures BarStart(first, width, k) == first + k * width
  {
    if k > 0 {
      BarStartIs(first, width, k - 1);
      assert k * width == (k - 1) * width + width;
    }
  }

  function WindowStart(since: nat, earliest: nat, now: nat): nat {
    if since > 0 && since * 1000 <= now then if since * 1000 >= earliest then since * 1000 else earliest else earliest
  }

  /** The earliest of the times and now. */
  ghost predicate IsEarliest(times: seq<nat>, now: nat, e: nat) {
    e <= now && (forall i | 0 <= i < |times| :: e <= times[i]) && (e == now || e in times)
  }

  method Earliest(times: seq<nat>, now: nat) returns (e: nat)
    ensures IsEarliest(times, now, e)
  {
    e := now;
    for i := 0 to |times|
      invariant e <= now && forall j | 0 <= j < i :: e <= times[j]
      invariant e == now || e in times
    {
      if times[i] < e { e := times[i]; }
    }
  }

  /** The length of the window, a quarter of an hour at least. */
  function Span(windowStart: nat, now: nat): nat {
    if now < windowStart + 15 * MINUTE then 15 * MINUTE else now - windowStart
  }

  /** The bars from the window's start to now, still empty. */
  method EmptyBars(windowStart: nat, now: nat, width: nat) returns (c: Curve)
    requires windowStart <= now && width > 0
    ensures c.width == width && c.first % width == 0 && c.first <= windowStart < c.first + width
    ensures |c.bars| == (now - c.first) / width + 1 && forall k | 0 <= k < |c.bars| :: c.bars[k] == 0
  {
    Divide(windowStart, width);
    var first := windowStart / width * width;
    MultipleOf(windowStart / width, width);
    var bars: seq<nat> := [];
    var start := first;
    InTheBarOf(now - first, width, (now - first) / width);
    while start <= now
      invariant start == first + |bars| * width && |bars| * width <= now - first + width
      invariant |bars| <= (now - first) / width + 1
      invariant forall k | 0 <= k < |bars| :: bars[k] == 0
      decreases now + width - start
    {
      NextBar(|bars|, now - first, width);
      start, bars := start + width, bars + [0];
    }
    LastBar(|bars|, now - first, width);
    c := Curve(first, width, bars);
  }

  lemma MultipleOf(n: nat, width: nat)
    requires width > 0
    ensures (n * width) % width == 0
  {
    Divide(n * width, width);
    InTheBarOf(n * width, width, n);
  }

  lemma NextBar(n: nat, gap: nat, width: nat)
    requires width > 0 && n * width <= gap
    ensures n <= gap / width && (n + 1) * width == n * width + width
  {
    Divide(gap, width);
    if n > gap / width { Scale(gap / width + 1, n, width); }
  }

  lemma LastBar(n: nat, gap: nat, width: nat)
    requires width > 0 && n * width > gap && n <= gap / width + 1
    ensures n == gap / width + 1
  {
    Divide(gap, width);
    if n <= gap / width { Scale(n, gap / width, width); }
  }

  /** Where the last bar ends. */
  function EndOf(c: Curve): nat {
    BarStart(c.first, c.width, |c.bars|)
  }

  /** Events in bar `k`. */
  function InBar(times: seq<nat>, first: nat, width: nat, k: nat): nat {
    Inside(times, BarStart(first, width, k), BarStart(first, width, k + 1))
  }

  ghost predicate Counted(c: Curve, times: seq<nat>) {
    forall k | 0 <= k < |c.bars| :: c.bars[k] == InBar(times, c.first, c.width, k)
  }

  lemma InBarSnoc(times: seq<nat>, t: nat, first: nat, width: nat, k: nat)
    requires width > 0 && t >= first
    ensures InBar(times + [t], first, width, k) == InBar(times, first, width, k) + (if k == (t - first) / width
        then 1 else 0)
  {
    assert (times + [t])[..|times|] == times;
    BarStartIs(first, width, k);
    InTheBarOf(t - first, width, k);
  }

  /** The accounts of the window, counted into their bars; one past the last bar is dropped. */
  method FillBars(empty: Curve, times: seq<nat>) returns (c: Curve)
    requires empty.width > 0 && forall k | 0 <= k < |empty.bars| :: empty.bars[k] == 0
    requires forall i | 0 <= i < |times| :: times[i] >= empty.first
    ensures c == empty.(bars := c.bars) && |c.bars| == |empty.bars| && Counted(c, times)
  {
    var first, width := empty.first, empty.width;
    var bars := empty.bars;
    for i := 0 to |times|
      invariant |bars| == |empty.bars|
      invariant forall k | 0 <= k < |bars| :: bars[k] == InBar(times[..i], first, width, k)
    {
      var idx := (times[i] - first) / width;
      assert times[..i + 1] == times[..i] + [times[i]];
      forall k | 0 <= k < |bars|
        ensures InBar(times[..i + 1], first, width, k) == InBar(times[..i], first, width, k) + (if k == idx
            then 1 else 0)
      {
        InBarSnoc(times[..i], times[i], first, width, k);
      }
      if idx < |bars| { bars := bars[idx := bars[idx] + 1]; }
    }
    assert times[..|times|] == times;
    c := Curve(first, width, bars);
  }

  function Sum(s: seq<nat>): nat {
    if s == [] then 0 else Sum(s[..|s| - 1]) + s[|s| - 1]
  }

  lemma {:induction false} Adjacent(times: seq<nat>, a: int, b: int, c: int)
    requires a <= b <= c
    ensures Inside(times, a, b) + Inside(times, b, c) == Inside(times, a, c)
  {
    if times != [] { Adjacent(times[..|times| - 1], a, b, c); }
  }

  function InBars(times: seq<nat>, first: nat, width: nat, n: nat): nat {
    if n == 0 then 0 else InBars(times, first, width, n - 1) + InBar(times, first, width, n - 1)
  }

  lemma {:induction false} BarsAddUp(times: seq<nat>, first: nat, width: nat, n: nat)
    ensures first <= BarStart(first, width, n) && InBars(times, first, width, n) == Inside(times, first,
        BarStart(first, width, n))
  {
    if n == 0 {
      Adjacent(times, first, first, first);
    } else {
      BarsAddUp(times, first, width, n - 1);
      Adjacent(times, first, BarStart(first, width, n - 1), BarStart(first, width, n));
    }
  }

  lemma {:induction false} SumOfBars(c: Curve, times: seq<nat>)
    requires Counted(c, times)
    ensures Sum(c.bars) == InBars(times, c.first, c.width, |c.bars|)
    decreases |c.bars|
  {
    if c.bars != [] {
      var fewer := c.(bars := c.bars[..|c.bars| - 1]);
      assert forall k | 0 <= k < |fewer.bars| :: fewer.bars[k] == c.bars[k];
      SumOfBars(fewer, times);
    }
  }

  lemma {:induction false} AllInside(times: seq<nat>, from: int, to: int)
    ensures Inside(times, from, to) <= |times|
    ensures Inside(times, from, to) == |times| <==> forall i | 0 <= i < |times| :: from <= times[i] < to
  {
    if times != [] {
      var rest := times[..|times| - 1];
      AllInside(rest, from, to);
      if forall i | 0 <= i < |rest| :: from <= rest[i] < to {
        assert forall i | 0 <= i < |times| - 1 :: times[i] == rest[i];
      } else {
        var i :| 0 <= i < |rest| && !(from <= rest[i] < to);
        assert times[i] == rest[i];
      }
    }
  }

  function Since(times: seq<nat>, from: nat): seq<nat> {
    if times == [] then []
    else Since(times[..|times| - 1], from) + (if times[|times| - 1] >= from then [times[|times| - 1]] else [])
  }

  lemma {:induction false} SinceOnlyKeeps(times: seq<nat>, from: nat, earliest: nat)
    requires forall i | 0 <= i < |times| :: earliest <= times[i]
    ensures forall i | 0 <= i < |Since(times, from)| ::
        Since(times, from)[i] >= from
        && Since(times, from)[i] >= earliest
  {
    if times != [] { SinceOnlyKeeps(times[..|times| - 1], from, earliest); }
  }

  /** The window keeps exactly the events since its start. */
  lemma {:induction false} SinceIsTheWindow(times: seq<nat>, start: nat, from: int, to: int)
    ensures Inside(Since(times, start), from, to) == Inside(times, if from < start then start else from, to)
  {
    if times != [] {
      var rest, last := times[..|times| - 1], times[|times| - 1];
      SinceIsTheWindow(rest, start, from, to);
      var kept := Since(rest, start);
      assert (kept + [last])[..|kept|] == kept && kept + [] == kept;
    }
  }

  /**
   The window starts with the first event, or where it was asked to if that is later and not in the future; it is
   never in the future, and its span is at least a quarter of an hour.
   */
  lemma WhereTheWindowStarts(since: nat, earliest: nat, now: nat)
    requires earliest <= now
    ensures earliest <= WindowStart(since, earliest, now) <= now
    ensures WindowStart(since, earliest, now) == earliest || WindowStart(since, earliest, now) == 1000 * since
    ensures since > 0 && 1000 * since <= now ==> WindowStart(since, earliest, now) >= 1000 * since
    ensures since == 0 || 1000 * since > now ==> WindowStart(since, earliest, now) == earliest
    ensures var span := Span(WindowStart(since, earliest, now), now);
            span >= 900_000 && span >= now - WindowStart(since, earliest, now)
            && (span == 900_000 || span == now - WindowStart(since, earliest, now))
  {
  }

  lemma FewBars(windowStart: nat, first: nat, now: nat, width: nat)
    requires width > 0 && first <= windowStart < first + width && windowStart <= now <= windowStart + 200 * width
    ensures (now - first) / width + 1 <= 201
  {
    Divide(now - first, width);
    if (now - first) / width > 200 { Scale(201, (now - first) / width, width); }
  }

  lemma Covers(first: nat, width: nat, now: nat)
    requires width > 0 && first <= now
    ensures BarStart(first, width, (now - first) / width) <= now < BarStart(first, width, (now - first) / width + 1)
  {
    Divide(now - first, width);
    BarStartIs(first, width, (now - first) / width);
  }

  /**
   The onboarding curve: the bars cover the window up to now, at most 201 of them unless a bar is a day,
   and each counts the accounts of its own interval.
   */
  method OnboardingCurve(all: seq<nat>, since: nat, now: nat) returns (c: Curve)
    ensures c.width > 0 && c.first % c.width == 0
    ensures exists e :: IsEarliest(all, now, e)
              && c.first <= WindowStart(since, e, now) < c.first + c.width
                  && Chosen(Span(WindowStart(since, e, now), now), c.width)
    ensures |c.bars| > 0 && BarStart(c.first, c.width, |c.bars| - 1) <= now < EndOf(c)
    ensures |c.bars| <= 201 || c.width == DAY
    ensures Counted(c, Since(all, since * 1000))
    ensures forall i | 0 <= i < |Since(all, since * 1000)| :: c.first <= Since(all, since * 1000)[i]
  {
    var inWindow := Since(all, since * 1000);
    var earliest := Earliest(all, now);
    SinceOnlyKeeps(all, since * 1000, earliest);
    var windowStart := WindowStart(since, earliest, now);
    var span := Span(windowStart, now);
    var width := BucketWidth(span);
    var empty := EmptyBars(windowStart, now, width);
    c := FillBars(empty, inWindow);
    if span <= 200 * width { FewBars(windowStart, c.first, now, width); }
    Covers(c.first, width, now);
  }

  /**
   The bars hold every account of the window if and only if none is dated past the end of the last bar; so
   they do when nothing is dated after now, and an account dated after now counts as long as its bar exists.
   */
  lemma BarsHoldTheWindow(c: Curve, times: seq<nat>, now: nat)
    requires Counted(c, times) && c.first <= now < EndOf(c) && forall i | 0 <= i < |times| :: c.first <= times[i]
    ensures Sum(c.bars) == |times| <==> forall i | 0 <= i < |times| :: times[i] < EndOf(c)
    ensures (forall i | 0 <= i < |times| :: times[i] <= now) ==> Sum(c.bars) == |times|
  {
    SumOfBars(c, times);
    BarsAddUp(times, c.first, c.width, |c.bars|);
    AllInside(times, c.first, EndOf(c));
  }
}
