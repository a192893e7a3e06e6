/**
 The sliding-window rate limiter (lib/db/store.ts): timestamps per bucket, pruned on every call. Each call
 is atomic here.
 */
module RateLimit {

  /** A salted hash of what is being limited. */
  type Bucket = nat

  /** The rows of each bucket, oldest first. */
  type Table = map<Bucket, seq<nat>>

  /** A limit of zero or less means unlimited. */
  datatype Call = Call(bucket: Bucket, limit: int, windowMs: nat, now: nat)

  datatype Verdict = Verdict(allowed: bool, count: nat)

  function Of(t: Table, bucket: Bucket): seq<nat> {
    if bucket in t then t[bucket] else []
  }

  /** What a deletion of the rows from before the cutoff leaves. */
  function Keep(times: seq<nat>, cutoff: int): seq<nat> {
    if |times| == 0 then []
    else
      var rest, last := times[..|times| - 1], times[|times| - 1];
      Keep(rest, cutoff) + (if last < cutoff then [] else [last])
  }

  /** The call goes through on these rows of its bucket. */
  predicate Allows(times: seq<nat>, c: Call) {
    c.limit <= 0 || |Keep(times, c.now - c.windowMs)| < c.limit
  }

  function Recorded(times: seq<nat>, c: Call): (r: seq<nat>)
    ensures |r| <= 1
  {
    if Allows(times, c) then [c.now] else []
  }

  class Limiter {
    var rows: Table

    constructor ()
      ensures rows == map[]
    {
      rows := map[];
    }

    method RateLimitHit(c: Call) returns (v: Verdict)
      modifies this
      ensures v.allowed == Allows(Of(old(rows), c.bucket), c)
      ensures rows == After(old(rows), c)
      ensures v.count == |Of(rows, c.bucket)|
    {
      rows := rows[c.bucket := Keep(Of(rows, c.bucket), c.now - c.windowMs)];
      var count := |Of(rows, c.bucket)|;
      if c.limit > 0 && count >= c.limit {
        assert Of(rows, c.bucket) + [] == Of(rows, c.bucket);
        return Verdict(false, count);
      }
      rows := rows[c.bucket := Of(rows, c.bucket) + [c.now]];
      v := Verdict(true, count + 1);
    }
  }

  // --- runs -------------------------------------------------------------------------------------

  function After(t: Table, c: Call): Table {
    var times := Of(t, c.bucket);
    t[c.bucket := Keep(times, c.now - c.windowMs) + Recorded(times, c)]
  }

  /** The table after a run of calls on an empty one. */
  function Run(calls: seq<Call>): Table {
    if |calls| == 0 then map[] else After(Run(calls[..|calls| - 1]), calls[|calls| - 1])
  }

  /** Every allowed hit of a bucket, never pruned. */
  function Log(calls: seq<Call>, bucket: Bucket): seq<nat> {
    if |calls| == 0 then []
    else
      var rest, last := calls[..|calls| - 1], calls[|calls| - 1];
      if last.bucket == bucket then Log(rest, bucket) + Recorded(Of(Run(rest), bucket), last) else Log(rest, bucket)
  }

  /** One clock, and one limit and window for the bucket. */
  predicate Orderly(calls: seq<Call>, bucket: Bucket, limit: int, windowMs: nat) {
    if |calls| == 0 then true
    else
      var rest, last := calls[..|calls| - 1], calls[|calls| - 1];
      && Orderly(rest, bucket, limit, windowMs)
      && (|rest| > 0 ==> rest[|rest| - 1].now <= last.now)
      && (last.bucket == bucket ==> last.limit == limit && last.windowMs == windowMs)
  }

  lemma {:induction false} KeepTwice(times: seq<nat>, a: int, b: int)
    requires a <= b
    ensures Keep(Keep(times, a), b) == Keep(times, b)
  {
    if |times| > 0 {
      var rest, last := times[..|times| - 1], times[|times| - 1];
      KeepTwice(rest, a, b);
      var k := Keep(rest, a);
      assert (k + [last])[..|k|] == k && k + [] == k;
    }
  }

  lemma KeepSnoc(times: seq<nat>, t: nat, cutoff: int)
    ensures Keep(times + [t], cutoff) == Keep(times, cutoff) + (if t < cutoff then [] else [t])
  {
    assert (times + [t])[..|times|] == times;
  }

  lemma {:induction false} SameAfterACall(times: seq<nat>, log: seq<nat>, recorded: seq<nat>, pruneAt: int, cutoff: int)
    requires Keep(times, cutoff) == Keep(log, cutoff) && pruneAt <= cutoff && |recorded| <= 1
    ensures Keep(Keep(times, pruneAt) + recorded, cutoff) == Keep(log + recorded, cutoff)
  {
    KeepTwice(times, pruneAt, cutoff);
    if |recorded| == 0 {
      assert Keep(times, pruneAt) + recorded == Keep(times, pruneAt) && log + recorded == log;
    } else {
      assert recorded == [recorded[0]];
      KeepSnoc(Keep(times, pruneAt), recorded[0], cutoff);
      KeepSnoc(log, recorded[0], cutoff);
    }
  }

  /** Pruning forgets nothing that could still count. */
  lemma {:induction false} PrunedRowsSuffice(calls: seq<Call>, bucket: Bucket, limit: int, windowMs: nat, cutoff: int)
    requires Orderly(calls, bucket, limit, windowMs)
    requires |calls| > 0 ==> calls[|calls| - 1].now - windowMs <= cutoff
    ensures Keep(Of(Run(calls), bucket), cutoff) == Keep(Log(calls, bucket), cutoff)
    decreases |calls|
  {
    if |calls| > 0 {
      var rest, last := calls[..|calls| - 1], calls[|calls| - 1];
      PrunedRowsSuffice(rest, bucket, limit, windowMs, cutoff);
      if last.bucket == bucket {
        var times := Of(Run(rest), bucket);
        SameAfterACall(times, Log(rest, bucket), Recorded(times, last), last.now - windowMs, cutoff);
      } else {
        assert Of(Run(calls), bucket) == Of(Run(rest), bucket) && Log(calls, bucket) == Log(rest, bucket);
      }
    }
  }

  /** After any run of calls, the pruned rows answer the next one as the full log of allowed hits would. */
  lemma {:induction false} AnswersByTheFullLog(calls: seq<Call>, c: Call)
    requires Orderly(calls, c.bucket, c.limit, c.windowMs) && (|calls| > 0 ==> calls[|calls| - 1].now <= c.now)
    ensures Allows(Of(Run(calls), c.bucket), c) <==> Allows(Log(calls, c.bucket), c)
  {
    PrunedRowsSuffice(calls, c.bucket, c.limit, c.windowMs, c.now - c.windowMs);
  }

  // --- the limit --------------------------------------------------------------------------------

  ghost predicate Ascending(times: seq<nat>) {
    forall i, j | 0 <= i < j < |times| :: times[i] <= times[j]
  }

  /** A hit and the one `limit` hits before it are more than a window apart. */
  ghost predicate Spaced(times: seq<nat>, limit: nat, windowMs: nat) {
    forall i | limit <= i < |times| :: times[i - limit] + windowMs < times[i]
  }

  lemma {:induction false} KeepsAtLeast(times: seq<nat>, cutoff: int, from: nat)
    requires from <= |times| && forall i | from <= i < |times| :: times[i] >= cutoff
    ensures |Keep(times, cutoff)| >= |times| - from
    decreases |times|
  {
    if from < |times| { KeepsAtLeast(times[..|times| - 1], cutoff, from); }
  }

  lemma {:induction false} SpacedSnoc(log: seq<nat>, now: nat, limit: nat, windowMs: nat)
    requires limit > 0 && Ascending(log) && Spaced(log, limit, windowMs) && EndsBy(log, now)
    requires |Keep(log, now - windowMs)| < limit
    ensures Ascending(log + [now]) && Spaced(log + [now], limit, windowMs) && EndsBy(log + [now], now)
  {
    if |log| >= limit && log[|log| - limit] >= now - windowMs {
      var from := |log| - limit;
      assert forall i | from <= i < |log| :: log[from] <= log[i];
      KeepsAtLeast(log, now - windowMs, from);
      assert false;
    }
    var longer := log + [now];
    forall i | limit <= i < |longer| ensures longer[i - limit] + windowMs < longer[i] {
      assert longer[i - limit] == log[i - limit];
    }
  }

  predicate EndsBy(times: seq<nat>, now: nat) {
    |times| > 0 ==> times[|times| - 1] <= now
  }

  ghost predicate Tidy(log: seq<nat>, limit: nat, windowMs: nat, now: nat) {
    Ascending(log) && Spaced(log, limit, windowMs) && EndsBy(log, now)
  }

  lemma {:induction false} OneCallTidy(log: seq<nat>, c: Call)
    requires c.limit > 0 && Tidy(log, c.limit, c.windowMs, c.now)
    ensures Tidy(log + Recorded(log, c), c.limit, c.windowMs, c.now)
  {
    if Allows(log, c) { SpacedSnoc(log, c.now, c.limit, c.windowMs); } else { assert log + [] == log; }
  }

  lemma {:induction false} LogIsTidy(calls: seq<Call>, bucket: Bucket, limit: int, windowMs: nat, now: nat)
    requires limit > 0 && Orderly(calls, bucket, limit, windowMs) && (|calls| > 0 ==> calls[|calls| - 1].now <= now)
    ensures Tidy(Log(calls, bucket), limit, windowMs, now)
    decreases |calls|
  {
    if |calls| > 0 {
      var rest, last := calls[..|calls| - 1], calls[|calls| - 1];
      LogIsTidy(rest, bucket, limit, windowMs, last.now);
      if last.bucket == bucket {
        AnswersByTheFullLog(rest, last);
        OneCallTidy(Log(rest, bucket), last);
      }
    }
  }

  function CountIn(times: seq<nat>, from: int, to: int): nat {
    if |times| == 0 then 0
    else CountIn(times[..|times| - 1], from, to) + (if from <= times[|times| - 1] <= to then 1 else 0)
  }

  /** Only the entries past those known to be too early can count. */
  lemma {:induction false} CountsAtMost(times: seq<nat>, from: int, to: int, early: nat)
    requires early <= |times| && forall i | 0 <= i < early :: times[i] < from
    ensures CountIn(times, from, to) <= |times| - early
    decreases |times|
  {
    if |times| > 0 { CountsAtMost(times[..|times| - 1], from, to, if early < |times| then early else early - 1); }
  }

  lemma {:induction false} SpacedCount(times: seq<nat>, limit: nat, windowMs: nat, from: int)
    requires limit > 0 && Ascending(times) && Spaced(times, limit, windowMs)
    ensures CountIn(times, from, from + windowMs) <= limit
    decreases |times|
  {
    if |times| > 0 {
      var n := |times|;
      if times[n - 1] > from + windowMs || n <= limit {
        if n <= limit { CountsAtMost(times, from, from + windowMs, 0); }
        else { SpacedCount(times[..n - 1], limit, windowMs, from); }
      } else {
        assert times[n - 1 - limit] + windowMs < times[n - 1];
        CountsAtMost(times, from, from + windowMs, n - limit);
      }
    }
  }

  /** What a deletion keeps is what lies in the window. */
  lemma {:induction false} KeepCounts(times: seq<nat>, from: int, to: int)
    requires forall i | 0 <= i < |times| :: times[i] <= to
    ensures |Keep(times, from)| == CountIn(times, from, to)
    decreases |times|
  {
    if |times| > 0 { KeepCounts(times[..|times| - 1], from, to); }
  }

  /** A call is allowed exactly when fewer hits than the limit were allowed in the closed window up to it. */
  lemma {:induction false} WhenAllowed(calls: seq<Call>, c: Call)
    requires Orderly(calls, c.bucket, c.limit, c.windowMs) && (|calls| > 0 ==> calls[|calls| - 1].now <= c.now)
    ensures Allows(Of(Run(calls), c.bucket), c) <==>
              c.limit <= 0 || CountIn(Log(calls, c.bucket), c.now - c.windowMs, c.now) < c.limit
  {
    AnswersByTheFullLog(calls, c);
    LogIsPast(calls, c.bucket, c.limit, c.windowMs, c.now);
    KeepCounts(Log(calls, c.bucket), c.now - c.windowMs, c.now);
  }

  lemma {:induction false} LogIsPast(calls: seq<Call>, bucket: Bucket, limit: int, windowMs: nat, now: nat)
    requires Orderly(calls, bucket, limit, windowMs) && (|calls| > 0 ==> calls[|calls| - 1].now <= now)
    ensures forall i | 0 <= i < |Log(calls, bucket)| :: Log(calls, bucket)[i] <= now
    decreases |calls|
  {
    if |calls| > 0 { LogIsPast(calls[..|calls| - 1], bucket, limit, windowMs, calls[|calls| - 1].now); }
  }

  /** However the calls fall, no closed window of the configured length holds more than `limit` allowed hits. */
  lemma NoWindowExceedsTheLimit(calls: seq<Call>, bucket: Bucket, limit: int, windowMs: nat, from: int)
    requires limit > 0 && Orderly(calls, bucket, limit, windowMs)
    ensures CountIn(Log(calls, bucket), from, from + windowMs) <= limit
  {
    LogIsTidy(calls, bucket, limit, windowMs, if |calls| == 0 then 0 else calls[|calls| - 1].now);
    SpacedCount(Log(calls, bucket), limit, windowMs, from);
  }
}
