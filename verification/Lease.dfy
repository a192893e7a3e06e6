/**
 Leases (lib/db/store.ts): mutual exclusion between invocations that share only a database. Rows are
 taken over once they have expired, so a crashed invocation blocks nobody for long.
 */
module Lease {
  import opened Prelude

  datatype Row = Row(token: nat, expires: nat)

  /** The conditional upsert writes when there is no row or the row's expiry is in the past. */
  predicate CanTake(row: Option<Row>, now: nat) {
    row.None? || row.value.expires < now
  }

  function Taken(row: Option<Row>, token: nat, now: nat, ttl: nat): Option<Row> {
    if CanTake(row, now) then Some(Row(token, now + ttl)) else row
  }

  /** The delete matches the key and the token. */
  function Released(row: Option<Row>, token: nat): Option<Row> {
    if row.Some? && row.value.token == token then None else row
  }

  /** Who holds a lease frees it by releasing it: whoever comes next gets it at once, at any clock value. */
  lemma ReleaseFrees(row: Option<Row>, token: nat, mine: nat, now: nat, ttl: nat)
    requires row.Some? && row.value.token == token
    ensures Released(row, token).None?
    ensures Taken(Released(row, token), mine, now, ttl) == Some(Row(mine, now + ttl))
  {
  }

  /** A lease that nobody released keeps others out exactly as long as it runs. */
  lemma HeldUntilItExpires(row: Row, mine: nat, now: nat, ttl: nat)
    requires row.token != mine
    ensures Taken(Some(row), mine, now, ttl) == Some(row) <==> now <= row.expires
    ensures now > row.expires ==> Taken(Some(row), mine, now, ttl) == Some(Row(mine, now + ttl))
  {
  }

  /** The leases table and the clock; tokens are random UUIDs, modelled as never repeating. */
  class LeaseTable {
    var rows: map<string, Row>
    var now: nat
    var minted: nat

    constructor ()
      ensures rows == map[] && minted == 0
    {
      rows, now, minted := map[], 0, 0;
    }

    function At(key: string): Option<Row>
      reads this
    {
      if key in rows then Some(rows[key]) else None
    }

    method AcquireLease(key: string, ttl: nat) returns (token: Option<nat>)
      modifies this
      ensures now == old(now) && minted == old(minted) + 1
      ensures token == if CanTake(old(At(key)), now) then Some(old(minted)) else None
      ensures At(key) == Taken(old(At(key)), old(minted), now, ttl)
      ensures token.Some? <==> (key !in old(rows) || old(rows)[key].expires < now)
      ensures token.Some? ==> key in rows && rows[key] == Row(token.value, now + ttl)
      ensures forall k | k != key :: At(k) == old(At(k))
    {
      var mine := minted;
      minted := minted + 1;
      if key !in rows || rows[key].expires < now {
        rows := rows[key := Row(mine, now + ttl)];
        return Some(mine);
      }
      return None;
    }

    method ReleaseLease(key: string, token: nat)
      modifies this
      ensures now == old(now) && minted == old(minted)
      ensures At(key) == Released(old(At(key)), token)
      ensures key in rows <==> key in old(rows) && old(rows)[key].token != token
      ensures forall k | k != key :: At(k) == old(At(k))
    {
      if key in rows && rows[key].token == token {
        rows := rows - {key};
      }
    }

    /** 200 to 350 ms during which the other invocations do what they like with the table. */
    method Sleep()
      modifies this
      ensures now >= old(now) + 200 && minted >= old(minted)
    {
      now := now + 200;
    }

    /** The waiting half of withLease: try, then retry until the deadline. None sends the caller to `busy`. */
    method AcquireWaiting(key: string, ttl: nat, waitMs: nat) returns (token: Option<nat>)
      modifies this
      ensures token.Some? ==> old(minted) <= token.value < minted && At(key) == Some(Row(token.value, now + ttl))
      ensures token.None? ==> now >= old(now) + waitMs && !CanTake(At(key), now)
    {
      var deadline := now + waitMs;
      token := AcquireLease(key, ttl);
      while token.None? && now < deadline
        invariant minted > old(minted)
        invariant token.Some? ==> old(minted) <= token.value < minted && At(key) == Some(Row(token.value, now + ttl))
        invariant token.None? ==> !CanTake(At(key), now)
        decreases deadline - now, token.None?
      {
        Sleep();
        token := AcquireLease(key, ttl);
      }
    }
  }
}
