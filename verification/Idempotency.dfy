/** The idempotency claim (idempotency.py): in progress with a fingerprint,
    then completed with the canonical response, never anything else. */
module Idempotency {
  import opened Common

  datatype Claim<F, R> = Claim(fingerprint: F, response: Option<R>)
  datatype ClaimOutcome<R> = Claimed | Replay(response: R) | InProgress | KeyReused

  /** `insert ... on conflict do nothing` */
  function Inserted<F, R>(row: Option<Claim<F, R>>, fingerprint: F): Option<Claim<F, R>> {
    if row.None? then Some(Claim(fingerprint, None)) else row
  }

  /** What a caller with this body finds in an existing row. */
  function Found<F(==), R>(row: Claim<F, R>, fingerprint: F): ClaimOutcome<R> {
    if row.fingerprint != fingerprint then KeyReused
    else if row.response.Some? then Replay(row.response.value)
    else InProgress
  }

  /** `delete ... and state = 'in_progress'` */
  function Dropped<F, R>(row: Option<Claim<F, R>>): Option<Claim<F, R>> {
    if row.Some? && row.value.response.None? then None else row
  }

  /** `update ... set state = 'completed'` */
  function Fulfilled<F, R>(row: Option<Claim<F, R>>, response: R): Option<Claim<F, R>> {
    if row.Some? then Some(row.value.(response := Some(response))) else None
  }

  function Lookup<K, V>(m: map<K, V>, k: K): (r: Option<V>)
    ensures r.Some? <==> k in m
    ensures k in m ==> r.value == m[k]
  {
    if k in m then Some(m[k]) else None
  }

  function Write<K, V>(m: map<K, V>, k: K, v: Option<V>): (r: map<K, V>)
    ensures Lookup(r, k) == v
    ensures forall q :: q in r && q != k ==> q in m && r[q] == m[q]
    ensures forall q :: q in m && q != k ==> q in r && r[q] == m[q]
  {
    if v.Some? then m[k := v.value] else m - {k}
  }

  class ClaimTable<K(==), F(==), R> {
    var rows: map<K, Claim<F, R>>

    constructor ()
      ensures rows == map[]
    {
      rows := map[];
    }

    /** A second caller gets the stored response, or learns that the key is
        busy, or is refused for a different body; it never changes the row. */
    method ClaimKey(key: K, fingerprint: F) returns (r: ClaimOutcome<R>)
      modifies this
      ensures rows == if key in old(rows) then old(rows) else old(rows)[key := Claim(fingerprint, None)]
      ensures r.Claimed? <==> key !in old(rows)
      ensures r.KeyReused? <==> key in old(rows) && old(rows)[key].fingerprint != fingerprint
      ensures r.InProgress? <==> key in old(rows) && old(rows)[key] == Claim(fingerprint, None)
      ensures r.Replay? ==> old(rows)[key] == Claim(fingerprint, Some(r.response))
      ensures rows == Write(old(rows), key, Inserted(Lookup(old(rows), key), fingerprint))
      ensures r == if key in old(rows) then Found(old(rows)[key], fingerprint) else Claimed
    {
      if key !in rows {
        rows := rows[key := Claim(fingerprint, None)];
        return Claimed;
      }
      assert rows == Write(rows, key, Some(rows[key]));
      var row := rows[key];
      if row.fingerprint != fingerprint {
        return KeyReused;
      }
      if row.response.Some? {
        return Replay(row.response.value);
      }
      return InProgress;
    }

    method Release(key: K)
      modifies this
      ensures rows == if key in old(rows) && old(rows)[key].response.None? then old(rows) - {key} else old(rows)
      ensures rows == Write(old(rows), key, Dropped(Lookup(old(rows), key)))
    {
      if key in rows && rows[key].response.None? {
        rows := rows - {key};
      } else {
        assert rows == Write(rows, key, Lookup(rows, key));
      }
    }

    method Complete(key: K, response: R)
      modifies this
      ensures rows == if key in old(rows) then old(rows)[key := Claim(old(rows)[key].fingerprint, Some(response))]
                      else old(rows)
      ensures rows == Write(old(rows), key, Fulfilled(Lookup(old(rows), key), response))
    {
      if key in rows {
        rows := rows[key := rows[key].(response := Some(response))];
      } else {
        assert rows == Write(rows, key, None);
      }
    }
  }

  // -- a row's life ----------------------------------------------------------------

  datatype Operation<F, R> = DoClaim(fingerprint: F) | DoRelease | DoComplete(response: R)

  function Apply<F, R>(row: Option<Claim<F, R>>, op: Operation<F, R>): Option<Claim<F, R>> {
    match op
    case DoClaim(f) => Inserted(row, f)
    case DoRelease => Dropped(row)
    case DoComplete(r) => Fulfilled(row, r)
  }

  function ApplyAll<F, R>(row: Option<Claim<F, R>>, ops: seq<Operation<F, R>>): Option<Claim<F, R>>
    decreases |ops|
  {
    if ops == [] then row else ApplyAll(Apply(row, ops[0]), ops[1..])
  }

  /** Nothing but another `complete` touches a completed row: claims and
      releases leave it alone, and its fingerprint never changes. */
  lemma {:induction false} CompletedStays<F, R>(row: Claim<F, R>, ops: seq<Operation<F, R>>)
    requires row.response.Some?
    requires forall op :: op in ops ==> op.DoComplete? ==> op.response == row.response.value
    ensures ApplyAll(Some(row), ops) == Some(row)
    decreases |ops|
  {
    if ops != [] {
      assert ops[0] in ops;
      CompletedStays(row, ops[1..]);
    }
  }
}
