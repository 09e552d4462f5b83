/** The session turn lease (lease.py): one row, a token, an expiry. */
module Lease {
  import opened Common

  const TTL: real := 360.0

  type Token = nat
  datatype Row = Row(token: Token, expires: real)

  // -- one statement each ------------------------------------------------------

  /** The upsert: a missing or expired row is taken, another one is left alone. */
  function Taken(row: Option<Row>, now: real, token: Token): Option<Row> {
    if row.None? || row.value.expires <= now then Some(Row(token, now + TTL)) else row
  }

  function Renewed(row: Option<Row>, now: real, token: Token): Option<Row> {
    if row.Some? && row.value.token == token then Some(Row(token, now + TTL)) else row
  }

  function Released(row: Option<Row>, token: Token): Option<Row> {
    if row.Some? && row.value.token == token then None else row
  }

  predicate Holds(row: Option<Row>, now: real, token: Token) {
    row.Some? && row.value.token == token && now < row.value.expires
  }

  function Ceil(r: real): (n: int)
    ensures n as real - 1.0 < r <= n as real
  {
    -((-r).Floor)
  }

  function RetryHint(row: Row, now: real): int {
    var c := Ceil(row.expires - now);
    if c < 1 then 1 else c
  }

  // -- the table -----------------------------------------------------------------

  datatype Acquired = Granted(token: Token) | Locked(retryAfter: int)

  predicate Free(row: Option<Row>, now: real) {
    row.None? || row.value.expires <= now
  }

  const ATTEMPTS := 3

  /** The acquisition loop, when other requests may change the row between its
      statements: `found[i]` is the row the i-th upsert meets, `reread[i]` the
      row its hint query meets. */
  function AcquireFrom(i: nat, tokens: seq<Token>, found: seq<Option<Row>>, reread: seq<Option<Row>>,
                       now: real): Acquired
    requires i <= ATTEMPTS == |tokens| == |found| == |reread|
    decreases ATTEMPTS - i
  {
    if i == ATTEMPTS then Locked(1)
    else if Free(found[i], now) then Granted(tokens[i])
    else if reread[i].Some? then Locked(RetryHint(reread[i].value, now))
    else AcquireFrom(i + 1, tokens, found, reread, now)
  }

  /** From attempt i to before k the upsert met an unexpired row that was gone when
      it was read again. */
  ghost predicate Vanished(i: nat, k: nat, found: seq<Option<Row>>, reread: seq<Option<Row>>, now: real)
    requires k <= |found| == |reread|
  {
    forall j :: i <= j < k ==> found[j].Some? && now < found[j].value.expires && reread[j].None?
  }

  /** Attempt k is the first to meet no row, or an expired one. */
  ghost predicate Freed(i: nat, k: int, found: seq<Option<Row>>, reread: seq<Option<Row>>, now: real)
    requires |found| == |reread|
  {
    && i <= k < |found| && Vanished(i, k, found, reread, now)
    && (found[k].Some? ==> found[k].value.expires <= now)
  }

  /** Attempt k is the first whose unexpired row was still there. */
  ghost predicate Met(i: nat, k: int, found: seq<Option<Row>>, reread: seq<Option<Row>>, now: real)
    requires |found| == |reread|
  {
    && i <= k < |found| && Vanished(i, k, found, reread, now)
    && found[k].Some? && now < found[k].value.expires && reread[k].Some?
  }

  /** The least number of whole seconds, at least one, that reaches the expiry. */
  predicate Hints(row: Row, now: real, seconds: int) {
    && seconds >= 1 && now + seconds as real >= row.expires
    && (seconds == 1 || now + seconds as real - 1.0 < row.expires)
  }

  /** Free means that no token holds it; at its expiry a row is free already. */
  lemma FreeIff(row: Option<Row>, now: real)
    ensures Free(row, now) <==> forall token :: !Holds(row, now, token)
    ensures row.Some? ==> (Free(row, now) <==> row.value.expires <= now)
  {
    if row.Some? && now < row.value.expires {
      assert Holds(row, now, row.value.token);
    }
  }

  /** A grant never takes an unexpired row; a refusal tells how long the row seen
      at the first full failure still runs, or one second after three rows that
      vanished between the statements. */
  lemma {:induction false} AcquireMeaning(i: nat, tokens: seq<Token>, found: seq<Option<Row>>,
                                          reread: seq<Option<Row>>, now: real)
    requires i <= ATTEMPTS == |tokens| == |found| == |reread|
    ensures var r := AcquireFrom(i, tokens, found, reread, now);
      && (r.Granted? ==> exists k :: Freed(i, k, found, reread, now) && r.token == tokens[k])
      && (r.Locked? && Vanished(i, ATTEMPTS, found, reread, now) ==> r.retryAfter == 1)
      && (r.Locked? && !Vanished(i, ATTEMPTS, found, reread, now) ==>
            exists k :: Met(i, k, found, reread, now) && Hints(reread[k].value, now, r.retryAfter))
      && (r.Granted? <==> exists k :: Freed(i, k, found, reread, now))
    decreases ATTEMPTS - i
  {
    if i < ATTEMPTS && !Free(found[i], now) && reread[i].None? {
      AcquireMeaning(i + 1, tokens, found, reread, now);
    }
  }

  class LeaseTable {
    var rows: map<nat, Row>
    var now: real

    constructor (start: real)
      ensures rows == map[] && now == start
    {
      rows, now := map[], start;
    }

    ghost function RowOf(session: nat): Option<Row>
      reads this
    {
      if session in rows then Some(rows[session]) else None
    }

    /** What other requests do to the row between two statements. */
    method Meanwhile(session: nat, row: Option<Row>)
      modifies this`rows
      ensures RowOf(session) == row
      ensures forall s :: s != session ==> RowOf(s) == old(RowOf(s))
    {
      rows := if row.Some? then rows[session := row.value] else rows - {session};
    }

    method Acquire(session: nat, tokens: seq<Token>, found: seq<Option<Row>>, reread: seq<Option<Row>>)
      returns (r: Acquired)
      requires |tokens| == |found| == |reread| == ATTEMPTS
      modifies this`rows
      ensures forall s :: s != session ==> RowOf(s) == old(RowOf(s))
      ensures r == AcquireFrom(0, tokens, found, reread, now)
      ensures r.Granted? ==> RowOf(session) == Some(Row(r.token, now + 360.0))
    {
      for i := 0 to ATTEMPTS
        invariant forall s :: s != session ==> RowOf(s) == old(RowOf(s))
        invariant AcquireFrom(0, tokens, found, reread, now) == AcquireFrom(i, tokens, found, reread, now)
      {
        Meanwhile(session, found[i]);
        if session !in rows || rows[session].expires <= now {
          rows := rows[session := Row(tokens[i], now + TTL)];
          return Granted(tokens[i]);
        }
        Meanwhile(session, reread[i]);
        if session in rows {
          return Locked(RetryHint(rows[session], now));
        }
      }
      return Locked(1);
    }

    method Renew(session: nat, token: Token) returns (renewed: bool)
      modifies this`rows
      ensures forall s :: s != session ==> RowOf(s) == old(RowOf(s))
      ensures renewed <==> session in old(rows) && old(rows)[session].token == token
      ensures RowOf(session) == if renewed then Some(Row(token, now + 360.0)) else old(RowOf(session))
      ensures RowOf(session) == Renewed(old(RowOf(session)), now, token)
    {
      renewed := session in rows && rows[session].token == token;
      if renewed {
        rows := rows[session := Row(token, now + TTL)];
      }
    }

    method Release(session: nat, token: Token) returns (released: bool)
      modifies this`rows
      ensures forall s :: s != session ==> RowOf(s) == old(RowOf(s))
      ensures released <==> session in old(rows) && old(rows)[session].token == token
      ensures RowOf(session) == if released then None else old(RowOf(session))
      ensures RowOf(session) == Released(old(RowOf(session)), token)
    {
      released := session in rows && rows[session].token == token;
      if released {
        rows := rows - {session};
      }
    }
  }

  /** Sleeping for the hint reaches the expiry, if nobody renews meanwhile. */
  lemma HintReachesExpiry(row: Row, now: real, token: Token)
    requires now < row.expires
    ensures now + RetryHint(row, now) as real >= row.expires > now + RetryHint(row, now) as real - 1.0
    ensures Taken(Some(row), now + RetryHint(row, now) as real, token) ==
            Some(Row(token, now + RetryHint(row, now) as real + 360.0))
  {
    assert Ceil(row.expires - now) as real >= row.expires - now;
  }

  // -- runs ------------------------------------------------------------------------

  datatype Event =
    | TryAcquire(token: Token)
    | TryRenew(token: Token)
    | TryRelease(token: Token)
    | Wait(seconds: real)

  datatype World = World(row: Option<Row>, now: real, issued: set<Token>)

  predicate Enabled(w: World, e: Event) {
    match e
    case TryAcquire(t) => t !in w.issued
    case TryRenew(t) => t in w.issued
    case TryRelease(t) => t in w.issued
    case Wait(d) => d >= 0.0
  }

  function Step(w: World, e: Event): World {
    match e
    case TryAcquire(t) => World(Taken(w.row, w.now, t), w.now, w.issued + {t})
    case TryRenew(t) => w.(row := Renewed(w.row, w.now, t))
    case TryRelease(t) => w.(row := Released(w.row, t))
    case Wait(d) => w.(now := w.now + d)
  }

  ghost predicate Possible(w: World, es: seq<Event>)
    decreases |es|
  {
    es == [] || (Enabled(w, es[0]) && Possible(Step(w, es[0]), es[1..]))
  }

  function Run(w: World, es: seq<Event>): World
    decreases |es|
  {
    if es == [] then w else Run(Step(w, es[0]), es[1..])
  }

  ghost predicate Sane(w: World) {
    w.row.Some? ==> w.row.value.token in w.issued && w.row.value.expires <= w.now + TTL
  }

  /** A granted token stays on the row until its expiry passes or it is given
      up by its own holder, whatever the others try. */
  lemma {:induction false} GrantIsExclusive(w: World, es: seq<Event>, token: Token)
    requires Sane(w) && Possible(w, es) && Holds(w.row, w.now, token)
    requires TryRelease(token) !in es
    requires Run(w, es).now < w.row.value.expires
    ensures Run(w, es).row.Some? && Run(w, es).row.value.token == token
    ensures Holds(Run(w, es).row, Run(w, es).now, token)
    ensures Run(w, es).row.value.expires >= w.row.value.expires
    decreases |es|
  {
    if es != [] {
      var w' := Step(w, es[0]);
      ClockAdvances(w', es[1..]);
      GrantIsExclusive(w', es[1..], token);
    }
  }

  lemma {:induction false} ClockAdvances(w: World, es: seq<Event>)
    requires Possible(w, es)
    ensures Run(w, es).now >= w.now
    ensures w.issued <= Run(w, es).issued
    decreases |es|
  {
    if es != [] {
      ClockAdvances(Step(w, es[0]), es[1..]);
    }
  }

  /** Once another token sits on the row, or none does, an issued token never
      comes back: renewing or releasing with it changes nothing ever after. */
  lemma {:induction false} LostForever(w: World, es: seq<Event>, token: Token)
    requires Sane(w) && Possible(w, es) && token in w.issued
    requires w.row.Some? ==> w.row.value.token != token
    ensures var end := Run(w, es);
      && (end.row.Some? ==> end.row.value.token != token)
      && Renewed(end.row, end.now, token) == end.row
      && Released(end.row, token) == end.row
    decreases |es|
  {
    if es != [] {
      LostForever(Step(w, es[0]), es[1..], token);
    }
  }

  /** Two different tokens never hold the lease at one moment of one run, and a
      new grant means that every earlier token is lost from then on. */
  lemma TakeoverIsFinal(w: World, es: seq<Event>, later: seq<Event>, earlier: Token, current: Token)
    requires Sane(w) && Possible(w, es) && Possible(Run(w, es), later) && earlier in w.issued && earlier != current
    requires Holds(Run(w, es).row, Run(w, es).now, current)
    ensures !Holds(Run(Run(w, es), later).row, Run(Run(w, es), later).now, earlier)
    ensures Released(Run(Run(w, es), later).row, earlier) == Run(Run(w, es), later).row
  {
    ClockAdvances(w, es);
    RunSane(w, es);
    LostForever(Run(w, es), later, earlier);
  }

  lemma {:induction false} RunSane(w: World, es: seq<Event>)
    requires Sane(w) && Possible(w, es)
    ensures Sane(Run(w, es))
    decreases |es|
  {
    if es != [] {
      RunSane(Step(w, es[0]), es[1..]);
    }
  }
}
