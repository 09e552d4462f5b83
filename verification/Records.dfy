/** Durable rows and the storage operations over them (records_store.py). */
module Records {
  import opened Common
  import opened Artifacts
  import opened Facilitator

  datatype SessionState = Active | Finalizing | Parked | Completed
  datatype Outcome = Continue | Park | Finalize

  /** A turn; `synthesis` is the content of the synthesis version among its
      produced artifacts, if there is one (artifacts never change). */
  datatype TurnRecord = TurnRecord(
    number: nat,
    poMessage: Option<string>,
    poAccepted: bool,
    reply: Option<string>,
    rationale: Option<string>,
    delegation: Option<Delegation>,
    resolutions: seq<Resolution>,
    newIssues: seq<IssueDraft>,
    outcome: Outcome,
    produced: seq<Reference>,
    synthesis: Option<SynthesisReport>)

  datatype SessionRow = SessionRow(
    state: SessionState,
    formats: seq<Format>,
    facilitatorTurns: nat,
    finalReview: Option<Reference>,
    reports: seq<Reference>)

  predicate Live(s: SessionState) { s.Active? || s.Finalizing? }

  predicate Terminal(s: SessionState) { s.Parked? || s.Completed? }

  // -- update_session -------------------------------------------------------

  datatype Update = Update(
    state: Option<SessionState>,
    facilitatorTurns: Option<nat>,
    finalReview: Option<Reference>,
    reports: Option<seq<Reference>>)

  const NoChange := Update(None, None, None, None)

  function OrElse<T>(o: Option<T>, d: T): T { if o.Some? then o.value else d }

  function UpdatedRow(row: SessionRow, u: Update): SessionRow {
    SessionRow(
      OrElse(u.state, row.state),
      row.formats,
      OrElse(u.facilitatorTurns, row.facilitatorTurns),
      if u.finalReview.Some? then u.finalReview else row.finalReview,
      OrElse(u.reports, row.reports))
  }

  /** The story run follows its session into a terminal state. */
  function UpdatedRun(run: SessionState, u: Update): SessionState {
    if u.state.Some? && Terminal(u.state.value) then u.state.value else run
  }

  // -- turns, kept in turn-number order ---------------------------------------

  ghost predicate Ordered(turns: seq<TurnRecord>) {
    forall i, j :: 0 <= i < j < |turns| ==> turns[i].number < turns[j].number
  }

  ghost predicate Numbered(turns: seq<TurnRecord>) {
    forall i :: 0 <= i < |turns| ==> turns[i].number == i + 1
  }

  function Stored(turns: seq<TurnRecord>, n: nat): (r: Option<TurnRecord>)
    ensures r.Some? ==> r.value.number == n
  {
    if turns == [] then None
    else if turns[|turns| - 1].number == n then Some(turns[|turns| - 1])
    else Stored(turns[..|turns| - 1], n)
  }

  /** `insert ... on conflict` over the primary key (session, turn number). */
  function InsertTurn(turns: seq<TurnRecord>, t: TurnRecord): seq<TurnRecord> {
    if turns == [] then [t]
    else
      var init, last := turns[..|turns| - 1], turns[|turns| - 1];
      if last.number < t.number then turns + [t]
      else if last.number == t.number then turns
      else InsertTurn(init, t) + [last]
  }

  /** The produced artifacts replaced, and with them the synthesis version. */
  function Restamped(t: TurnRecord, refs: seq<Reference>): TurnRecord { t.(produced := refs, synthesis := None) }

  /** The same turn, up to its produced artifacts. */
  predicate SameTurn(a: TurnRecord, b: TurnRecord) { b == a.(produced := b.produced, synthesis := b.synthesis) }

  /** The newest turn with outcome `finalize` gets the flow-3 references, which
      overwrite whatever it listed before. */
  function StampTurn(turns: seq<TurnRecord>, refs: seq<Reference>): (r: seq<TurnRecord>)
    ensures |r| == |turns|
    ensures forall i :: 0 <= i < |turns| ==> SameTurn(turns[i], r[i])
  {
    if turns == [] then []
    else
      var init, last := turns[..|turns| - 1], turns[|turns| - 1];
      if last.outcome.Finalize? then init + [Restamped(last, refs)]
      else StampTurn(init, refs) + [last]
  }

  predicate Taken(turns: seq<TurnRecord>, n: nat, k: nat)
    requires k <= |turns|
  {
    k > 0 && turns[k - 1].number == n
  }

  function Spliced(turns: seq<TurnRecord>, t: TurnRecord, k: nat): seq<TurnRecord>
    requires k <= |turns|
  {
    if Taken(turns, t.number, k) then turns else turns[..k] + [t] + turns[k..]
  }

  /** An insert either finds its number taken and changes nothing, or splices
      the row in at the one place that keeps the numbers increasing. */
  lemma {:induction false} InsertSplices(turns: seq<TurnRecord>, t: TurnRecord, k: nat)
    requires k <= |turns|
    requires forall i :: k <= i < |turns| ==> t.number < turns[i].number
    requires forall i :: 0 <= i < k - 1 ==> turns[i].number < t.number
    requires k > 0 ==> turns[k - 1].number <= t.number
    ensures Stored(turns, t.number) == if Taken(turns, t.number, k) then Some(turns[k - 1]) else None
    ensures InsertTurn(turns, t) == Spliced(turns, t, k)
  {
    if k < |turns| {
      var init, last := turns[..|turns| - 1], turns[|turns| - 1];
      InsertSplices(init, t, k);
      SplicedStep(turns, t, k);
    } else {
      assert turns[..k] + [t] + turns[k..] == turns + [t];
      if k > 0 && turns[k - 1].number < t.number {
        SmallerNumbersNotStored(turns, t.number);
      }
    }
  }

  lemma SplicedOrdered(turns: seq<TurnRecord>, t: TurnRecord, k: nat)
    requires Ordered(turns) && k <= |turns|
    requires k > 0 ==> turns[k - 1].number < t.number
    requires forall i :: k <= i < |turns| ==> t.number < turns[i].number
    ensures Ordered(turns[..k] + [t] + turns[k..])
  {
  }

  lemma SplicedStep(turns: seq<TurnRecord>, t: TurnRecord, k: nat)
    requires k < |turns|
    ensures Spliced(turns, t, k) == Spliced(turns[..|turns| - 1], t, k) + [turns[|turns| - 1]]
  {
    var init, last := turns[..|turns| - 1], turns[|turns| - 1];
    assert turns == init + [last];
    assert init[..k] == turns[..k] && init[k..] + [last] == turns[k..];
    assert turns[..k] + [t] + turns[k..] == init[..k] + [t] + init[k..] + [last];
  }

  lemma {:induction false} SmallerNumbersNotStored(turns: seq<TurnRecord>, n: nat)
    requires forall i :: 0 <= i < |turns| ==> turns[i].number < n
    ensures Stored(turns, n).None?
  {
    if turns != [] {
      SmallerNumbersNotStored(turns[..|turns| - 1], n);
    }
  }

  /** Only the last turn with outcome `finalize` is touched by the stamp. */
  lemma {:induction false} StampAt(turns: seq<TurnRecord>, refs: seq<Reference>, k: nat)
    requires k <= |turns|
    requires forall i :: k <= i < |turns| ==> !turns[i].outcome.Finalize?
    requires k > 0 ==> turns[k - 1].outcome.Finalize?
    ensures StampTurn(turns, refs)
         == if k == 0 then turns else turns[k - 1 := turns[k - 1].(produced := refs, synthesis := None)]
  {
    if k < |turns| {
      var init, last := turns[..|turns| - 1], turns[|turns| - 1];
      StampAt(init, refs, k);
      assert turns == init + [last];
    }
  }

  lemma InsertAppends(turns: seq<TurnRecord>, t: TurnRecord)
    requires Numbered(turns) && t.number == |turns| + 1
    ensures InsertTurn(turns, t) == turns + [t]
    ensures Numbered(InsertTurn(turns, t))
    ensures Stored(InsertTurn(turns, t), t.number) == Some(t)
  {
  }

  lemma {:induction false} StoredAt(turns: seq<TurnRecord>, n: nat)
    requires Numbered(turns) && 1 <= n <= |turns|
    ensures Stored(turns, n) == Some(turns[n - 1])
  {
    if n < |turns| {
      StoredAt(turns[..|turns| - 1], n);
    }
  }

  // -- the table object -------------------------------------------------------

  datatype RunRow = RunRow(story: nat, user: nat, state: SessionState)
  datatype Created<T> = Fresh(row: T) | Existing(row: T) | Violation

  /** One active run per (user, story): the partial unique index. */
  ghost predicate IndexHolds(runs: map<nat, RunRow>) {
    forall a, b :: a in runs && b in runs && a != b && Live(runs[a].state) && Live(runs[b].state)
      ==> runs[a].story != runs[b].story || runs[a].user != runs[b].user
  }

  /** The row an insert under the index would clash with. */
  predicate Clashes(runs: map<nat, RunRow>, row: RunRow) {
    && Live(row.state)
    && exists r :: r in runs && Live(runs[r].state) && runs[r].story == row.story && runs[r].user == row.user
  }

  class SessionStore {
    var runs: map<nat, RunRow>
    var sessions: map<nat, SessionRow>
    var runOf: map<nat, nat>

    ghost predicate Valid()
      reads this
    {
      && IndexHolds(runs)
      && runOf.Keys == sessions.Keys
      && (forall s :: s in runOf ==> runOf[s] in runs)
      && (forall s, t :: s in runOf && t in runOf && runOf[s] == runOf[t] ==> s == t)
    }

    constructor ()
      ensures Valid() && runs == map[] && sessions == map[]
    {
      runs, sessions, runOf := map[], map[], map[];
    }

    method CreateStoryRunOrGet(id: nat, row: RunRow) returns (r: Created<RunRow>)
      requires Valid()
      modifies this`runs
      ensures Valid()
      ensures r.Fresh? <==> id !in old(runs) && !Clashes(old(runs), row)
      ensures r.Existing? <==> id in old(runs) && old(runs)[id].story == row.story && old(runs)[id].user == row.user
      ensures r.Fresh? ==> r.row == row && runs == old(runs)[id := row]
      ensures r.Existing? ==> r.row == old(runs)[id]
      ensures !r.Fresh? ==> runs == old(runs)
    {
      if id !in runs && !Clashes(runs, row) {
        runs := runs[id := row];
        return Fresh(row);
      }
      if id in runs && runs[id].story == row.story && runs[id].user == row.user {
        return Existing(runs[id]);
      }
      return Violation;
    }

    method CreateSessionOrGet(id: nat, run: nat, row: SessionRow) returns (r: Created<SessionRow>)
      requires Valid() && run in runs
      modifies this`sessions, this`runOf
      ensures Valid()
      ensures r.Fresh? <==> id !in old(sessions) && run !in old(runOf).Values
      ensures r.Fresh? ==> r.row == row && sessions == old(sessions)[id := row] && runOf == old(runOf)[id := run]
      ensures !r.Fresh? ==> sessions == old(sessions) && runOf == old(runOf)
      ensures r.Existing? ==> exists s :: s in old(runOf) && old(runOf)[s] == run && r.row == old(sessions)[s]
      ensures r.Violation? ==> run !in old(runOf).Values
    {
      if id !in sessions && run !in runOf.Values {
        sessions, runOf := sessions[id := row], runOf[id := run];
        return Fresh(row);
      }
      if run in runOf.Values {
        var s :| s in runOf && runOf[s] == run;
        return Existing(sessions[s]);
      }
      return Violation;
    }

    method UpdateSession(id: nat, u: Update)
      requires Valid()
      modifies this`sessions, this`runs
      ensures Valid()
      ensures id !in old(sessions) ==> sessions == old(sessions) && runs == old(runs)
      ensures id in old(sessions) ==>
                && sessions == old(sessions)[id := UpdatedRow(old(sessions)[id], u)]
                && var run := old(runs)[runOf[id]];
                   runs == old(runs)[runOf[id] := run.(state := UpdatedRun(run.state, u))]
    {
      if id in sessions {
        sessions := sessions[id := UpdatedRow(sessions[id], u)];
        var run := runOf[id];
        if u.state.Some? && Terminal(u.state.value) {
          runs := runs[run := runs[run].(state := u.state.value)];
        }
      }
    }
  }

  /** The turns of one session, in turn-number order. */
  class TurnTable {
    var rows: seq<TurnRecord>

    ghost predicate Valid()
      reads this
    {
      Ordered(rows)
    }

    constructor ()
      ensures Valid() && rows == []
    {
      rows := [];
    }

    method CreateTurnOrGet(t: TurnRecord) returns (r: TurnRecord)
      requires Valid()
      modifies this
      ensures Valid()
      ensures rows == InsertTurn(old(rows), t)
      ensures r == OrElse(Stored(old(rows), t.number), t)
    {
      var i := |rows|;
      while i > 0 && rows[i - 1].number > t.number
        invariant 0 <= i <= |rows|
        invariant forall j :: i <= j < |rows| ==> t.number < rows[j].number
      {
        i := i - 1;
      }
      InsertSplices(rows, t, i);
      if i > 0 && rows[i - 1].number == t.number {
        return rows[i - 1];
      }
      SplicedOrdered(rows, t, i);
      rows := rows[..i] + [t] + rows[i..];
      return t;
    }

    method SetFinalizingTurnArtifacts(refs: seq<Reference>)
      requires Valid()
      modifies this
      ensures Valid()
      ensures rows == StampTurn(old(rows), refs)
    {
      var i := |rows|;
      while i > 0 && !rows[i - 1].outcome.Finalize?
        invariant 0 <= i <= |rows|
        invariant forall j :: i <= j < |rows| ==> !rows[j].outcome.Finalize?
      {
        i := i - 1;
      }
      StampAt(rows, refs, i);
      if i > 0 {
        rows := rows[i - 1 := Restamped(rows[i - 1], refs)];
      }
    }
  }
}
