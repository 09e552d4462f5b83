/** Building runs of the lifecycle machine: one more request, served under the
    lease while nobody else moves. */
module LifecycleRuns {
  import opened Common
  import opened Artifacts
  import opened Facilitator
  import opened Idempotency
  import opened Records
  import opened Turns
  import opened Lifecycle
  import opened LifecycleInvariant
  import opened LifecycleTheorems
  import Dialogue
  import Lease
  import LifecycleSteps

  // -- cells that punctual runs lead to --------------------------------------------------------

  /** Reachable by a run in which every writer held its lease. */
  ghost predicate Leads(c: Cell, d: Cell) {
    exists es :: Possible(c, es) && AllPunctual(c, es) && Run(c, es) == d
  }

  lemma LeadsStep(c: Cell, d: Cell, e: Event)
    requires Leads(c, d) && Enabled(d, e) && Punctual(d, e)
    ensures Leads(c, Step(d, e))
  {
    var es :| Possible(c, es) && AllPunctual(c, es) && Run(c, es) == d;
    RunExtends(c, es, e);
    RunTail(c, es, [e]);
    assert [e][1..] == [];
  }

  lemma LeadsGo(c: Cell, d: Cell, id: RequestId, ch: Choice) returns (e: Cell)
    requires Leads(c, d) && Enabled(d, Advance(id, ch)) && Punctual(d, Advance(id, ch))
    ensures e == Act(d, id, ch) && Leads(c, e)
  {
    LeadsStep(c, d, Advance(id, ch));
    e := Act(d, id, ch);
  }

  // -- names that are not taken ---------------------------------------------------------

  lemma {:induction false} FreshNat(taken: set<nat>) returns (n: nat)
    ensures n !in taken && forall x :: x in taken ==> x < n
  {
    if taken == {} {
      n := 0;
    } else {
      var x :| x in taken;
      var m := FreshNat(taken - {x});
      n := if m > x then m else x + 1;
      forall y | y in taken ensures y < n {
        assert y == x || y in taken - {x};
      }
    }
  }

  lemma FreshReference(taken: set<Reference>) returns (r: Reference)
    ensures r !in taken
  {
    var ids := set x | x in taken :: x.artifactId;
    assert forall x :: x in taken ==> x.artifactId in ids;
    var n := FreshNat(ids);
    r := Reference(n, Kind.FinalizedReview, 1, 0, 0);
  }

  predicate Unused(c: Cell, id: RequestId, key: nat) {
    && id !in c.requests && key !in c.stores.reviews
    && forall route :: (route, key) !in c.rows.claims
  }

  lemma FreshNames(c: Cell) returns (id: RequestId, key: nat)
    ensures Unused(c, id, key)
  {
    id := FreshNat(c.requests.Keys);
    var used := set k | k in c.rows.claims :: k.1;
    key := FreshNat(used + c.stores.reviews.Keys);
    assert forall k :: k in c.rows.claims ==> k.1 in used;
  }

  // -- one more request, alone under the lease --------------------------------------------

  /** From the cell `b` one more request has come to `q`, under the lease, and no
      other request has moved. */
  ghost predicate Stands(c: Cell, b: Cell, d: Cell, id: RequestId, q: Request) {
    Leads(c, d) && d.requests == b.requests[id := q] && Holds(d, id)
  }

  lemma StillStands(c: Cell, b: Cell, d: Cell, e: Cell, id: RequestId, q: Request, pc: Pc)
    requires Stands(c, b, d, id, q) && Leads(c, e)
    requires e.requests == d.requests[id := q.(pc := pc)] && e.lease == d.lease && e.now == d.now
    ensures Stands(c, b, e, id, q.(pc := pc))
  {
  }

  lemma Reads(c: Cell, b: Cell, d: Cell, id: RequestId, q: Request, ch: Choice, pc: Pc) returns (e: Cell)
    requires Stands(c, b, d, id, q) && Running(q.pc) && !IsWrite(q.pc) && !IsStore(q.pc) && !q.pc.Acquire?
    requires !q.pc.Unlock?
    requires Reading(d.rows, q, ch) == pc
    ensures Stands(c, b, e, id, q.(pc := pc)) && e.rows == d.rows && e.stores == d.stores
  {
    e := LeadsGo(c, d, id, ch);
    assert e == Goto(d, id, pc) by {
      LifecycleSteps.ActReads(d, id, ch);
    }
    StillStands(c, b, d, e, id, q, pc);
  }

  lemma Writes(c: Cell, b: Cell, d: Cell, id: RequestId, q: Request, r: Rows, pc: Pc) returns (e: Cell)
    requires Stands(c, b, d, id, q) && IsWrite(q.pc) && Writing(d.rows, q) == (r, pc)
    ensures Stands(c, b, e, id, q.(pc := pc)) && e.rows == r && e.stores == d.stores
  {
    e := LeadsGo(c, d, id, Unavailable);
    assert e == Goto(d.(rows := r), id, pc) by {
      LifecycleSteps.ActWrites(d, id, Unavailable);
    }
    StillStands(c, b, d, e, id, q, pc);
  }

  lemma Calls(c: Cell, b: Cell, d: Cell, id: RequestId, q: Request, ch: Choice, s: Stores, pc: Pc) returns (e: Cell)
    requires Stands(c, b, d, id, q) && IsStore(q.pc) && Storing(d.rows, d.stores, q, ch) == (s, pc)
    ensures Stands(c, b, e, id, q.(pc := pc)) && e.rows == d.rows && e.stores == s
  {
    e := LeadsGo(c, d, id, ch);
    assert e == Goto(d.(stores := s), id, pc) by {
      LifecycleSteps.ActCalls(d, id, ch);
    }
    StillStands(c, b, d, e, id, q, pc);
  }

  /** Time passes until the lease is free, and a request arrives. */
  lemma Arrives(c: Cell, b: Cell, id: RequestId, route: Route, key: nat, body: Body) returns (d: Cell)
    requires Leads(c, b) && id !in b.requests && (route.TurnRoute? <==> !body.Empty?)
    ensures Leads(c, d) && d.rows == b.rows && d.stores == b.stores && Lease.Free(d.lease, d.now)
    ensures d.requests ==
            b.requests[id := Request(route, key, body, if route.FinalizeRoute? then OuterRead else Acquire)]
  {
    var wait := if b.lease.Some? && b.lease.value.expires > b.now then b.lease.value.expires - b.now else 0.0;
    LeadsStep(c, b, Tick(wait));
    var later := Step(b, Tick(wait));
    LeadsStep(c, later, Arrive(id, route, key, body));
    d := Step(later, Arrive(id, route, key, body));
  }

  lemma Acquires(c: Cell, b: Cell, d: Cell, id: RequestId, q: Request) returns (e: Cell)
    requires Leads(c, d) && d.requests == b.requests[id := q] && q.pc.Acquire? && Lease.Free(d.lease, d.now)
    ensures Stands(c, b, e, id, q.(pc := if q.route.FinalizeRoute? then ReadSession(false) else ClaimInsert))
    ensures e.rows == d.rows && e.stores == d.stores
  {
    e := LeadsGo(c, d, id, Unavailable);
  }

  lemma LeadsInv(c: Cell, d: Cell)
    requires Inv(c) && Leads(c, d)
    ensures Inv(d) && d.rows.session.formats == c.rows.session.formats
  {
    var es :| Possible(c, es) && AllPunctual(c, es) && Run(c, es) == d;
    RunGood(c, es);
  }

  // -- the three kinds of requests up to their own business ---------------------------------

  /** A turn request with a new key, on an active session, lists the turns. */
  lemma TurnBegins(c: Cell, b: Cell, id: RequestId, key: nat, body: Body) returns (d: Cell, q: Request)
    requires Leads(c, b) && b.rows.session.state.Active? && Unused(b, id, key) && !body.Empty?
    ensures Stands(c, b, d, id, q) && q == Request(TurnRoute, key, body, ListTurns(Some(b.rows.session)))
    ensures Lookup(d.rows.claims, (TurnRoute, key)) == Some(Claim(body, None))
    ensures d.rows.turns == b.rows.turns && d.rows.session == b.rows.session && d.stores == b.stores
  {
    d := Arrives(c, b, id, TurnRoute, key, body);
    q := Request(TurnRoute, key, body, Acquire);
    d := Acquires(c, b, d, id, q);
    q := q.(pc := ClaimInsert);
    d := Writes(c, b, d, id, q, WithClaim(d.rows, q, Inserted(None, body)), ReadSession(false));
    q := q.(pc := ReadSession(false));
    d := Reads(c, b, d, id, q, Unavailable, ListTurns(Some(b.rows.session)));
    q := q.(pc := ListTurns(Some(b.rows.session)));
  }

  lemma FinalizeAcquires(c: Cell, b: Cell, id: RequestId, key: nat) returns (d: Cell)
    requires Leads(c, b) && b.rows.session.state.Finalizing? && Unused(b, id, key)
    ensures Stands(c, b, d, id, Request(FinalizeRoute, key, Empty, ReadSession(false)))
    ensures d.rows == b.rows && d.stores == b.stores
  {
    d := Arrives(c, b, id, FinalizeRoute, key, Empty);
    LifecycleSteps.ActReads(d, id, Unavailable);
    d := LeadsGo(c, d, id, Unavailable);
    d := Acquires(c, b, d, id, Request(FinalizeRoute, key, Empty, Acquire));
  }

  /** A finalize request with a new key, on a finalizing session, lists them too. */
  lemma FinalizeBegins(c: Cell, b: Cell, id: RequestId, key: nat) returns (d: Cell, q: Request)
    requires Leads(c, b) && b.rows.session.state.Finalizing? && Unused(b, id, key)
    ensures Stands(c, b, d, id, q) && q == Request(FinalizeRoute, key, Empty, ListTurns(None))
    ensures d.rows.turns == b.rows.turns && d.rows.session == b.rows.session && d.stores == b.stores
  {
    d := FinalizeAcquires(c, b, id, key);
    q := Request(FinalizeRoute, key, Empty, ReadSession(false));
    d := Reads(c, b, d, id, q, Unavailable, ClaimInsert);
    q := q.(pc := ClaimInsert);
    d := Writes(c, b, d, id, q, WithClaim(d.rows, q, Inserted(None, Empty)), ListTurns(None));
    q := q.(pc := ListTurns(None));
  }

  /** A message turn comes to its facilitator call. */
  lemma MessageConsults(c: Cell, b: Cell, id: RequestId, key: nat, text: string) returns (d: Cell, q: Request)
    requires Leads(c, b) && b.rows.session.state.Active? && Unused(b, id, key)
    requires b.rows.session.facilitatorTurns < PARK_TURN
    ensures var consult := Consult(b.rows.session.facilitatorTurns + 1, b.rows.turns, text);
      Stands(c, b, d, id, q) && q == Request(TurnRoute, key, Message(text), consult)
    ensures d.rows.turns == b.rows.turns && d.rows.session == b.rows.session && d.stores == b.stores
  {
    d, q := TurnBegins(c, b, id, key, Message(text));
    var consult := Consult(b.rows.session.facilitatorTurns + 1, b.rows.turns, text);
    d := Reads(c, b, d, id, q, Unavailable, consult);
    q := q.(pc := consult);
  }

  /** The record of a plain facilitator turn. */
  function PlainTurn(turns: seq<TurnRecord>, count: nat, text: string, out: TurnOutput): TurnRecord {
    MessageTurn(|turns| + 1, text, out, None, EvaluateGate(count, out.delegation), [], None)
  }

  /** The synthesis reference of a run; which one it is decides nothing. */
  const SYNTHESIS := Reference(0, Kind.Synthesis, 1, 0, 0)

  lemma PlainAnswers(c: Cell, b: Cell, m: Cell, id: RequestId, p: Request, out: TurnOutput, latest: SynthesisReport)
    returns (d: Cell, q: Request)
    requires Stands(c, b, m, id, p) && p.pc.Consult? && p.pc.turns != [] && Numbered(p.pc.turns)
    requires ValidReport(latest) && !Dialogue.Delegates(out) && !TooManyDecisions(DecisionsOf(p.pc.turns))
    requires Passes(out, p.pc.count, latest, DecisionsOf(p.pc.turns))
    ensures Stands(c, b, d, id, q) && d.rows == m.rows && d.stores == m.stores
    ensures q == p.(pc := Pc.InsertTurn(PlainTurn(p.pc.turns, p.pc.count, p.pc.message, out),
            Some(Counted(p.pc.count, SYNTHESIS, latest))))
  {
    var insert := Pc.InsertTurn(PlainTurn(p.pc.turns, p.pc.count, p.pc.message, out),
        Some(Counted(p.pc.count, SYNTHESIS, latest)));
    d := Reads(c, b, m, id, p, Spoken(latest, out, SYNTHESIS), insert);
    q := p.(pc := insert);
  }

  /** What comes after recording a facilitator turn. */
  function AfterRecord(t: TurnRecord, counted: Counted): Pc {
    if t.outcome.Finalize? then WriteCount(t, counted) else Settle(t, t.outcome, counted)
  }

  lemma RowGoesIn(c: Cell, b: Cell, m: Cell, id: RequestId, p: Request) returns (d: Cell, q: Request)
    requires Stands(c, b, m, id, p) && p.pc.InsertTurn? && p.pc.dialogue.Some?
    requires Numbered(m.rows.turns) && p.pc.row.number == |m.rows.turns| + 1
    ensures Stands(c, b, d, id, q) && q == p.(pc := AfterRecord(p.pc.row, p.pc.dialogue.value))
    ensures d.rows == m.rows.(turns := m.rows.turns + [p.pc.row]) && d.stores == m.stores
  {
    var row := p.pc.row;
    InsertAppends(m.rows.turns, row);
    var next := AfterRecord(row, p.pc.dialogue.value);
    d := Writes(c, b, m, id, p, m.rows.(turns := m.rows.turns + [row]), next);
    q := p.(pc := next);
  }

  /** A message whose answer passes is recorded as a turn. */
  lemma MessageGoesIn(c: Cell, b: Cell, id: RequestId, key: nat, text: string, out: TurnOutput, latest: SynthesisReport)
    returns (d: Cell, q: Request)
    requires Leads(c, b) && b.rows.session.state.Active? && Unused(b, id, key) && RowsOk(b.rows)
    requires ValidReport(latest) && !Dialogue.Delegates(out) && !TooManyDecisions(DecisionsOf(b.rows.turns))
    requires Passes(out, b.rows.session.facilitatorTurns + 1, latest, DecisionsOf(b.rows.turns))
    ensures var n := b.rows.session.facilitatorTurns + 1; var t := PlainTurn(b.rows.turns, n, text, out);
      && Stands(c, b, d, id, q) && q.route.TurnRoute? && q.key == key
          && q.pc == AfterRecord(t, Counted(n, SYNTHESIS, latest))
      && d.rows.turns == b.rows.turns + [t] && d.rows.session == b.rows.session && d.stores == b.stores
  {
    d, q := MessageConsults(c, b, id, key, text);
    d, q := PlainAnswers(c, b, d, id, q, out, latest);
    d, q := RowGoesIn(c, b, d, id, q);
  }

  /** An acceptance records its turn and lists the turns again. */
  lemma AcceptanceRelists(c: Cell, b: Cell, id: RequestId, key: nat) returns (d: Cell, q: Request, turn: TurnRecord)
    requires Leads(c, b) && b.rows.session.state.Active? && Unused(b, id, key) && RowsOk(b.rows)
    ensures Stands(c, b, d, id, q) && q == Request(TurnRoute, key, Acceptance, Relist(turn, None))
    ensures Lookup(d.rows.claims, (TurnRoute, key)) == Some(Claim(Acceptance, None))
    ensures d.rows.turns == b.rows.turns + [AcceptanceTurn(|b.rows.turns| + 1)] && d.rows.session == b.rows.session
    ensures d.stores == b.stores
  {
    d, q := TurnBegins(c, b, id, key, Acceptance);
    turn := AcceptanceTurn(|b.rows.turns| + 1);
    d := Reads(c, b, d, id, q, Unavailable, Pc.InsertTurn(turn, None));
    q := q.(pc := Pc.InsertTurn(turn, None));
    InsertAppends(d.rows.turns, turn);
    d := Writes(c, b, d, id, q, d.rows.(turns := d.rows.turns + [turn]), Relist(turn, None));
    q := q.(pc := Relist(turn, None));
  }

  /** The newest synthesis version that the turns list. */
  function Newest(turns: seq<TurnRecord>): SynthesisReport
    requires turns != [] && Opened(turns)
  {
    if turns[|turns| - 1].synthesis.Some? || |turns| == 1 then turns[|turns| - 1].synthesis.value
        else Newest(turns[..|turns| - 1])
  }

  lemma {:induction false} NewestIsValid(turns: seq<TurnRecord>)
    requires turns != [] && Opened(turns) && Gated(turns)
    ensures ValidReport(Newest(turns))
  {
    assert RecordOk(turns[|turns| - 1]);
    if turns[|turns| - 1].synthesis.None? && |turns| > 1 {
      NewestIsValid(turns[..|turns| - 1]);
    }
  }

  /** With the turns listed and the latest synthesis read it stands at the mark. */
  lemma ReadsSynthesis(c: Cell, b: Cell, m: Cell, id: RequestId, p: Request, report: SynthesisReport)
    returns (d: Cell, q: Request)
    requires Stands(c, b, m, id, p) && p.pc.LatestSynthesis?
    ensures Stands(c, b, d, id, q) && d.rows == m.rows && d.stores == m.stores
    ensures q == p.(pc := q.pc) && q.pc.Mark? && q.pc.job.turns == p.pc.turns && q.pc.job.turn == p.pc.owner
  {
    var mark := Mark(Job(p.pc.owner, None, SYNTHESIS, report, p.pc.turns));
    d := Reads(c, b, m, id, p, Listed(SYNTHESIS, report), mark);
    q := p.(pc := mark);
  }

  lemma RelistsAndMarks(c: Cell, b: Cell, m: Cell, id: RequestId, p: Request) returns (d: Cell, q: Request)
    requires Stands(c, b, m, id, p) && p.pc.Relist? && p.pc.dialogue.None?
    requires m.rows.turns != [] && Opened(m.rows.turns)
    ensures Stands(c, b, d, id, q) && d.rows == m.rows && d.stores == m.stores
    ensures q == p.(pc := q.pc) && q.pc.Mark? && q.pc.job.turns == m.rows.turns
  {
    var latest := LatestSynthesis(Some(p.pc.turn), m.rows.turns);
    d := Reads(c, b, m, id, p, Unavailable, latest);
    d, q := ReadsSynthesis(c, b, d, id, p.(pc := latest), Newest(m.rows.turns));
  }

  /** A facilitator turn that finalizes is counted first. */
  lemma CountsAndMarks(c: Cell, b: Cell, m: Cell, id: RequestId, p: Request) returns (d: Cell, q: Request)
    requires Stands(c, b, m, id, p) && p.pc.WriteCount?
    ensures Stands(c, b, d, id, q) && d.stores == m.stores && d.rows.turns == m.rows.turns
    ensures d.rows.session.formats == m.rows.session.formats
    ensures q == p.(pc := q.pc) && q.pc.Mark? && q.pc.job.turns == m.rows.turns
  {
    var (r, pc) := OnWriteCount(m.rows, p.pc.turn, p.pc.counted);
    d := Writes(c, b, m, id, p, r, pc);
    q := p.(pc := pc);
    var mark := OnRelist(d.rows.turns, p.pc.turn, Some(p.pc.counted));
    d := Reads(c, b, d, id, q, Unavailable, mark);
    q := q.(pc := mark);
  }

  // -- from a finalizing session back to an active one ------------------------------------------------

  /** A retry whose review save fails for good rolls the session back. */
  lemma FinalizingBacksOut(c: Cell, b: Cell, id: RequestId, key: nat) returns (d: Cell, q: Request)
    requires Leads(c, b) && b.rows.session.state.Finalizing? && Unused(b, id, key) && RowsOk(b.rows)
    ensures Leads(c, d) && d.rows.turns == b.rows.turns && d.rows.session == b.rows.session.(state := Active)
    ensures d.stores == b.stores
    ensures d.requests == b.requests[id := q]
  {
    d, q := FinalizeBegins(c, b, id, key);
    var latest := LatestSynthesis(None, b.rows.turns);
    d := Reads(c, b, d, id, q, Unavailable, latest);
    d, q := ReadsSynthesis(c, b, d, id, q.(pc := latest), Newest(b.rows.turns));
    d, q := RollsBack(c, b, d, id, q);
  }

  lemma RollsBack(c: Cell, b: Cell, m: Cell, id: RequestId, p: Request) returns (d: Cell, q: Request)
    requires Stands(c, b, m, id, p) && p.pc.Mark? && m.rows.session.state.Finalizing?
    ensures Leads(c, d) && d.rows == m.rows.(session := m.rows.session.(state := Active)) && d.stores == m.stores
    ensures d.requests == b.requests[id := q]
  {
    var job := p.pc.job;
    q := p;
    d := Writes(c, b, m, id, q, Updated(m.rows, NoChange.(state := Some(Finalizing))), SaveReview(job));
    d := Calls(c, b, d, id, q.(pc := SaveReview(job)), Broken, m.stores, Rollback);
    d := Writes(c, b, d, id, q.(pc := Rollback), Updated(d.rows, NoChange.(state := Some(Active))),
        Unlock(Failed(false)));
    q := q.(pc := Unlock(Failed(false)));
  }
}
