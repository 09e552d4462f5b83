/** Why the timing assumption is needed: session writes are not fenced by the
    lease token, so one late write can leave a terminal state. */
module LifecycleFencing {
  import opened Common
  import opened Idempotency
  import opened Records
  import opened Lifecycle
  import opened LifecycleRuns
  import opened LifecycleTheorems
  import LifecycleSteps

  /** An acceptance comes to its mark. */
  lemma WriterReachesMark(c: Cell, id: RequestId, key: nat) returns (d: Cell, q: Request)
    requires NewSession(c) && Unused(c, id, key)
    ensures Stands(c, c, d, id, q) && q.pc.Mark? && d.rows.session == c.rows.session
  {
    LifecycleSteps.NewSessionInv(c);
    assert Possible(c, []) && Run(c, []) == c;
    var turn;
    d, q, turn := AcceptanceRelists(c, c, id, key);
    d, q := RelistsAndMarks(c, c, d, id, q);
  }

  lemma AbandonReads(c: Cell, b: Cell, id: RequestId, key: nat) returns (d: Cell, q: Request)
    requires Leads(c, b) && Live(b.rows.session.state) && Unused(b, id, key)
    ensures Stands(c, b, d, id, q) && q.pc.ParkNow?
  {
    d := Arrives(c, b, id, AbandonRoute, key, Empty);
    q := Request(AbandonRoute, key, Empty, Acquire);
    d := Acquires(c, b, d, id, q);
    q := q.(pc := ClaimInsert);
    d := Writes(c, b, d, id, q, WithClaim(d.rows, q, Inserted(None, Empty)), ReadSession(false));
    q := q.(pc := ReadSession(false));
    d := Reads(c, b, d, id, q, Unavailable, Pc.ParkNow);
    q := q.(pc := Pc.ParkNow);
  }

  /** While the writer stalls past its expiry, an abandon request parks. */
  lemma AbandonParks(c: Cell, b: Cell, id: RequestId, key: nat) returns (d: Cell)
    requires Leads(c, b) && Live(b.rows.session.state) && Unused(b, id, key)
    ensures Leads(c, d) && d.rows.session.state.Parked?
    ensures forall i :: i in b.requests ==> i in d.requests && d.requests[i] == b.requests[i]
  {
    var q;
    d, q := AbandonReads(c, b, id, key);
    var (r, pc) := OnParkNow(d.rows, q);
    d := Writes(c, b, d, id, q, r, pc);
  }

  /** From every new session there is a run, punctual up to its last event, whose
      last write, by an expired holder, takes a parked session to finalizing. */
  lemma LateWriteLeavesParked(c: Cell)
    requires NewSession(c)
    ensures exists d, e ::
      && Leads(c, d) && Enabled(d, e) && !Punctual(d, e)
      && d.rows.session.state.Parked? && Step(d, e).rows.session.state.Finalizing?
  {
    var writer, key := FreshNames(c);
    var m, q := WriterReachesMark(c, writer, key);
    var other, second := FreshNames(m);
    var d := AbandonParks(c, m, other, second);
    LateMark(d, writer);
    assert !Punctual(d, Advance(writer, Unavailable)) by {
      if Punctual(d, Advance(writer, Unavailable)) {
        NewSessionStaysOnTheGraph(c, d, Advance(writer, Unavailable));
      }
    }
  }

  lemma LateMark(d: Cell, id: RequestId)
    requires id in d.requests && d.requests[id].pc.Mark?
    ensures Enabled(d, Advance(id, Unavailable)) && Step(d, Advance(id, Unavailable)).rows.session.state.Finalizing?
  {
    LifecycleSteps.ActWrites(d, id, Unavailable);
  }

  lemma NewSessionStaysOnTheGraph(c: Cell, d: Cell, e: Event)
    requires NewSession(c) && Leads(c, d) && Enabled(d, e) && Punctual(d, e)
    ensures Edge(d.rows.session.state, Step(d, e).rows.session.state)
  {
    var es :| Possible(c, es) && AllPunctual(c, es) && Run(c, es) == d;
    LifecycleSteps.NewSessionInv(c);
    RunGood(c, es);
    StepEdge(d, e);
  }

  /** What a write may find in the session row without leaving the graph. */
  predicate Tolerates(pc: Pc, s: SessionState)
    requires IsWrite(pc)
  {
    match pc
    case Mark(_) => Live(s)
    case Rollback => Live(s)
    case Close(_, _, _) => s.Finalizing? || s.Completed?
    case Settle(_, outcome, _) => outcome.Park? ==> !s.Completed?
    case ParkNow => !s.Completed?
    case _ => true
  }

  /** With or without the lease, a write follows the state graph exactly when
      the row it meets is one that it tolerates. */
  lemma WriteFollowsGraphIff(r: Rows, q: Request)
    requires IsWrite(q.pc)
    ensures Edge(r.session.state, Writing(r, q).0.session.state) <==> Tolerates(q.pc, r.session.state)
  {
    if q.pc.Settle? {
      assert q.pc.outcome.Park? ==> Writing(r, q).0.session.state.Parked?;
    }
  }
}
