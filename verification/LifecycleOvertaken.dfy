/** The one assertion that can fail: a retry that read the session as finalizing
    and lists the turns after another request rolled it back. */
module LifecycleOvertaken {
  import opened Common
  import opened Artifacts
  import opened Facilitator
  import opened FinalReview
  import opened Idempotency
  import opened Records
  import opened Turns
  import opened Lifecycle
  import opened LifecycleInvariant
  import opened LifecycleReview
  import opened LifecycleRuns
  import opened LifecycleTheorems
  import LifecycleSteps
  import TurnRules

  /** An acceptance marks the session as finalizing, and stalls. */
  lemma AcceptanceStalls(c: Cell, id: RequestId, key: nat) returns (d: Cell, q: Request)
    requires NewSession(c) && Unused(c, id, key)
    ensures Leads(c, d) && d.requests == c.requests[id := q] && d.rows.session == c.rows.session.(state := Finalizing)
    ensures d.rows.turns == c.rows.turns + [AcceptanceTurn(|c.rows.turns| + 1)]
    ensures d.stores == c.stores && Lookup(d.rows.claims, (TurnRoute, key)) == Some(Claim(Acceptance, None))
  {
    LifecycleSteps.NewSessionInv(c);
    assert Possible(c, []) && Run(c, []) == c;
    var turn;
    d, q, turn := AcceptanceRelists(c, c, id, key);
    d, q := MarksAndStalls(c, c, d, id, q);
  }

  lemma MarksAndStalls(c: Cell, b: Cell, m: Cell, id: RequestId, p: Request) returns (d: Cell, q: Request)
    requires Stands(c, b, m, id, p) && p.pc.Relist? && p.pc.dialogue.None? && m.rows.turns != [] && Opened(m.rows.turns)
    ensures Leads(c, d) && d.requests == b.requests[id := q] && d.rows.session == m.rows.session.(state := Finalizing)
    ensures d.rows.turns == m.rows.turns && d.rows.claims == m.rows.claims && d.stores == m.stores
  {
    d, q := RelistsAndMarks(c, b, m, id, p);
    var save := SaveReview(q.pc.job);
    d := Writes(c, b, d, id, q, Updated(d.rows, NoChange.(state := Some(Finalizing))), save);
    q := q.(pc := save);
  }

  /** Its retry, once the lease is free, reads the session, and stalls too. */
  lemma RetryStalls(c: Cell, b: Cell, id: RequestId, key: nat) returns (d: Cell, q: Request)
    requires Leads(c, b) && id !in b.requests && b.rows.session.state.Finalizing?
    requires Lookup(b.rows.claims, (TurnRoute, key)) == Some(Claim(Acceptance, None))
    ensures Leads(c, d) && d.requests == b.requests[id := q] && q.pc == ListTurns(Some(b.rows.session))
    ensures d.rows == b.rows && d.stores == b.stores
  {
    d := Arrives(c, b, id, TurnRoute, key, Acceptance);
    q := Request(TurnRoute, key, Acceptance, Acquire);
    d := Acquires(c, b, d, id, q);
    d, q := RetryReads(c, b, d, id, q.(pc := ClaimInsert));
  }

  lemma RetryReads(c: Cell, b: Cell, m: Cell, id: RequestId, p: Request) returns (d: Cell, q: Request)
    requires Stands(c, b, m, id, p) && p.pc == ClaimInsert && p.route.TurnRoute? && m.rows.session.state.Finalizing?
    requires Lookup(m.rows.claims, ClaimKey(p)) == Some(Claim(p.body, None))
    ensures Stands(c, b, d, id, q) && q.pc == ListTurns(Some(m.rows.session)) && d.rows == m.rows
    ensures d.stores == m.stores
  {
    d := Writes(c, b, m, id, p, m.rows, ClaimRead);
    q := p.(pc := ClaimRead);
    d := Reads(c, b, d, id, q, Unavailable, ReadSession(true));
    q := q.(pc := ReadSession(true));
    d := Reads(c, b, d, id, q, Unavailable, ListTurns(Some(m.rows.session)));
    q := q.(pc := ListTurns(Some(m.rows.session)));
  }

  /** An answer that raises one more point. */
  const Raise := Says(NoReviewer, ["open point"], [], [IssueDraft("open point", "Open point", "raised now")])

  lemma RaisePasses(count: nat, report: SynthesisReport, turns: seq<TurnRecord>)
    requires 1 < count < PARK_TURN && turns != [] && AllResolutions(turns) == []
    ensures Passes(Raise, count, report, DecisionsOf(turns)) && EvaluateGate(count, Raise.delegation).Continue?
  {
    assert Facilitator.Described(Raise.newIssues)[0] == "open point";
    assert DecisionsOf(turns).value.resolutions == [];
    TurnRules.RuleGroups(Raise, TurnRules.Request(count, report, DecisionsOf(turns)));
  }

  lemma OpeningThenAcceptance(out: TurnOutput, produced: seq<Reference>, synthesis: SynthesisReport)
    ensures AllResolutions([OpeningTurn(out, produced, synthesis)] + [AcceptanceTurn(2)]) == []
  {
    var turns := [OpeningTurn(out, produced, synthesis)];
    AppendSays(turns, AcceptanceTurn(2));
    assert turns[..0] == [];
    assert AllResolutions(turns) == [];
  }

  /** From every new session there is such a run: an acceptance and its retry
      stall past their leases, a finalize request rolls the session back, the
      dialogue goes on, and the retry then fails its assertion. */
  lemma RetryCanAssert(c: Cell)
    requires NewSession(c)
    ensures exists d, id, ch ::
      && Leads(c, d) && id in d.requests && Running(d.requests[id].pc) && !Asserted(d.requests[id].pc)
      && Act(d, id, ch).requests[id].pc == Unlock(AssertionFailed(NotAFinalizeTurn))
  {
    var first, key := FreshNames(c);
    var d, q := AcceptanceStalls(c, first, key);
    var retry := FreshNat(d.requests.Keys);
    var p;
    d, p := RetryStalls(c, d, retry, key);
    d := CarriesOn(c, d);
    ListingAsserts(d, retry);
  }

  lemma ListingAsserts(c: Cell, id: RequestId)
    requires id in c.requests && c.requests[id].pc.ListTurns? && c.requests[id].pc.seen.Some?
    requires c.requests[id].pc.seen.value.state.Finalizing? && c.rows.turns != []
    requires !Last(c.rows.turns).outcome.Finalize?
    ensures Act(c, id, Unavailable).requests[id].pc == Unlock(AssertionFailed(NotAFinalizeTurn))
  {
  }

  /** The session is rolled back and carried on by two further requests. */
  lemma CarriesOn(c: Cell, b: Cell) returns (d: Cell)
    requires NewSession(c) && Leads(c, b) && b.rows.session == c.rows.session.(state := Finalizing)
    requires b.rows.turns == c.rows.turns + [AcceptanceTurn(|c.rows.turns| + 1)]
    ensures Leads(c, d) && (forall id :: id in b.requests ==> id in d.requests && d.requests[id] == b.requests[id])
    ensures |d.rows.turns| > 0 && Last(d.rows.turns).outcome.Continue?
  {
    assert Inv(c) by {
      LifecycleSteps.NewSessionInv(c);
    }
    var id, key := FreshNames(b);
    var q;
    assert RowsOk(b.rows) by {
      LeadsInv(c, b);
    }
    d, q := FinalizingBacksOut(c, b, id, key);
    var out, produced, synthesis :| c.rows.turns == [OpeningTurn(out, produced, synthesis)];
    OpeningThenAcceptance(out, produced, synthesis);
    assert RowsOk(d.rows) by {
      LeadsInv(c, d);
    }
    d, q := PointRaised(c, d);
  }

  /** A further message goes in. */
  lemma PointRaised(c: Cell, b: Cell) returns (d: Cell, q: Request)
    requires Leads(c, b) && b.rows.session.state.Active? && RowsOk(b.rows) && AllResolutions(b.rows.turns) == []
    requires b.rows.session.facilitatorTurns + 1 < PARK_TURN
    ensures Leads(c, d) && (forall id :: id in b.requests ==> id in d.requests && d.requests[id] == b.requests[id])
    ensures |d.rows.turns| > 0 && Last(d.rows.turns).outcome.Continue?
  {
    var id, key := FreshNames(b);
    NewestIsValid(b.rows.turns);
    RaisePasses(b.rows.session.facilitatorTurns + 1, Newest(b.rows.turns), b.rows.turns);
    d, q := MessageGoesIn(c, b, id, key, "go on", Raise, Newest(b.rows.turns));
  }
}
