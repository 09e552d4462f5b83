/** Which sessions can still complete: those whose lease holder can finish what it
    has begun, and those with no requested format pinned and no more to explain
    than a final review can hold. */
module LifecycleCompletion {
  import opened Common
  import opened Artifacts
  import opened Facilitator
  import opened FinalReview
  import opened OrderedDict
  import opened Records
  import opened Turns
  import opened Lifecycle
  import opened LifecycleInvariant
  import opened LifecycleReview
  import opened LifecycleRuns
  import opened LifecycleTheorems
  import Dialogue
  import LifecycleSteps
  import TurnRules

  // -- at the mark ---------------------------------------------------------------------------

  /** At the mark, with a new key and a review that the validator accepts. */
  ghost predicate Ready(c: Cell, b: Cell, d: Cell, id: RequestId, q: Request) {
    && Stands(c, b, d, id, q) && q.pc.Mark? && q.key !in d.stores.reviews && d.stores == b.stores
    && q.pc.job.turns == d.rows.turns != [] && Accepts(q.pc.job) && d.rows.session.formats == b.rows.session.formats
  }

  // -- acceptance ---------------------------------------------------------------------------------

  lemma AcceptedIsReady(c: Cell, b: Cell, d: Cell, id: RequestId, q: Request)
    requires Stands(c, b, d, id, q) && q.pc.Mark? && q.key !in d.stores.reviews && d.stores == b.stores
    requires d.rows.session.formats == b.rows.session.formats && q.pc.job.turns == d.rows.turns
    requires d.rows.turns != [] && d.rows.turns[0].synthesis.Some? && Verdict(d.rows.turns).None?
    ensures Ready(c, b, d, id, q)
  {
    AcceptsMeaning(q.pc.job);
  }

  lemma AcceptanceReady(c: Cell, b: Cell) returns (id: RequestId, d: Cell, q: Request)
    requires Leads(c, b) && b.rows.session.state.Active? && RowsOk(b.rows)
    requires Verdict(b.rows.turns + [AcceptanceTurn(|b.rows.turns| + 1)]).None?
    ensures Ready(c, b, d, id, q)
  {
    var key, turn;
    id, key := FreshNames(b);
    d, q, turn := AcceptanceRelists(c, b, id, key);
    d, q := AcceptanceMarks(c, b, d, id, q);
  }

  lemma AcceptanceMarks(c: Cell, b: Cell, m: Cell, id: RequestId, p: Request) returns (d: Cell, q: Request)
    requires Stands(c, b, m, id, p) && p.pc.Relist? && p.pc.dialogue.None? && p.key !in m.stores.reviews
    requires m.stores == b.stores && m.rows.session.formats == b.rows.session.formats
    requires m.rows.turns != [] && Opened(m.rows.turns) && Verdict(m.rows.turns).None?
    ensures Ready(c, b, d, id, q)
  {
    d, q := RelistsAndMarks(c, b, m, id, p);
    AcceptedIsReady(c, b, d, id, q);
  }

  // -- drafting what is not described yet -------------------------------------------------------

  function Missing(ids: seq<IssueId>, known: seq<IssueId>): (r: seq<IssueId>)
    ensures forall k :: k in r <==> k in ids && k !in known
    ensures Distinct(ids) ==> Distinct(r)
  {
    if ids == [] then []
    else
      var init, last := ids[..|ids| - 1], ids[|ids| - 1];
      assert ids == init + [last];
      if last in known then Missing(init, known) else Missing(init, known) + [last]
  }

  /** The recorded ids that nothing describes, as many as one turn may draft. */
  function Chunk(turns: seq<TurnRecord>): (r: seq<IssueId>)
    ensures |r| <= 100 && Distinct(r)
    ensures forall k :: k in r ==> k in SpokenIds(turns) && k !in DescribedIds(turns)
    ensures r == [] ==> forall k :: k in SpokenIds(turns) ==> k in DescribedIds(turns)
  {
    var missing := Missing(SpokenIds(turns), DescribedIds(turns));
    if |missing| <= 100 then missing else missing[..100]
  }

  /** An answer that opens these ids again and describes them. */
  function Drafting(ids: seq<IssueId>): TurnOutput {
    Says(NoReviewer, ids,
         seq(|ids|, i requires 0 <= i < |ids| => Draft(ids[i], Reopened, "open again")),
         seq(|ids|, i requires 0 <= i < |ids| => IssueDraft(ids[i], "Recorded issue", "spoken of in the dialogue")))
  }

  lemma DraftingPasses(ids: seq<IssueId>, count: nat, report: SynthesisReport, decisions: Option<DecisionState>)
    requires count > 1 && |ids| <= 100 && Distinct(ids) && forall k :: k in ids ==> ValidText(k)
    ensures Passes(Drafting(ids), count, report, decisions) && !Dialogue.Delegates(Drafting(ids))
  {
    var out := Drafting(ids);
    assert Facilitator.Described(out.newIssues) == ids;
    forall k | k in ids ensures TurnRules.Drafted(out.resolutions, k, Reopened) {
      var i :| 0 <= i < |ids| && ids[i] == k;
      assert out.resolutions[i].issue == k;
    }
    TurnRules.RuleGroups(out, TurnRules.Request(count, report, decisions));
  }

  lemma {:induction false} FirstSeenAbsorbs(a: seq<IssueId>, b: seq<IssueId>)
    requires forall k :: k in b ==> k in a
    ensures FirstSeen(a + b) == FirstSeen(a)
  {
    if b == [] {
      assert a + b == a;
    } else {
      FirstSeenAbsorbs(a, b[..|b| - 1]);
      assert (a + b)[..|a + b| - 1] == a + b[..|b| - 1];
      assert b[|b| - 1] in b;
    }
  }

  /** A turn that records nothing but these drafts and dispositions. */
  predicate Drafts(t: TurnRecord, ids: seq<IssueId>) {
    t.resolutions == Stamped(Drafting(ids).resolutions, t.number) && t.newIssues == Drafting(ids).newIssues
    && t.synthesis.None?
  }

  lemma DraftsSpeak(turns: seq<TurnRecord>, t: TurnRecord, ids: seq<IssueId>)
    requires Drafts(t, ids) && forall k :: k in ids ==> k in SpokenIds(turns)
    ensures SpokenIds(turns + [t]) == SpokenIds(turns)
  {
    AppendSays(turns, t);
    assert Record(AllResolutions(turns + [t])) == Record(AllResolutions(turns)) + Record(t.resolutions);
    KeysConcat(Record(AllResolutions(turns)), Record(t.resolutions));
    assert Issues(t.resolutions) == ids;
    FirstSeenAbsorbs(Issues(AllResolutions(turns)), ids);
  }

  lemma DraftsDescribe(turns: seq<TurnRecord>, t: TurnRecord, ids: seq<IssueId>)
    requires Drafts(t, ids)
    ensures forall k :: k in DescribedIds(turns + [t]) <==> k in DescribedIds(turns) || k in ids
  {
    AppendSays(turns, t);
    assert Versions(turns) + [] == Versions(turns);
    CatalogMeaning(Versions(turns), turns);
    CatalogMeaning(Versions(turns), turns + [t]);
    KeysConcat(MintedEntries(turns), DraftEntries(t.newIssues));
    assert Keys(DraftEntries(t.newIssues)) == ids;
  }

  lemma {:induction false} ResolvedTexts(turns: seq<TurnRecord>, i: nat)
    requires Gated(turns) && i < |AllResolutions(turns)|
    ensures ValidText(AllResolutions(turns)[i].issue)
  {
    var init, last := turns[..|turns| - 1], turns[|turns| - 1];
    assert RecordOk(last);
    if i < |AllResolutions(init)| {
      ResolvedTexts(init, i);
    }
  }

  /** Recorded ids are texts: they came with answers that parsed. */
  lemma SpokenTexts(turns: seq<TurnRecord>, k: IssueId)
    requires Gated(turns) && k in SpokenIds(turns)
    ensures ValidText(k)
  {
    var all := AllResolutions(turns);
    var i :| 0 <= i < |all| && Issues(all)[i] == k;
    ResolvedTexts(turns, i);
  }

  /** The recorded ids that nothing describes yet. */
  function Untold(turns: seq<TurnRecord>): set<IssueId> { SetOf(SpokenIds(turns)) - SetOf(DescribedIds(turns)) }

  lemma UntoldShrinks(turns: seq<TurnRecord>, more: seq<TurnRecord>, ids: seq<IssueId>)
    requires SpokenIds(more) == SpokenIds(turns) && ids != []
    requires forall k :: k in DescribedIds(more) <==> k in DescribedIds(turns) || k in ids
    requires forall k :: k in ids ==> k in SpokenIds(turns) && k !in DescribedIds(turns)
    ensures ToDescribe(more) == ToDescribe(turns) && |Untold(more)| < |Untold(turns)|
  {
    var told := ids[0];
    assert told in ids;
    assert told in Untold(turns) && Untold(more) <= Untold(turns) - {told};
    SubsetSize(Untold(more), Untold(turns) - {told});
  }

  lemma DraftsTell(turns: seq<TurnRecord>, t: TurnRecord)
    requires Drafts(t, Chunk(turns)) && Chunk(turns) != []
    ensures SpokenIds(turns + [t]) == SpokenIds(turns) && ToDescribe(turns + [t]) == ToDescribe(turns)
    ensures |Untold(turns + [t])| < |Untold(turns)|
  {
    DraftsSpeak(turns, t, Chunk(turns));
    DraftsDescribe(turns, t, Chunk(turns));
    UntoldShrinks(turns, turns + [t], Chunk(turns));
  }

  // -- one message after the other ---------------------------------------------------------------

  /** A turn that does not finalize is settled; on the park turn, where settling
      would park, the request dies after recording it. */
  lemma GoesOnOrDies(c: Cell, b: Cell, m: Cell, id: RequestId, p: Request) returns (e: Cell)
    requires Stands(c, b, m, id, p) && p.pc.Settle? && m.rows.session.state.Active?
    ensures Leads(c, e) && e.rows.turns == m.rows.turns && e.rows.session.state.Active? && e.stores == m.stores
    ensures e.rows.session.formats == m.rows.session.formats
  {
    if p.pc.outcome.Park? {
      var q;
      e, q := Dies(c, b, m, id, p);
    } else {
      var (r, pc) := OnSettle(m.rows, p, p.pc.turn, p.pc.outcome, p.pc.counted);
      e := Writes(c, b, m, id, p, r, pc);
    }
  }

  lemma Dies(c: Cell, b: Cell, m: Cell, id: RequestId, q: Request) returns (d: Cell, p: Request)
    requires Stands(c, b, m, id, q) && Running(q.pc)
    ensures Leads(c, d) && d.rows == m.rows && d.stores == m.stores && d.lease == m.lease
    ensures d.requests == b.requests[id := p] && p.pc.Crashed?
  {
    LeadsStep(c, m, Crash(id));
    d := Step(m, Crash(id));
    p := q.(pc := Crashed);
  }

  /** These ids may be drafted now, whatever was said before. */
  lemma DraftingFits(turns: seq<TurnRecord>, ids: seq<IssueId>, count: nat)
    requires turns != [] && Opened(turns) && Gated(turns) && CanSpeak(turns) && count > 1
    requires |ids| <= 100 && Distinct(ids) && forall k :: k in ids ==> k in SpokenIds(turns)
    ensures ValidReport(Newest(turns)) && !TooManyDecisions(DecisionsOf(turns))
    ensures !Dialogue.Delegates(Drafting(ids)) && Passes(Drafting(ids), count, Newest(turns), DecisionsOf(turns))
  {
    NewestIsValid(turns);
    LatestIsSpoken(turns);
    forall k | k in ids ensures ValidText(k) {
      SpokenTexts(turns, k);
    }
    DraftingPasses(ids, count, Newest(turns), DecisionsOf(turns));
  }

  /** An answer that goes through on these rows. */
  ghost predicate Fits(r: Rows, out: TurnOutput)
    requires r.turns != [] && Opened(r.turns)
  {
    && ValidReport(Newest(r.turns)) && !TooManyDecisions(DecisionsOf(r.turns)) && !Dialogue.Delegates(out)
    && Passes(out, r.session.facilitatorTurns + 1, Newest(r.turns), DecisionsOf(r.turns))
  }

  /** The turn records this answer, and finalizes only when it leaves nothing open. */
  ghost predicate Recounts(t: TurnRecord, out: TurnOutput) {
    && t.resolutions == Stamped(out.resolutions, t.number) && t.newIssues == out.newIssues && t.synthesis.None?
    && t.delegation == Some(out.delegation) && (t.outcome.Finalize? ==> out.delegation.openIssues == [])
  }

  lemma AnswerGoesIn(c: Cell, b: Cell, out: TurnOutput) returns (id: RequestId, d: Cell, q: Request, t: TurnRecord)
    requires Leads(c, b) && b.rows.session.state.Active? && RowsOk(b.rows) && Fits(b.rows, out)
    ensures Stands(c, b, d, id, q) && q.key !in b.stores.reviews && d.stores == b.stores
    ensures d.rows.session == b.rows.session && d.rows.turns == b.rows.turns + [t] && Recounts(t, out)
    ensures if t.outcome.Finalize? then q.pc.WriteCount? else q.pc.Settle?
  {
    var key;
    id, key := FreshNames(b);
    t := PlainTurn(b.rows.turns, b.rows.session.facilitatorTurns + 1, "please go on", out);
    d, q := MessageGoesIn(c, b, id, key, "please go on", out, Newest(b.rows.turns));
  }

  /** It drafts these ids and keeps just them open. */
  ghost predicate DraftsOpenly(t: TurnRecord, ids: seq<IssueId>) {
    && Drafts(t, ids) && t.delegation.Some? && t.delegation.value.openIssues == ids
    && (t.outcome.Finalize? ==> ids == [])
  }

  lemma DraftingFitsRows(r: Rows, ids: seq<IssueId>)
    requires RowsOk(r) && CanSpeak(r.turns)
    requires |ids| <= 100 && Distinct(ids) && forall k :: k in ids ==> k in SpokenIds(r.turns)
    ensures Fits(r, Drafting(ids))
  {
    DraftingFits(r.turns, ids, r.session.facilitatorTurns + 1);
  }

  lemma RecountsDraftsOpenly(t: TurnRecord, ids: seq<IssueId>)
    requires Recounts(t, Drafting(ids))
    ensures DraftsOpenly(t, ids)
  {
  }

  /** An answer that drafts these ids, which were spoken of before, is there. */
  lemma DraftingAnswer(r: Rows, ids: seq<IssueId>) returns (out: TurnOutput)
    requires RowsOk(r) && CanSpeak(r.turns)
    requires |ids| <= 100 && Distinct(ids) && forall k :: k in ids ==> k in SpokenIds(r.turns)
    ensures Fits(r, out) && forall t :: Recounts(t, out) ==> DraftsOpenly(t, ids)
  {
    out := Drafting(ids);
    DraftingFitsRows(r, ids);
    forall t | Recounts(t, out) ensures DraftsOpenly(t, ids) {
      RecountsDraftsOpenly(t, ids);
    }
  }

  lemma DraftingGoesIn(c: Cell, b: Cell, ids: seq<IssueId>)
    returns (id: RequestId, d: Cell, q: Request, t: TurnRecord)
    requires Leads(c, b) && b.rows.session.state.Active? && RowsOk(b.rows) && CanSpeak(b.rows.turns)
    requires |ids| <= 100 && Distinct(ids) && forall k :: k in ids ==> k in SpokenIds(b.rows.turns)
    ensures Stands(c, b, d, id, q) && q.key !in b.stores.reviews && d.stores == b.stores
    ensures d.rows.session == b.rows.session && d.rows.turns == b.rows.turns + [t] && DraftsOpenly(t, ids)
    ensures if t.outcome.Finalize? then q.pc.WriteCount? else q.pc.Settle?
  {
    var out := DraftingAnswer(b.rows, ids);
    id, d, q, t := AnswerGoesIn(c, b, out);
  }

  /** One more message describes a chunk of them. */
  lemma ChunkGoesIn(c: Cell, b: Cell) returns (e: Cell)
    requires Inv(c) && Leads(c, b) && b.rows.session.state.Active? && CanSpeak(b.rows.turns)
    requires Chunk(b.rows.turns) != []
    ensures Leads(c, e) && e.rows.session.state.Active? && e.stores == b.stores
    ensures e.rows.session.formats == b.rows.session.formats
    ensures CanSpeak(e.rows.turns) && ToDescribe(e.rows.turns) == ToDescribe(b.rows.turns)
    ensures |Untold(e.rows.turns)| < |Untold(b.rows.turns)|
  {
    LeadsInv(c, b);
    var ids := Chunk(b.rows.turns);
    var id, d, q, t := DraftingGoesIn(c, b, ids);
    DraftsTell(b.rows.turns, t);
    e := GoesOnOrDies(c, b, d, id, q);
  }

  // -- concluding ------------------------------------------------------------------------------------

  lemma NothingRetained(turns: seq<TurnRecord>, k: IssueId)
    requires turns != [] && OpenList(turns) == [] && Referenced(turns, k)
    ensures k in SpokenIds(turns)
  {
    LatestIsSpoken(turns);
    var i :| 0 <= i < |Aggregated(turns)| && Issues(Aggregated(turns))[i] == k;
    assert Issues(Latest(AllResolutions(turns)))[i] == k;
  }

  /** Everything that was spoken of is described, and fits the catalog. */
  predicate Told(turns: seq<TurnRecord>) {
    |SetOf(DescribedIds(turns))| <= CATALOG_CAP && forall k :: k in SpokenIds(turns) ==> k in DescribedIds(turns)
  }

  lemma CatalogSize(turns: seq<TurnRecord>)
    ensures |Catalog(Versions(turns), turns)| == |SetOf(DescribedIds(turns))|
  {
    CatalogMeaning(Versions(turns), turns);
    SetSize(DescribedIds(turns));
  }

  /** When nothing is open, any closing turn will do. */
  lemma ToldIsAccepted(turns: seq<TurnRecord>)
    requires turns != [] && OpenList(turns) == [] && Told(turns)
    ensures Verdict(turns).None?
  {
    CatalogSize(turns);
    forall k | Referenced(turns, k) ensures k in Keys(Catalog(Versions(turns), turns)) {
      NothingRetained(turns, k);
    }
    assert Remaining(turns, turns[|turns| - 1].poAccepted) == [];
    JudgeMeaning(Versions(turns), turns);
  }

  /** A turn that says nothing about any issue and leaves none open. */
  predicate Concludes(t: TurnRecord) {
    t.resolutions == [] && t.newIssues == [] && t.synthesis.None? && t.delegation.Some?
    && t.delegation.value.openIssues == []
  }

  lemma ConclusionIsTold(turns: seq<TurnRecord>, t: TurnRecord)
    requires Told(turns) && t.resolutions == [] && t.newIssues == [] && t.synthesis.None?
    ensures Told(turns + [t])
  {
    AppendSays(turns, t);
    assert AllResolutions(turns) + [] == AllResolutions(turns);
    assert MintedEntries(turns) + DraftEntries([]) == MintedEntries(turns);
    assert Versions(turns) + [] == Versions(turns);
  }

  lemma ConclusionIsAccepted(turns: seq<TurnRecord>, t: TurnRecord)
    requires Told(turns) && Concludes(t)
    ensures Verdict(turns + [t]).None? && Verdict(turns + [t] + [AcceptanceTurn(|turns| + 2)]).None?
  {
    var once, close := turns + [t], AcceptanceTurn(|turns| + 2);
    AppendSays(turns, t);
    ConclusionIsTold(turns, t);
    ToldIsAccepted(once);
    AppendSays(once, close);
    ConclusionIsTold(once, close);
    ToldIsAccepted(once + [close]);
  }

  lemma UntoldIsTold(turns: seq<TurnRecord>)
    requires Chunk(turns) == [] && |ToDescribe(turns)| <= CATALOG_CAP
    ensures Told(turns)
  {
    assert ToDescribe(turns) == SetOf(DescribedIds(turns));
  }

  /** Before the park turn a concluding turn finalizes by itself. */
  lemma ConclusionReady(c: Cell, b: Cell, m: Cell, id: RequestId, p: Request) returns (d: Cell, q: Request)
    requires Stands(c, b, m, id, p) && p.pc.WriteCount? && p.key !in m.stores.reviews && m.stores == b.stores
    requires m.rows.session == b.rows.session
    requires RowsOk(m.rows) && Verdict(m.rows.turns).None?
    ensures Ready(c, b, d, id, q)
  {
    d, q := CountsAndMarks(c, b, m, id, p);
    AcceptedIsReady(c, b, d, id, q);
  }

  /** With everything described, one more message concludes. */
  lemma ConclusionGoesIn(c: Cell, b: Cell) returns (id: RequestId, d: Cell, q: Request)
    requires Leads(c, b) && b.rows.session.state.Active? && RowsOk(b.rows) && CanSpeak(b.rows.turns)
    requires Told(b.rows.turns)
    ensures Stands(c, b, d, id, q) && q.key !in b.stores.reviews && d.stores == b.stores
    ensures d.rows.session == b.rows.session
    ensures q.pc.WriteCount? || q.pc.Settle?
    ensures d.rows.turns != [] && Verdict(d.rows.turns).None?
    ensures Verdict(d.rows.turns + [AcceptanceTurn(|d.rows.turns| + 1)]).None?
  {
    var t;
    id, d, q, t := SilenceGoesIn(c, b);
    ConclusionIsAccepted(b.rows.turns, t);
  }

  lemma SilenceGoesIn(c: Cell, b: Cell) returns (id: RequestId, d: Cell, q: Request, t: TurnRecord)
    requires Leads(c, b) && b.rows.session.state.Active? && RowsOk(b.rows) && CanSpeak(b.rows.turns)
    ensures Stands(c, b, d, id, q) && q.key !in b.stores.reviews && d.stores == b.stores
    ensures d.rows.session == b.rows.session
    ensures (q.pc.WriteCount? || q.pc.Settle?) && Concludes(t) && d.rows.turns == b.rows.turns + [t]
  {
    var none: seq<IssueId> := [];
    id, d, q, t := DraftingGoesIn(c, b, none);
    assert Drafting(none).resolutions == [] && Drafting(none).newIssues == [];
  }

  /** On the park turn it dies, and an acceptance follows. */
  lemma AcceptanceFollows(c: Cell, b: Cell, m: Cell, p: RequestId, r: Request)
    returns (e: Cell, id: RequestId, d: Cell, q: Request)
    requires Inv(c) && Stands(c, b, m, p, r) && r.pc.Settle? && m.rows.session.state.Active? && m.rows.turns != []
    requires Verdict(m.rows.turns + [AcceptanceTurn(|m.rows.turns| + 1)]).None?
    ensures Leads(c, e) && e.stores == m.stores && e.rows.session.formats == m.rows.session.formats
    ensures Ready(c, e, d, id, q)
  {
    e := GoesOnOrDies(c, b, m, p, r);
    assert RowsOk(e.rows) by {
      LeadsInv(c, e);
    }
    id, d, q := AcceptanceReady(c, e);
  }

  lemma ConcludingReady(c: Cell, b: Cell) returns (e: Cell, id: RequestId, d: Cell, q: Request)
    requires Inv(c) && Leads(c, b) && b.rows.session.state.Active? && CanSpeak(b.rows.turns) && Told(b.rows.turns)
    ensures Leads(c, e) && e.stores == b.stores && e.rows.session.formats == b.rows.session.formats
    ensures Ready(c, e, d, id, q)
  {
    assert RowsOk(b.rows) by {
      LeadsInv(c, b);
    }
    id, d, q := ConclusionGoesIn(c, b);
    if q.pc.WriteCount? {
      assert RowsOk(d.rows) by {
        LeadsInv(c, d);
      }
      e := b;
      d, q := ConclusionReady(c, b, d, id, q);
    } else {
      e, id, d, q := AcceptanceFollows(c, b, d, id, q);
    }
  }

  /** Chunk by chunk until everything is described. */
  lemma {:induction false} SpeakingReady(c: Cell, b: Cell) returns (e: Cell, id: RequestId, d: Cell, q: Request)
    requires Inv(c) && Leads(c, b) && b.rows.session.state.Active? && CanSpeak(b.rows.turns)
    requires |ToDescribe(b.rows.turns)| <= CATALOG_CAP
    ensures Leads(c, e) && e.stores == b.stores && e.rows.session.formats == b.rows.session.formats
    ensures Ready(c, e, d, id, q)
    decreases |Untold(b.rows.turns)|
  {
    if Chunk(b.rows.turns) == [] {
      UntoldIsTold(b.rows.turns);
      e, id, d, q := ConcludingReady(c, b);
    } else {
      e := ChunkGoesIn(c, b);
      e, id, d, q := SpeakingReady(c, e);
    }
  }

  // -- through the finalization flow -----------------------------------------------------------

  /** Requested formats are pinned, if at all, to this review. */
  ghost predicate Open(d: Cell, review: Reference) {
    forall f :: f in d.rows.session.formats && f in d.stores.pins ==> d.stores.pins[f].review == review
  }

  lemma MarksFirst(c: Cell, b: Cell, m: Cell, id: RequestId, q: Request) returns (d: Cell)
    requires Stands(c, b, m, id, q) && q.pc.Mark?
    ensures Stands(c, b, d, id, q.(pc := SaveReview(q.pc.job))) && d.stores == m.stores && d.rows.turns == m.rows.turns
    ensures d.rows.session == m.rows.session.(state := Finalizing)
  {
    var (r, pc) := OnMark(m.rows, q.pc.job);
    d := Writes(c, b, m, id, q, r, pc);
  }

  lemma SavesNext(c: Cell, b: Cell, m: Cell, id: RequestId, q: Request, review: Reference) returns (d: Cell)
    requires Stands(c, b, m, id, q) && q.pc.SaveReview? && q.pc.job.turns != [] && Accepts(q.pc.job)
    requires q.key !in m.stores.reviews && review !in m.stores.saved
    ensures Stands(c, b, d, id, q.(pc := Render(q.pc.job, review, []))) && d.rows == m.rows
    ensures d.stores == Remembered(m.stores, q.key, review)
  {
    d := Calls(c, b, m, id, q, Fine(review), Remembered(m.stores, q.key, review), Render(q.pc.job, review, []));
  }

  lemma SavesFirst(c: Cell, b: Cell, m: Cell, id: RequestId, q: Request, review: Reference) returns (d: Cell)
    requires Ready(c, b, m, id, q) && review !in m.stores.saved
    ensures Stands(c, b, d, id, q.(pc := Render(q.pc.job, review, [])))
    ensures d.stores == Remembered(m.stores, q.key, review)
    ensures d.rows.session == m.rows.session.(state := Finalizing)
  {
    d := MarksFirst(c, b, m, id, q);
    d := SavesNext(c, b, d, id, q.(pc := SaveReview(q.pc.job)), review);
  }

  /** The next report is taken or made. */
  lemma RendersNext(c: Cell, b: Cell, m: Cell, id: RequestId, q: Request) returns (d: Cell, p: Request)
    requires Stands(c, b, m, id, q) && q.pc.Render? && |q.pc.done| < |m.rows.session.formats| && Open(m, q.pc.review)
    ensures Stands(c, b, d, id, p) && p.pc.Render? && p == q.(pc := p.pc) && p.pc.review == q.pc.review
    ensures |p.pc.done| == |q.pc.done| + 1
    ensures d.rows == m.rows && d.stores.saved == m.stores.saved && Open(d, q.pc.review)
    ensures m.rows.session.formats[|q.pc.done|] in d.stores.pins
  {
    var job, review, done := q.pc.job, q.pc.review, q.pc.done;
    var f, report := m.rows.session.formats[|done|], review.(artifactId := review.artifactId + 1 + |done|);
    var pins := Pinned(m.stores.pins, f, report, review);
    var next := Render(job, review, done + [pins[f].report]);
    d := Calls(c, b, m, id, q, Fine(report), m.stores.(pins := pins), next);
    p := q.(pc := next);
  }

  lemma {:induction false} RenderRest(c: Cell, b: Cell, d: Cell, id: RequestId, q: Request)
    returns (e: Cell, p: Request)
    requires Stands(c, b, d, id, q) && q.pc.Render? && |q.pc.done| <= |d.rows.session.formats| && Open(d, q.pc.review)
    ensures Stands(c, b, e, id, p) && p.pc.Stamp?
    decreases |d.rows.session.formats| - |q.pc.done|
  {
    if |q.pc.done| == |d.rows.session.formats| {
      p := q.(pc := Stamp(q.pc.job, q.pc.review, q.pc.done));
      e := Calls(c, b, d, id, q, Unavailable, d.stores, p.pc);
    } else {
      e, p := RendersNext(c, b, d, id, q);
      e, p := RenderRest(c, b, e, id, p);
    }
  }

  lemma Stamps(c: Cell, b: Cell, m: Cell, id: RequestId, q: Request) returns (d: Cell, p: Request)
    requires Stands(c, b, m, id, q) && q.pc.Stamp?
    ensures Stands(c, b, d, id, p) && p.pc.Close?
  {
    var (r, pc) := OnStamp(m.rows, q.pc.job, q.pc.review, q.pc.reports);
    d := Writes(c, b, m, id, q, r, pc);
    p := q.(pc := pc);
  }

  lemma Closes(c: Cell, b: Cell, m: Cell, id: RequestId, q: Request) returns (d: Cell)
    requires Stands(c, b, m, id, q) && q.pc.Close?
    ensures Leads(c, d) && d.rows.session.state.Completed?
  {
    var (r, pc) := OnClose(m.rows, q, q.pc.job, q.pc.review, q.pc.reports);
    d := Writes(c, b, m, id, q, r, pc);
  }

  /** From wherever it is past its review save. */
  lemma FlyingCompletes(c: Cell, b: Cell, m: Cell, id: RequestId, q: Request) returns (d: Cell)
    requires Stands(c, b, m, id, q) && Flying(q.pc)
    requires q.pc.Render? ==> |q.pc.done| <= |m.rows.session.formats| && Open(m, q.pc.review)
    ensures Leads(c, d) && d.rows.session.state.Completed?
  {
    var p := q;
    d := m;
    if p.pc.Render? {
      d, p := RenderRest(c, b, d, id, p);
    }
    if p.pc.Stamp? {
      d, p := Stamps(c, b, d, id, p);
    }
    d := Closes(c, b, d, id, p);
  }

  lemma UnpinnedIsOpen(c: Cell)
    requires !AnyPinned(c.stores, c.rows.session.formats)
    ensures forall review :: Open(c, review)
  {
  }

  lemma Completes(c: Cell, b: Cell, m: Cell, id: RequestId, q: Request) returns (d: Cell)
    requires Ready(c, b, m, id, q) && !AnyPinned(m.stores, m.rows.session.formats)
    ensures Leads(c, d) && d.rows.session.state.Completed?
  {
    var review := FreshReference(m.stores.saved);
    d := SavesFirst(c, b, m, id, q, review);
    UnpinnedIsOpen(m);
    d := FlyingCompletes(c, b, d, id, q.(pc := Render(q.pc.job, review, [])));
  }

  // -- which sessions can complete ------------------------------------------------------------------

  ghost predicate CanComplete(c: Cell) {
    exists d :: Leads(c, d) && d.rows.session.state.Completed?
  }

  /** The lease holder is past its review save, and its remaining formats are free
      or pinned to its own review. */
  ghost predicate CanFinish(c: Cell) {
    exists id :: id in c.requests && Holds(c, id) && Flying(c.requests[id].pc) && Open(c, c.requests[id].pc.review)
  }

  /** While the facilitator can be called: all that is described and all that was
      spoken of fit one catalog. After that: an acceptance would be accepted. */
  predicate Explainable(turns: seq<TurnRecord>) {
    if CanSpeak(turns) then |ToDescribe(turns)| <= CATALOG_CAP
    else Verdict(turns + [AcceptanceTurn(|turns| + 1)]).None?
  }

  /** A finalizing session can be rolled back first. */
  lemma BecomesActive(c: Cell) returns (b: Cell)
    requires Inv(c) && Live(c.rows.session.state)
    ensures Leads(c, b) && b.rows.session.state.Active? && b.rows.turns == c.rows.turns && b.stores == c.stores
    ensures b.rows.session.formats == c.rows.session.formats
  {
    assert Possible(c, []) && Run(c, []) == c;
    b := c;
    if c.rows.session.state.Finalizing? {
      var id, key := FreshNames(c);
      var q;
      b, q := FinalizingBacksOut(c, c, id, key);
    }
  }

  lemma ReachesMark(c: Cell) returns (b: Cell, id: RequestId, d: Cell, q: Request)
    requires Inv(c) && Live(c.rows.session.state) && Explainable(c.rows.turns)
    ensures Leads(c, b) && b.stores == c.stores && b.rows.session.formats == c.rows.session.formats
    ensures Ready(c, b, d, id, q)
  {
    b := BecomesActive(c);
    if CanSpeak(c.rows.turns) {
      b, id, d, q := SpeakingReady(c, b);
    } else {
      assert RowsOk(b.rows) by {
        LeadsInv(c, b);
      }
      id, d, q := AcceptanceReady(c, b);
    }
  }

  lemma UnpinnedCompletes(c: Cell)
    requires Inv(c) && Live(c.rows.session.state) && !AnyPinned(c.stores, c.rows.session.formats)
    requires Explainable(c.rows.turns)
    ensures CanComplete(c)
  {
    var b, id, m, q := ReachesMark(c);
    var d := Completes(c, b, m, id, q);
  }

  lemma BlockedCannotComplete(c: Cell, f: Format, review: Reference)
    requires Inv(c) && Orphaned(c, review) && Blocked(c, f, review)
    ensures !CanComplete(c)
  {
    forall es | Possible(c, es) && AllPunctual(c, es) ensures !Run(c, es).rows.session.state.Completed? {
      AbandonedReportBlocksCompletion(c, es, f, review);
    }
  }

  /** A holder that cannot finish meets a format that is pinned to another review. */
  lemma SomePinIsOrphaned(c: Cell) returns (f: Format)
    requires Inv(c) && !CanFinish(c) && AnyPinned(c.stores, c.rows.session.formats)
    ensures f in c.rows.session.formats && f in c.stores.pins && Orphaned(c, c.stores.pins[f].review)
  {
    var i :| 0 <= i < |c.rows.session.formats| && c.rows.session.formats[i] in c.stores.pins;
    f := c.rows.session.formats[i];
    if !Orphaned(c, c.stores.pins[f].review) {
      var id :| id in c.requests && Holds(c, id) && Carries(c.requests[id].pc, c.stores.pins[f].review);
      assert !Open(c, c.requests[id].pc.review);
      f :| f in c.rows.session.formats && f in c.stores.pins && c.stores.pins[f].review != c.requests[id].pc.review;
    }
  }

  lemma PinnedNeverCompletes(c: Cell)
    requires Inv(c) && Live(c.rows.session.state) && !CanFinish(c) && AnyPinned(c.stores, c.rows.session.formats)
    ensures !CanComplete(c)
  {
    var f := SomePinIsOrphaned(c);
    BlockedCannotComplete(c, f, c.stores.pins[f].review);
  }

  /** With nothing pinned a holder past its review save could finish. */
  lemma NobodyFlies(c: Cell)
    requires !CanFinish(c) && !AnyPinned(c.stores, c.rows.session.formats)
    ensures Sound(c) && forall id :: id in c.requests && Holds(c, id) ==> !Flying(c.requests[id].pc)
  {
    UnpinnedIsOpen(c);
  }

  lemma NobodySpeaks(c: Cell)
    requires Inv(c) && !CanSpeak(c.rows.turns) && forall id :: id in c.requests && Holds(c, id) ==>
            !Flying(c.requests[id].pc)
    ensures HolderIsQuiet(c)
  {
    LatestIsSpoken(c.rows.turns);
    forall id | id in c.requests && Holds(c, id) ensures !Loud(c.requests[id].pc) {
      assert RequestOk(c, id);
    }
  }

  lemma UnexplainableNeverCompletes(c: Cell)
    requires Inv(c) && Live(c.rows.session.state) && !CanFinish(c) && !AnyPinned(c.stores, c.rows.session.formats)
    requires !Explainable(c.rows.turns)
    ensures !CanComplete(c)
  {
    NobodyFlies(c);
    forall es | Possible(c, es) && AllPunctual(c, es) ensures !Run(c, es).rows.session.state.Completed? {
      if CanSpeak(c.rows.turns) {
        TooMuchToExplain(c, es);
      } else {
        NobodySpeaks(c);
        MutedRun(c, es, c.rows.turns);
      }
    }
  }

  lemma FinisherCompletes(c: Cell)
    requires Inv(c) && CanFinish(c)
    ensures CanComplete(c)
  {
    assert Possible(c, []) && Run(c, []) == c;
    var id :| id in c.requests && Holds(c, id) && Flying(c.requests[id].pc) && Open(c, c.requests[id].pc.review);
    var q := c.requests[id];
    assert c.requests == c.requests[id := q];
    assert q.pc.Render? ==> |q.pc.done| <= |c.rows.session.formats| by {
      assert RequestOk(c, id);
    }
    var d := FlyingCompletes(c, c, c, id, q);
  }

  /** In every state that runs can reach, a live session can still complete
      exactly when the lease holder can finish what it has begun, or else when
      no requested format is pinned and the record can still be explained. */
  lemma CanCompleteIff(c: Cell)
    requires Inv(c) && Live(c.rows.session.state)
    ensures CanComplete(c) <==>
            CanFinish(c) || (!AnyPinned(c.stores, c.rows.session.formats) && Explainable(c.rows.turns))
  {
    if CanFinish(c) {
      FinisherCompletes(c);
    } else if AnyPinned(c.stores, c.rows.session.formats) {
      PinnedNeverCompletes(c);
    } else if !Explainable(c.rows.turns) {
      UnexplainableNeverCompletes(c);
    } else {
      UnpinnedCompletes(c);
    }
  }

  lemma OpeningExplainable(out: TurnOutput, produced: seq<Reference>, synthesis: SynthesisReport)
    ensures var turns := [OpeningTurn(out, produced, synthesis)];
      Explainable(turns) <==> |Catalog(Versions(turns), turns)| <= CATALOG_CAP
  {
    var turns := [OpeningTurn(out, produced, synthesis)];
    assert turns[..0] == [];
    assert AllResolutions(turns) == [];
    CatalogMeaning(Versions(turns), turns);
    SetSize(DescribedIds(turns));
    assert ToDescribe(turns) == SetOf(DescribedIds(turns));
  }

  /** A new session can complete exactly when its first synthesis fits the
      catalog (the synthesis itself may have two hundred entries more). */
  lemma NewSessionCanCompleteIff(c: Cell)
    requires NewSession(c)
    ensures CanComplete(c) <==> |Catalog(Versions(c.rows.turns), c.rows.turns)| <= CATALOG_CAP
  {
    LifecycleSteps.NewSessionInv(c);
    CanCompleteIff(c);
    var out, produced, synthesis :| c.rows.turns == [OpeningTurn(out, produced, synthesis)];
    OpeningExplainable(out, produced, synthesis);
  }

  // -- the documented retry ------------------------------------------------------------------------

  /** Once its holder has died, a session with a pinned format never completes. */
  lemma DeathBlocks(c: Cell, b: Cell, m: Cell, id: RequestId, q: Request) returns (d: Cell)
    requires Inv(c) && Stands(c, b, m, id, q) && Running(q.pc) && Live(m.rows.session.state)
    requires AnyPinned(m.stores, m.rows.session.formats)
    ensures Leads(c, d) && Live(d.rows.session.state) && !CanComplete(d)
  {
    var p;
    d, p := Dies(c, b, m, id, q);
    LeadsInv(c, d);
    assert !CanFinish(d);
    PinnedNeverCompletes(d);
  }

  /** A holder about to render its first report renders it and dies. */
  lemma FirstReportBlocks(c: Cell, b: Cell, m: Cell, id: RequestId, q: Request) returns (d: Cell)
    requires Inv(c) && Stands(c, b, m, id, q) && q.pc.Render? && q.pc.done == [] && Open(m, q.pc.review)
    requires m.rows.session.state.Finalizing? && m.rows.session.formats != []
    ensures Leads(c, d) && Live(d.rows.session.state) && !CanComplete(d)
  {
    var p;
    d, p := RendersNext(c, b, m, id, q);
    assert AnyPinned(d.stores, d.rows.session.formats);
    d := DeathBlocks(c, b, d, id, p);
  }

  lemma FreshAttemptBlocks(c: Cell) returns (d: Cell)
    requires Inv(c) && Live(c.rows.session.state) && c.rows.session.formats != []
    requires !AnyPinned(c.stores, c.rows.session.formats) && Explainable(c.rows.turns)
    ensures Leads(c, d) && Live(d.rows.session.state) && !CanComplete(d)
  {
    var b, id, m, q := ReachesMark(c);
    var review := FreshReference(m.stores.saved);
    d := SavesFirst(c, b, m, id, q, review);
    UnpinnedIsOpen(m);
    d := FirstReportBlocks(c, b, d, id, q.(pc := Render(q.pc.job, review, [])));
  }

  /** A holder past its review save has its first report ahead, or pinned. */
  lemma FlyingIsPinned(c: Cell, id: RequestId)
    requires Inv(c) && id in c.requests && Holds(c, id) && Flying(c.requests[id].pc) && c.rows.session.formats != []
    ensures c.rows.session.state.Finalizing?
    ensures (c.requests[id].pc.Render? && c.requests[id].pc.done == []) || AnyPinned(c.stores, c.rows.session.formats)
  {
    assert RequestOk(c, id);
    var f := c.rows.session.formats[0];
  }

  lemma FinisherBlocks(c: Cell) returns (d: Cell)
    requires Inv(c) && CanFinish(c) && c.rows.session.formats != []
    ensures Leads(c, d) && Live(d.rows.session.state) && !CanComplete(d)
  {
    assert Possible(c, []) && Run(c, []) == c;
    var id :| id in c.requests && Holds(c, id) && Flying(c.requests[id].pc) && Open(c, c.requests[id].pc.review);
    var q := c.requests[id];
    assert c.requests == c.requests[id := q];
    FlyingIsPinned(c, id);
    if AnyPinned(c.stores, c.rows.session.formats) {
      d := DeathBlocks(c, c, c, id, q);
    } else {
      d := FirstReportBlocks(c, c, c, id, q);
    }
  }

  /** From every session that can still complete, the death of one request after
      its first report leads to a live session that no retry can ever complete. */
  lemma OneCrashBlocksForever(c: Cell)
    requires Inv(c) && Live(c.rows.session.state) && CanComplete(c) && c.rows.session.formats != []
    ensures exists d :: Leads(c, d) && Live(d.rows.session.state) && !CanComplete(d)
  {
    CanCompleteIff(c);
    var d;
    if CanFinish(c) {
      d := FinisherBlocks(c);
    } else {
      d := FreshAttemptBlocks(c);
    }
  }
}
