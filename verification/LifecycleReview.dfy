/** The lifecycle meets the final validator: what a completing session must have
    been able to explain, over whole runs. */
module LifecycleReview {
  import opened Common
  import opened Facilitator
  import opened FinalReview
  import opened OrderedDict
  import opened Records
  import opened Turns
  import opened Lifecycle
  import opened LifecycleInvariant
  import opened LifecycleSteps
  import opened LifecycleTheorems
  import Artifacts

  // -- what the turns say, and what describes it ------------------------------------------

  /** The ids with a recorded disposition, in first-seen order. */
  function SpokenIds(turns: seq<TurnRecord>): seq<IssueId> { FirstSeen(Issues(AllResolutions(turns))) }

  /** The ids that the catalog describes. */
  function DescribedIds(turns: seq<TurnRecord>): seq<IssueId> { Keys(Catalog(Versions(turns), turns)) }

  function SetOf(ids: seq<IssueId>): set<IssueId> { set k | k in ids }

  /** What a catalog that explains every recorded disposition has to hold. */
  function ToDescribe(turns: seq<TurnRecord>): set<IssueId> { SetOf(DescribedIds(turns)) + SetOf(SpokenIds(turns)) }

  /** The decision state still fits its model, so the facilitator can be called. */
  predicate CanSpeak(turns: seq<TurnRecord>) { |SpokenIds(turns)| <= RESOLUTION_CAP }

  lemma LatestIsSpoken(turns: seq<TurnRecord>)
    ensures Issues(Latest(AllResolutions(turns))) == SpokenIds(turns)
    ensures |Latest(AllResolutions(turns))| == |SpokenIds(turns)|
  {
    LatestMeaning(AllResolutions(turns));
    assert |Issues(Latest(AllResolutions(turns)))| == |Latest(AllResolutions(turns))|;
  }

  lemma {:induction false} SetSize(ids: seq<IssueId>)
    ensures |SetOf(ids)| <= |ids|
    ensures Distinct(ids) ==> |SetOf(ids)| == |ids|
  {
    if ids != [] {
      var init, last := ids[..|ids| - 1], ids[|ids| - 1];
      SetSize(init);
      assert ids == init + [last];
      assert SetOf(ids) == SetOf(init) + {last};
      if Distinct(ids) {
        assert last !in init;
      }
    }
  }

  lemma SubsetSize(a: set<IssueId>, b: set<IssueId>)
    requires a <= b
    ensures |a| <= |b|
  {
    assert b == a + (b - a);
  }

  lemma {:induction false} FirstSeenGrows(a: seq<IssueId>, b: seq<IssueId>)
    ensures FirstSeen(a) <= FirstSeen(a + b)
  {
    if b == [] {
      assert a + b == a;
    } else {
      FirstSeenGrows(a, b[..|b| - 1]);
      assert (a + b)[..|a + b| - 1] == a + b[..|b| - 1];
    }
  }

  // -- one more turn, and the stamp ------------------------------------------------------------

  lemma AppendSays(turns: seq<TurnRecord>, t: TurnRecord)
    ensures AllResolutions(turns + [t]) == AllResolutions(turns) + t.resolutions
    ensures MintedEntries(turns + [t]) == MintedEntries(turns) + DraftEntries(t.newIssues)
    ensures Versions(turns + [t]) == Versions(turns) + (if t.synthesis.Some? then [t.synthesis.value] else [])
    ensures OpenList(turns + [t]) == if t.delegation.Some? then t.delegation.value.openIssues else OpenList(turns)
  {
    assert (turns + [t])[..|turns|] == turns;
  }

  lemma SpokenGrows(turns: seq<TurnRecord>, t: TurnRecord)
    ensures SpokenIds(turns) <= SpokenIds(turns + [t])
  {
    AppendSays(turns, t);
    assert Record(AllResolutions(turns) + t.resolutions) == Record(AllResolutions(turns)) + Record(t.resolutions);
    KeysConcat(Record(AllResolutions(turns)), Record(t.resolutions));
    FirstSeenGrows(Issues(AllResolutions(turns)), Issues(t.resolutions));
  }

  lemma DescribedGrows(turns: seq<TurnRecord>, t: TurnRecord, k: IssueId)
    requires k in DescribedIds(turns)
    ensures k in DescribedIds(turns + [t])
  {
    AppendSays(turns, t);
    CatalogGrows(Versions(turns), if t.synthesis.Some? then [t.synthesis.value] else [], turns, [t], k);
  }

  /** A further turn loses no id and keeps the order of the recorded ones. */
  lemma AppendGrows(turns: seq<TurnRecord>, t: TurnRecord)
    ensures SpokenIds(turns) <= SpokenIds(turns + [t])
    ensures forall k :: k in DescribedIds(turns) ==> k in DescribedIds(turns + [t])
  {
    SpokenGrows(turns, t);
    forall k | k in DescribedIds(turns) ensures k in DescribedIds(turns + [t]) {
      DescribedGrows(turns, t, k);
    }
  }

  /** The stamp changes nothing that a turn says. */
  lemma {:induction false} StampSays(turns: seq<TurnRecord>, refs: seq<Artifacts.Reference>)
    ensures AllResolutions(StampTurn(turns, refs)) == AllResolutions(turns)
    ensures MintedEntries(StampTurn(turns, refs)) == MintedEntries(turns)
    ensures OpenList(StampTurn(turns, refs)) == OpenList(turns)
  {
    if turns != [] {
      var init, last := turns[..|turns| - 1], turns[|turns| - 1];
      if last.outcome.Finalize? {
        AppendSays(init, Restamped(last, refs));
        AppendSays(init, last);
        assert turns == init + [last];
      } else {
        StampSays(init, refs);
        AppendSays(StampTurn(init, refs), last);
        AppendSays(init, last);
        assert turns == init + [last];
      }
    }
  }

  /** But it overwrites what the finalizing turn produced: a synthesis version
      that turn brought is no longer listed, and later attempts do not see it. */
  lemma StampForgetsVersion(turns: seq<TurnRecord>, refs: seq<Artifacts.Reference>, k: nat)
    requires k < |turns| && turns[k].outcome.Finalize? && forall i :: k < i < |turns| ==> !turns[i].outcome.Finalize?
    ensures Versions(StampTurn(turns, refs)) == Versions(turns[..k]) + Versions(turns[k + 1..])
    ensures Versions(turns) == Versions(turns[..k]) + Versions([turns[k]]) + Versions(turns[k + 1..])
  {
    StampAt(turns, refs, k + 1);
    var stamped := Restamped(turns[k], refs);
    assert StampTurn(turns, refs) == turns[..k] + [stamped] + turns[k + 1..];
    assert turns == turns[..k] + [turns[k]] + turns[k + 1..];
    VersionsConcat(turns[..k] + [stamped], turns[k + 1..]);
    VersionsConcat(turns[..k], [stamped]);
    VersionsConcat(turns[..k] + [turns[k]], turns[k + 1..]);
    VersionsConcat(turns[..k], [turns[k]]);
    assert [stamped][..0] == [];
    assert Versions([stamped]) == [];
  }

  lemma {:induction false} VersionsConcat(a: seq<TurnRecord>, b: seq<TurnRecord>)
    ensures Versions(a + b) == Versions(a) + Versions(b)
  {
    if b == [] {
      assert a + b == a;
    } else {
      VersionsConcat(a, b[..|b| - 1]);
      assert (a + b)[..|a + b| - 1] == a + b[..|b| - 1];
    }
  }

  lemma {:induction false} StampListsFewer(turns: seq<TurnRecord>, refs: seq<Artifacts.Reference>, k: IssueId)
    ensures k in Keys(SynthesisEntries(Versions(StampTurn(turns, refs)))) ==>
            k in Keys(SynthesisEntries(Versions(turns)))
  {
    if turns != [] {
      var init, last := turns[..|turns| - 1], turns[|turns| - 1];
      assert turns == init + [last];
      AppendSays(init, last);
      var more := if last.synthesis.Some? then [last.synthesis.value] else [];
      if last.outcome.Finalize? {
        AppendSays(init, Restamped(last, refs));
        SynthesisEntriesGrow(Versions(init), more, k);
      } else {
        StampListsFewer(init, refs, k);
        AppendSays(StampTurn(init, refs), last);
        SynthesisConcat(Versions(init), more);
        SynthesisConcat(Versions(StampTurn(init, refs)), more);
        KeysConcat(SynthesisEntries(Versions(init)), SynthesisEntries(more));
        KeysConcat(SynthesisEntries(Versions(StampTurn(init, refs))), SynthesisEntries(more));
      }
    }
  }

  lemma {:induction false} SynthesisConcat(a: seq<SynthesisReport>, b: seq<SynthesisReport>)
    ensures SynthesisEntries(a + b) == SynthesisEntries(a) + SynthesisEntries(b)
  {
    if b == [] {
      assert a + b == a;
      assert SynthesisEntries(a) + [] == SynthesisEntries(a);
    } else {
      var init := b[..|b| - 1];
      assert a + b == a + init + [b[|b| - 1]];
      SynthesisConcat(a, init);
      OneMoreReport(a + init, b[|b| - 1]);
      OneMoreReport(init, b[|b| - 1]);
      assert b == init + [b[|b| - 1]];
    }
  }

  lemma OneMoreReport(reports: seq<SynthesisReport>, report: SynthesisReport)
    ensures SynthesisEntries(reports + [report]) == SynthesisEntries(reports) + ReportEntries(report)
  {
    assert (reports + [report])[..|reports|] == reports;
  }

  lemma StampDescribesFewer(turns: seq<TurnRecord>, refs: seq<Artifacts.Reference>)
    ensures forall k :: k in DescribedIds(StampTurn(turns, refs)) ==> k in DescribedIds(turns)
    ensures SpokenIds(StampTurn(turns, refs)) == SpokenIds(turns)
  {
    var stamped := StampTurn(turns, refs);
    StampSays(turns, refs);
    CatalogMeaning(Versions(stamped), stamped);
    CatalogMeaning(Versions(turns), turns);
    forall k | k in DescribedIds(stamped) ensures k in DescribedIds(turns) {
      StampListsFewer(turns, refs, k);
    }
  }

  // -- an accepted review --------------------------------------------------------------------------

  lemma {:induction false} VersionsListed(turns: seq<TurnRecord>)
    requires turns != [] && turns[0].synthesis.Some?
    ensures Versions(turns) != []
  {
    if |turns| > 1 {
      VersionsListed(turns[..|turns| - 1]);
    }
  }

  /** The review draws on exactly the versions that the turns list. */
  lemma AcceptsMeaning(job: Job)
    requires job.turns != [] && job.turns[0].synthesis.Some?
    ensures Accepts(job) <==> Verdict(job.turns).None?
  {
    VersionsListed(job.turns);
  }

  /** An accepted review explains the first two hundred recorded ids, within the cap. */
  lemma AcceptedExplains(turns: seq<TurnRecord>)
    requires turns != [] && Verdict(turns).None?
    ensures |DescribedIds(turns)| <= CATALOG_CAP
    ensures forall i :: 0 <= i < |SpokenIds(turns)| && i < RESOLUTION_CAP ==> SpokenIds(turns)[i] in DescribedIds(turns)
  {
    JudgeMeaning(Versions(turns), turns);
    LatestIsSpoken(turns);
    var all := Latest(AllResolutions(turns));
    forall i | 0 <= i < |SpokenIds(turns)| && i < RESOLUTION_CAP ensures SpokenIds(turns)[i] in DescribedIds(turns) {
      assert Issues(Aggregated(turns))[i] == Issues(all)[i];
      assert Referenced(turns, SpokenIds(turns)[i]);
    }
  }

  // -- requests past the review save --------------------------------------------------------------

  predicate Flying(pc: Pc) { pc.Render? || pc.Stamp? || pc.Close? }

  /** A lease holder past the review save had its review accepted. */
  ghost predicate Sound(c: Cell) {
    forall id :: id in c.requests && Holds(c, id) ==> Approved(c.requests[id].pc)
  }

  predicate Approved(pc: Pc) { Flying(pc) ==> pc.job.turns != [] && Accepts(pc.job) }

  lemma SaveAccepts(s: Stores, key: nat, job: Job, ch: Choice)
    ensures var pc := OnSave(s, key, job, ch).1; Flying(pc) ==> job.turns != [] && Accepts(job) && pc.job == job
  {
  }

  lemma ReadingGrounds(r: Rows, q: Request, ch: Choice)
    requires !IsWrite(q.pc) && !IsStore(q.pc) && Running(q.pc) && !q.pc.Acquire? && !q.pc.Unlock?
    ensures !Flying(Reading(r, q, ch))
  {
    if q.pc.Consult? {
      ConsultMeaning(q.pc.count, q.pc.turns, q.pc.message, ch);
    }
  }

  lemma WritingApproved(r: Rows, q: Request)
    requires IsWrite(q.pc) && Approved(q.pc)
    ensures Approved(Writing(r, q).1)
  {
  }

  lemma RenderApproved(s: Stores, formats: seq<Artifacts.Format>, job: Job, review: Artifacts.Reference,
                       done: seq<Artifacts.Reference>, ch: Choice)
    ensures var pc := OnRender(s, formats, job, review, done, ch).1; Flying(pc) ==> pc.job == job
  {
  }

  lemma StoringApproved(r: Rows, s: Stores, q: Request, ch: Choice)
    requires IsStore(q.pc) && Approved(q.pc)
    ensures Approved(Storing(r, s, q, ch).1)
  {
    if q.pc.SaveReview? {
      SaveAccepts(s, q.key, q.pc.job, ch);
    } else {
      RenderApproved(s, r.session.formats, q.pc.job, q.pc.review, q.pc.done, ch);
    }
  }

  lemma ActApproved(c: Cell, id: RequestId, ch: Choice)
    requires id in c.requests && Running(c.requests[id].pc) && Approved(c.requests[id].pc)
    ensures Approved(NextPc(c, id, ch))
  {
    var q := c.requests[id];
    if IsStore(q.pc) {
      StoringApproved(c.rows, c.stores, q, ch);
    } else if IsWrite(q.pc) {
      WritingApproved(c.rows, q);
    } else if !q.pc.Acquire? && !q.pc.Unlock? {
      ReadingGrounds(c.rows, q, ch);
    }
  }

  lemma SoundAt(c: Cell, e: Event, id: RequestId)
    requires Inv(c) && Sound(c) && Enabled(c, e) && id in Step(c, e).requests && Holds(Step(c, e), id)
    ensures Approved(Step(c, e).requests[id].pc)
  {
    HolderAfter(c, e, id);
    if e.Advance? && e.id == id && Holds(c, id) {
      ActApproved(c, id, e.choice);
    }
  }

  lemma SoundStep(c: Cell, e: Event)
    requires Inv(c) && Sound(c) && Enabled(c, e)
    ensures Sound(Step(c, e))
  {
    forall id | id in Step(c, e).requests && Holds(Step(c, e), id) ensures Approved(Step(c, e).requests[id].pc) {
      SoundAt(c, e, id);
    }
  }

  /** Who closes under its lease closes turns that were accepted as they were
      before its own stamp. */
  lemma CloserWasAccepted(c: Cell, id: RequestId)
    requires Inv(c) && Sound(c) && id in c.requests && Holds(c, id)
    requires (c.requests[id].pc.Stamp? || c.requests[id].pc.Close?)
    ensures var job := c.requests[id].pc.job;
      && job.turns != [] && Verdict(job.turns).None?
      && (c.requests[id].pc.Stamp? ==> c.rows.turns == job.turns)
      && (c.requests[id].pc.Close? ==>
          c.rows.turns == StampTurn(job.turns, [c.requests[id].pc.review] + c.requests[id].pc.reports))
  {
    assert RequestOk(c, id);
    var job := c.requests[id].pc.job;
    assert c.rows.turns[0].synthesis.Some?;
    if c.requests[id].pc.Close? {
      assert SameTurn(job.turns[0], c.rows.turns[0]);
      OpeningUnstamped(job.turns, [c.requests[id].pc.review] + c.requests[id].pc.reports);
    }
    AcceptsMeaning(job);
  }

  lemma {:induction false} OpeningUnstamped(turns: seq<TurnRecord>, refs: seq<Artifacts.Reference>)
    requires turns != []
    ensures StampTurn(turns, refs)[0].synthesis.Some? ==> turns[0].synthesis.Some?
  {
    if |turns| > 1 && !turns[|turns| - 1].outcome.Finalize? {
      OpeningUnstamped(turns[..|turns| - 1], refs);
    }
  }

  // -- too much to explain ----------------------------------------------------------------------------

  /** These recorded ids and these described ones outgrow the catalog together. */
  ghost predicate Overfull(turns: seq<TurnRecord>, spoken: seq<IssueId>, described: set<IssueId>) {
    && spoken <= SpokenIds(turns) && |spoken| <= RESOLUTION_CAP && described <= SetOf(DescribedIds(turns))
    && |described + SetOf(spoken)| > CATALOG_CAP
  }

  lemma OverfullRefused(turns: seq<TurnRecord>, spoken: seq<IssueId>, described: set<IssueId>)
    requires turns != [] && Overfull(turns, spoken, described)
    ensures Verdict(turns).Some?
  {
    if Verdict(turns).None? {
      AcceptedExplains(turns);
      forall k | k in described + SetOf(spoken) ensures k in SetOf(DescribedIds(turns)) {
        if k in spoken {
          var i :| 0 <= i < |spoken| && spoken[i] == k;
          assert SpokenIds(turns)[i] == k;
        }
      }
      SubsetSize(described + SetOf(spoken), SetOf(DescribedIds(turns)));
      SetSize(DescribedIds(turns));
    }
  }

  lemma OverfullAppend(turns: seq<TurnRecord>, t: TurnRecord, spoken: seq<IssueId>, described: set<IssueId>)
    requires Overfull(turns, spoken, described)
    ensures Overfull(turns + [t], spoken, described)
  {
    AppendGrows(turns, t);
  }

  lemma OverfullBeforeStamp(turns: seq<TurnRecord>, refs: seq<Artifacts.Reference>, spoken: seq<IssueId>,
                            described: set<IssueId>)
    requires Overfull(StampTurn(turns, refs), spoken, described)
    ensures Overfull(turns, spoken, described)
  {
    StampDescribesFewer(turns, refs);
  }

  ghost predicate Doomed(c: Cell, spoken: seq<IssueId>, described: set<IssueId>) {
    Inv(c) && Sound(c) && Overfull(c.rows.turns, spoken, described) && !c.rows.session.state.Completed?
  }

  lemma NoCloserIsDoomed(c: Cell, id: RequestId, spoken: seq<IssueId>, described: set<IssueId>)
    requires Doomed(c, spoken, described) && id in c.requests && Holds(c, id)
    ensures !c.requests[id].pc.Stamp? && !c.requests[id].pc.Close?
  {
    var pc := c.requests[id].pc;
    if pc.Stamp? || pc.Close? {
      CloserWasAccepted(c, id);
      if pc.Close? {
        OverfullBeforeStamp(pc.job.turns, [pc.review] + pc.reports, spoken, described);
      }
      OverfullRefused(pc.job.turns, spoken, described);
    }
  }

  /** Only inserting and stamping touch the turns, and only closing completes. */
  lemma WriteTouches(r: Rows, q: Request)
    requires IsWrite(q.pc)
    ensures !q.pc.InsertTurn? && !q.pc.Stamp? ==> Writing(r, q).0.turns == r.turns
    ensures !q.pc.Close? && !r.session.state.Completed? ==> !Writing(r, q).0.session.state.Completed?
  {
  }

  lemma InsertedAppends(c: Cell, id: RequestId)
    requires Inv(c) && id in c.requests && Holds(c, id) && c.requests[id].pc.InsertTurn?
    ensures Writing(c.rows, c.requests[id]).0.turns == c.rows.turns + [c.requests[id].pc.row]
    ensures c.requests[id].pc.dialogue.None? ==> c.requests[id].pc.row == AcceptanceTurn(|c.rows.turns| + 1)
  {
    assert RequestOk(c, id);
    InsertAppends(c.rows.turns, c.requests[id].pc.row);
  }

  lemma DoomedStep(c: Cell, e: Event, spoken: seq<IssueId>, described: set<IssueId>)
    requires Doomed(c, spoken, described) && Enabled(c, e) && Punctual(c, e)
    ensures Doomed(Step(c, e), spoken, described)
  {
    StepGood(c, e);
    SoundStep(c, e);
    if e.Advance? && IsWrite(c.requests[e.id].pc) {
      var q := c.requests[e.id];
      ActWrites(c, e.id, e.choice);
      NoCloserIsDoomed(c, e.id, spoken, described);
      WriteTouches(c.rows, q);
      if q.pc.InsertTurn? {
        InsertedAppends(c, e.id);
        OverfullAppend(c.rows.turns, q.pc.row, spoken, described);
      }
    } else {
      OtherStepsTouchNothing(c, e);
    }
  }

  lemma {:induction false} DoomedRun(c: Cell, es: seq<Event>, spoken: seq<IssueId>, described: set<IssueId>)
    requires Doomed(c, spoken, described) && Possible(c, es) && AllPunctual(c, es)
    ensures !Run(c, es).rows.session.state.Completed?
    decreases |es|
  {
    if es != [] {
      DoomedStep(c, es[0], spoken, described);
      DoomedRun(Step(c, es[0]), es[1..], spoken, described);
    }
  }

  /** When the described ids and the recorded ones outgrow the catalog, the
      session never completes: ids are never forgotten, however it goes on. */
  lemma TooMuchToExplain(c: Cell, es: seq<Event>)
    requires Inv(c) && Sound(c) && !c.rows.session.state.Completed? && CanSpeak(c.rows.turns)
    requires |ToDescribe(c.rows.turns)| > CATALOG_CAP && Possible(c, es) && AllPunctual(c, es)
    ensures !Run(c, es).rows.session.state.Completed?
  {
    DoomedRun(c, es, SpokenIds(c.rows.turns), SetOf(DescribedIds(c.rows.turns)));
  }

  // -- nothing more to say ------------------------------------------------------------------------------

  /** Nothing but acceptances since. */
  predicate AcceptedSince(base: seq<TurnRecord>, turns: seq<TurnRecord>) {
    base <= turns && forall i :: |base| <= i < |turns| ==> turns[i] == AcceptanceTurn(i + 1)
  }

  lemma {:induction false} AcceptancesAreSilent(base: seq<TurnRecord>, turns: seq<TurnRecord>)
    requires AcceptedSince(base, turns)
    ensures AllResolutions(turns) == AllResolutions(base) && MintedEntries(turns) == MintedEntries(base)
    ensures Versions(turns) == Versions(base) && OpenList(turns) == OpenList(base)
    decreases |turns|
  {
    if |turns| > |base| {
      var n := |turns| - 1;
      AcceptancesAreSilent(base, turns[..n]);
      AppendSays(turns[..n], turns[n]);
      assert turns == turns[..n] + [turns[n]];
      assert AllResolutions(base) + [] == AllResolutions(base)
          && MintedEntries(base) + DraftEntries([]) == MintedEntries(base);
      assert Versions(base) + [] == Versions(base);
    } else {
      assert turns == base;
    }
  }

  /** Accepting again changes no verdict; and a turn that finalized without an
      acceptance left nothing open. */
  lemma VerdictOfAcceptances(base: seq<TurnRecord>, turns: seq<TurnRecord>)
    requires base != [] && Gated(base) && AcceptedSince(base, turns) && Last(turns).outcome.Finalize?
    ensures Verdict(turns).None? <==> Verdict(base + [AcceptanceTurn(|base| + 1)]).None?
  {
    var once := base + [AcceptanceTurn(|base| + 1)];
    AcceptancesAreSilent(base, turns);
    AcceptancesAreSilent(base, once);
    assert RecordOk(Last(turns));
    if !Last(turns).poAccepted {
      assert turns == base;
      assert OpenList(base) == Last(base).delegation.value.openIssues == [];
    }
    var a, b := BuildReview(Versions(turns), turns), BuildReview(Versions(once), once);
    assert a.issues == b.issues && a.resolutions == b.resolutions && a.remaining == b.remaining;
  }

  predicate Loud(pc: Pc) { Flying(pc) || (pc.InsertTurn? && pc.dialogue.Some?) }

  /** The lease holder brings no facilitator turn and is not past its save. */
  ghost predicate HolderIsQuiet(c: Cell) {
    forall id :: id in c.requests && Holds(c, id) ==> !Loud(c.requests[id].pc)
  }

  ghost predicate Muted(c: Cell, base: seq<TurnRecord>) {
    && Inv(c) && HolderIsQuiet(c) && base != [] && Gated(base) && AcceptedSince(base, c.rows.turns)
    && !CanSpeak(base) && Verdict(base + [AcceptanceTurn(|base| + 1)]).Some? && !c.rows.session.state.Completed?
  }

  /** The facilitator call fails: the decisions do not fit its request. */
  lemma MutedConsult(base: seq<TurnRecord>, turns: seq<TurnRecord>, count: nat, message: string, ch: Choice)
    requires base != [] && AcceptedSince(base, turns) && !CanSpeak(base)
    ensures OnConsult(count, turns, message, ch).Unlock?
  {
    AcceptancesAreSilent(base, turns);
    LatestIsSpoken(turns);
  }

  /** And the review is refused. */
  lemma MutedSave(base: seq<TurnRecord>, s: Stores, key: nat, job: Job, ch: Choice)
    requires base != [] && Gated(base) && AcceptedSince(base, job.turns)
    requires Verdict(base + [AcceptanceTurn(|base| + 1)]).Some?
    requires job.turns != [] && Opened(job.turns) && Last(job.turns).outcome.Finalize?
    ensures !Flying(OnSave(s, key, job, ch).1) && !OnSave(s, key, job, ch).1.InsertTurn?
  {
    SaveAccepts(s, key, job, ch);
    AcceptsMeaning(job);
    VerdictOfAcceptances(base, job.turns);
    SaveMeaning(s, key, job, ch);
  }

  /** Nothing else brings a facilitator turn or a saved review. */
  lemma OthersStayQuiet(c: Cell, id: RequestId, ch: Choice)
    requires id in c.requests && Running(c.requests[id].pc)
    requires var pc := c.requests[id].pc; !Loud(pc) && !pc.Consult? && !pc.SaveReview?
    ensures !Loud(NextPc(c, id, ch))
  {
    var q := c.requests[id];
    if IsWrite(q.pc) {
      QuietWrite(c.rows, q);
      ActWrites(c, id, ch);
    } else if !q.pc.Acquire? && !q.pc.Unlock? {
      QuietRead(c.rows, q, ch);
    }
  }

  lemma QuietWrite(r: Rows, q: Request)
    requires IsWrite(q.pc) && !Loud(q.pc)
    ensures !Loud(Writing(r, q).1)
  {
  }

  lemma QuietRead(r: Rows, q: Request, ch: Choice)
    requires !IsWrite(q.pc) && !IsStore(q.pc) && Running(q.pc) && !q.pc.Acquire? && !q.pc.Unlock? && !q.pc.Consult?
    ensures !Loud(Reading(r, q, ch))
  {
  }

  lemma ListedTurns(c: Cell, id: RequestId)
    requires Inv(c) && id in c.requests && Holds(c, id)
    ensures c.requests[id].pc.Consult? ==> c.requests[id].pc.turns == c.rows.turns
    ensures c.requests[id].pc.SaveReview? ==>
              c.requests[id].pc.job.turns == c.rows.turns && c.rows.turns != [] && Opened(c.rows.turns)
              && Last(c.rows.turns).outcome.Finalize?
  {
    assert RequestOk(c, id);
  }

  lemma ConsultStaysQuiet(c: Cell, id: RequestId, ch: Choice, base: seq<TurnRecord>)
    requires id in c.requests && c.requests[id].pc.Consult?
    requires base != [] && AcceptedSince(base, c.requests[id].pc.turns) && !CanSpeak(base)
    ensures !Loud(NextPc(c, id, ch))
  {
    ActReads(c, id, ch);
    MutedConsult(base, c.requests[id].pc.turns, c.requests[id].pc.count, c.requests[id].pc.message, ch);
  }

  lemma SaveStaysQuiet(c: Cell, id: RequestId, ch: Choice, base: seq<TurnRecord>)
    requires id in c.requests && c.requests[id].pc.SaveReview?
    requires base != [] && Gated(base) && Verdict(base + [AcceptanceTurn(|base| + 1)]).Some?
    requires var turns := c.requests[id].pc.job.turns;
      AcceptedSince(base, turns) && turns != [] && Opened(turns) && Last(turns).outcome.Finalize?
    ensures !Loud(NextPc(c, id, ch))
  {
    ActCalls(c, id, ch);
    MutedSave(base, c.stores, c.requests[id].key, c.requests[id].pc.job, ch);
  }

  lemma MutedStaysQuiet(c: Cell, id: RequestId, ch: Choice, base: seq<TurnRecord>)
    requires Muted(c, base) && id in c.requests && Holds(c, id) && Running(c.requests[id].pc)
    ensures !Loud(NextPc(c, id, ch))
  {
    ListedTurns(c, id);
    if c.requests[id].pc.Consult? {
      ConsultStaysQuiet(c, id, ch, base);
    } else if c.requests[id].pc.SaveReview? {
      SaveStaysQuiet(c, id, ch, base);
    } else {
      OthersStayQuiet(c, id, ch);
    }
  }

  lemma QuietAt(c: Cell, e: Event, id: RequestId)
    requires Inv(c) && HolderIsQuiet(c) && Enabled(c, e) && id in Step(c, e).requests && Holds(Step(c, e), id)
    requires e.Advance? && Holds(c, e.id) ==> !Loud(NextPc(c, e.id, e.choice))
    ensures !Loud(Step(c, e).requests[id].pc)
  {
    HolderAfter(c, e, id);
  }

  lemma QuietStep(c: Cell, e: Event, base: seq<TurnRecord>)
    requires Muted(c, base) && Enabled(c, e)
    ensures HolderIsQuiet(Step(c, e))
  {
    if e.Advance? && Holds(c, e.id) {
      MutedStaysQuiet(c, e.id, e.choice, base);
    }
    forall id | id in Step(c, e).requests && Holds(Step(c, e), id) ensures !Loud(Step(c, e).requests[id].pc) {
      QuietAt(c, e, id);
    }
  }

  lemma MutedWrite(c: Cell, id: RequestId, base: seq<TurnRecord>)
    requires Muted(c, base) && id in c.requests && IsWrite(c.requests[id].pc) && Holds(c, id)
    ensures var r := Writing(c.rows, c.requests[id]).0; AcceptedSince(base, r.turns) && !r.session.state.Completed?
  {
    WriteTouches(c.rows, c.requests[id]);
    if c.requests[id].pc.InsertTurn? {
      InsertedAppends(c, id);
    }
  }

  lemma MutedStep(c: Cell, e: Event, base: seq<TurnRecord>)
    requires Muted(c, base) && Enabled(c, e) && Punctual(c, e)
    ensures Muted(Step(c, e), base)
  {
    StepGood(c, e);
    QuietStep(c, e, base);
    if e.Advance? && IsWrite(c.requests[e.id].pc) {
      MutedWrite(c, e.id, base);
      ActWrites(c, e.id, e.choice);
    } else {
      OtherStepsTouchNothing(c, e);
    }
  }

  lemma {:induction false} MutedRun(c: Cell, es: seq<Event>, base: seq<TurnRecord>)
    requires Muted(c, base) && Possible(c, es) && AllPunctual(c, es)
    ensures !Run(c, es).rows.session.state.Completed?
    decreases |es|
  {
    if es != [] {
      MutedStep(c, es[0], base);
      MutedRun(Step(c, es[0]), es[1..], base);
    }
  }

  // -- completion implies acceptance ------------------------------------------------------------------------

  /** A completed session's recorded turns were accepted by the final validator,
      as they were before the stamp. */
  ghost predicate Justified(r: Rows) {
    r.session.state.Completed? ==> exists turns :: Justifies(turns, r.turns)
  }

  /** Stamping apart, these turns were accepted and are recorded. */
  ghost predicate Justifies(turns: seq<TurnRecord>, recorded: seq<TurnRecord>) {
    turns != [] && SameTurns(turns, recorded) && Verdict(turns).None?
  }

  lemma JustifiesLonger(turns: seq<TurnRecord>, a: seq<TurnRecord>, b: seq<TurnRecord>)
    requires Justifies(turns, a) && SameTurns(a, b)
    ensures Justifies(turns, b)
  {
  }

  lemma JustifiedKept(r: Rows, t: Rows)
    requires Justified(r) && r.session.state.Completed? && SameTurns(r.turns, t.turns)
    ensures Justified(t)
  {
    var turns :| Justifies(turns, r.turns);
    JustifiesLonger(turns, r.turns, t.turns);
  }

  lemma CloserJustifies(c: Cell, id: RequestId)
    requires Inv(c) && Sound(c) && id in c.requests && Holds(c, id) && c.requests[id].pc.Close?
    ensures exists turns :: Justifies(turns, c.rows.turns)
  {
    CloserWasAccepted(c, id);
    assert Justifies(c.requests[id].pc.job.turns, c.rows.turns);
  }

  lemma JustifiedStep(c: Cell, e: Event)
    requires Inv(c) && Sound(c) && Justified(c.rows) && Enabled(c, e) && Punctual(c, e)
    ensures Justified(Step(c, e).rows)
  {
    if c.rows.session.state.Completed? {
      assert SameTurns(c.rows.turns, Step(c, e).rows.turns) by {
        StepGood(c, e);
      }
      JustifiedKept(c.rows, Step(c, e).rows);
    } else if e.Advance? && IsWrite(c.requests[e.id].pc) {
      ActWrites(c, e.id, e.choice);
      WriteTouches(c.rows, c.requests[e.id]);
      if c.requests[e.id].pc.Close? {
        CloserJustifies(c, e.id);
      }
    } else {
      OtherStepsTouchNothing(c, e);
    }
  }

  lemma {:induction false} JustifiedRun(c: Cell, es: seq<Event>)
    requires Inv(c) && Sound(c) && Justified(c.rows) && Possible(c, es) && AllPunctual(c, es)
    ensures Justified(Run(c, es).rows)
    decreases |es|
  {
    if es != [] {
      JustifiedStep(c, es[0]);
      StepGood(c, es[0]);
      SoundStep(c, es[0]);
      JustifiedRun(Step(c, es[0]), es[1..]);
    }
  }

  /** In every run, a session completes only with turns that the final validator
      accepts: no open issue is settled, and the catalog explains every id. */
  lemma CompletedWasAccepted(c: Cell, es: seq<Event>)
    requires NewSession(c) && Possible(c, es) && AllPunctual(c, es) && Run(c, es).rows.session.state.Completed?
    ensures exists turns :: Justifies(turns, Run(c, es).rows.turns)
  {
    NewSessionInv(c);
    JustifiedRun(c, es);
  }
}
