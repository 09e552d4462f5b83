/** What the final review says, word for word: which version of a synthesis, or
    which turn's draft, an issue's entry is taken from, and which decisions
    (finalization.py, shared/review_schemas finalized.py). */
module CatalogTexts {
  import opened Common
  import opened OrderedDict
  import opened Facilitator
  import opened Records
  import opened Turns
  import opened TurnRules
  import opened FinalReview

  lemma {:induction false} LastOfAt<V>(xs: seq<Entry<V>>, i: nat)
    requires i < |xs| && forall j :: i < j < |xs| ==> xs[j].key != xs[i].key
    ensures LastOf(xs, xs[i].key) == Some(xs[i].value)
  {
    if i < |xs| - 1 {
      LastOfAt(xs[..|xs| - 1], i);
    }
  }

  lemma {:induction false} GetFirst<V>(xs: seq<Entry<V>>, i: nat)
    requires i < |xs| && forall j :: 0 <= j < i ==> xs[j].key != xs[i].key
    ensures Get(xs, xs[i].key) == Some(xs[i].value)
  {
    if i > 0 {
      GetFirst(xs[1..], i - 1);
    }
  }

  lemma {:induction false} GetConcat<V>(a: seq<Entry<V>>, b: seq<Entry<V>>, k: string)
    ensures Get(a + b, k) == if k in Keys(a) then Get(a, k) else Get(b, k)
  {
    if a == [] {
      assert a + b == b;
    } else {
      assert (a + b)[1..] == a[1..] + b;
      assert Keys(a) == [a[0].key] + Keys(a[1..]);
      GetConcat(a[1..], b, k);
    }
  }

  /** A key that the dictionary does not have gets the first value offered. */
  lemma {:induction false} DefaultIsFirst<V>(d: Dict<V>, xs: seq<Entry<V>>, k: string)
    requires k !in Keys(d)
    ensures Get(DefaultAll(d, xs), k) == Get(xs, k)
  {
    if xs != [] {
      var init, e := xs[..|xs| - 1], xs[|xs| - 1];
      var before := DefaultAll(d, init);
      DefaultIsFirst(d, init, k);
      assert xs == init + [e];
      GetAppend(init, e, k);
      if e.key !in Keys(before) {
        GetAppend(before, e, k);
      }
    }
  }

  // -- an issue of the synthesis -------------------------------------------------------------

  /** Conflict i is the last one with this id. */
  predicate LastConflict(r: SynthesisReport, k: IssueId, i: nat) {
    && i < |r.conflicts| && r.conflicts[i].id == k
    && forall j :: i < j < |r.conflicts| ==> r.conflicts[j].id != k
  }

  /** Finding i is, and no conflict has it. */
  predicate LastFinding(r: SynthesisReport, k: IssueId, i: nat) {
    && i < |r.findings| && r.findings[i].id == k && (forall j :: i < j < |r.findings| ==> r.findings[j].id != k)
    && forall j :: 0 <= j < |r.conflicts| ==> r.conflicts[j].id != k
  }

  lemma ConflictTells(r: SynthesisReport, k: IssueId, i: nat)
    requires LastConflict(r, k, i)
    ensures LastOf(ReportEntries(r), k)
         == Some(IssueEntry(k, "Conflict " + k, r.conflicts[i].description, None, FromSynthesis))
  {
    LastOfAt(ReportEntries(r), |r.findings| + i);
  }

  lemma FindingTells(r: SynthesisReport, k: IssueId, i: nat)
    requires LastFinding(r, k, i)
    ensures LastOf(ReportEntries(r), k)
         == Some(IssueEntry(k, r.findings[i].title, r.findings[i].description, Some(r.findings[i].severity),
                            FromSynthesis))
  {
    LastOfAt(ReportEntries(r), i);
  }

  /** Version v is the last one that has the id. */
  ghost predicate LastVersion(reports: seq<SynthesisReport>, k: IssueId, v: nat) {
    && v < |reports| && InSynthesis(reports[v], k)
    && forall u :: v < u < |reports| ==> !InSynthesis(reports[u], k)
  }

  lemma OneMoreVersion(reports: seq<SynthesisReport>, r: SynthesisReport, k: IssueId)
    ensures LastOf(SynthesisEntries(reports + [r]), k)
         == if InSynthesis(r, k) then LastOf(ReportEntries(r), k) else LastOf(SynthesisEntries(reports), k)
  {
    assert (reports + [r])[..|reports|] == reports;
    LastOfConcat(SynthesisEntries(reports), ReportEntries(r), k);
    SynthesisKeys(r, k);
  }

  lemma {:induction false} VersionTells(reports: seq<SynthesisReport>, k: IssueId, v: nat)
    requires LastVersion(reports, k, v)
    ensures LastOf(SynthesisEntries(reports), k) == LastOf(ReportEntries(reports[v]), k)
  {
    var init, last := reports[..|reports| - 1], reports[|reports| - 1];
    assert reports == init + [last];
    OneMoreVersion(init, last, k);
    if v < |init| {
      assert LastVersion(init, k, v);
      VersionTells(init, k, v);
    }
  }

  /** An issue that some synthesis version has is told in the words of the last
      such version: its last conflict of that id, or else its last finding, with
      its severity. */
  lemma SynthesisIssue(reports: seq<SynthesisReport>, turns: seq<TurnRecord>, k: IssueId, v: nat, i: nat)
    requires LastVersion(reports, k, v)
    ensures LastConflict(reports[v], k, i) ==>
              Get(Catalog(reports, turns), k)
              == Some(IssueEntry(k, "Conflict " + k, reports[v].conflicts[i].description, None, FromSynthesis))
    ensures LastFinding(reports[v], k, i) ==>
              Get(Catalog(reports, turns), k)
              == Some(IssueEntry(k, reports[v].findings[i].title, reports[v].findings[i].description,
                                 Some(reports[v].findings[i].severity), FromSynthesis))
  {
    CatalogMeaning(reports, turns);
    SynthesisDescribes(reports, k);
    VersionTells(reports, k, v);
    if LastConflict(reports[v], k, i) {
      ConflictTells(reports[v], k, i);
    }
    if LastFinding(reports[v], k, i) {
      FindingTells(reports[v], k, i);
    }
  }

  // -- an issue of the facilitator ----------------------------------------------------------------

  /** Draft j of turn i is the first one that any turn stores for the id. */
  ghost predicate FirstDraft(turns: seq<TurnRecord>, k: IssueId, i: nat, j: nat) {
    && i < |turns| && j < |turns[i].newIssues| && turns[i].newIssues[j].issue == k
    && (forall l :: 0 <= l < j ==> turns[i].newIssues[l].issue != k)
    && forall h :: 0 <= h < i ==> k !in Described(turns[h].newIssues)
  }

  lemma OneMoreTurnMints(turns: seq<TurnRecord>, t: TurnRecord, k: IssueId)
    ensures Get(MintedEntries(turns + [t]), k)
         == if k in Keys(MintedEntries(turns)) then Get(MintedEntries(turns), k) else Get(DraftEntries(t.newIssues), k)
  {
    assert (turns + [t])[..|turns|] == turns;
    GetConcat(MintedEntries(turns), DraftEntries(t.newIssues), k);
  }

  lemma OwnDraftTells(drafts: seq<IssueDraft>, j: nat)
    requires j < |drafts| && forall l :: 0 <= l < j ==> drafts[l].issue != drafts[j].issue
    ensures var d := drafts[j];
      Get(DraftEntries(drafts), d.issue) == Some(IssueEntry(d.issue, d.title, d.description, None, FromFacilitator))
  {
    GetFirst(DraftEntries(drafts), j);
  }

  lemma {:induction false} DraftTells(turns: seq<TurnRecord>, k: IssueId, i: nat, j: nat)
    requires FirstDraft(turns, k, i, j)
    ensures var d := turns[i].newIssues[j];
      Get(MintedEntries(turns), k) == Some(IssueEntry(k, d.title, d.description, None, FromFacilitator))
  {
    var init, last := turns[..|turns| - 1], turns[|turns| - 1];
    assert turns == init + [last];
    OneMoreTurnMints(init, last, k);
    DraftsDescribe(init, k);
    if i < |init| {
      assert FirstDraft(init, k, i, j);
      DraftTells(init, k, i, j);
    } else {
      OwnDraftTells(last.newIssues, j);
    }
  }

  /** An issue that no synthesis version has is told in the words of its first draft. */
  lemma MintedIssue(reports: seq<SynthesisReport>, turns: seq<TurnRecord>, k: IssueId, i: nat, j: nat)
    requires FirstDraft(turns, k, i, j) && forall v :: 0 <= v < |reports| ==> !InSynthesis(reports[v], k)
    ensures var d := turns[i].newIssues[j];
      Get(Catalog(reports, turns), k) == Some(IssueEntry(k, d.title, d.description, None, FromFacilitator))
  {
    SynthesisDescribes(reports, k);
    PutAllKeys(SynthesisEntries(reports));
    DefaultIsFirst(PutAll([], SynthesisEntries(reports)), MintedEntries(turns), k);
    DraftTells(turns, k, i, j);
  }

  // -- the rest of the review --------------------------------------------------------------------------

  /** Turn i is the last one with a delegation. */
  ghost predicate LastDelegation(turns: seq<TurnRecord>, i: nat) {
    && i < |turns| && turns[i].delegation.Some?
    && forall j :: i < j < |turns| ==> turns[j].delegation.None?
  }

  lemma {:induction false} OpenListIs(turns: seq<TurnRecord>, i: nat)
    requires LastDelegation(turns, i)
    ensures OpenList(turns) == turns[i].delegation.value.openIssues
  {
    if i < |turns| - 1 {
      OpenListIs(turns[..|turns| - 1], i);
    }
  }

  /** The review names the last turn, retains the open issues of the last
      delegation exactly when that turn accepts, and carries the first two hundred
      of the decisions, each the last word on its issue. */
  lemma ReviewTells(reports: seq<SynthesisReport>, turns: seq<TurnRecord>, i: nat)
    requires turns != [] && LastDelegation(turns, i)
    ensures var r, last := BuildReview(reports, turns), turns[|turns| - 1];
      && r.finalTurn == last.number && r.poAccepted == last.poAccepted
      && r.remaining == (if last.poAccepted then turns[i].delegation.value.openIssues else [])
      && |r.resolutions| <= 200 && r.resolutions <= Latest(AllResolutions(turns))
      && (|r.resolutions| < 200 ==> r.resolutions == Latest(AllResolutions(turns)))
      && (forall n :: 0 <= n < |r.resolutions| ==>
            Recorded(AllResolutions(turns), r.resolutions[n].issue) == Some(r.resolutions[n]))
      && r.issues == Values(Catalog(reports, turns))
  {
    OpenListIs(turns, i);
    LatestMeaning(AllResolutions(turns));
  }
}
