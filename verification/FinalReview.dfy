/** The finalized review: issue catalog, validator, and when the validator can
    reject what the dialogue produced (finalization.py, facilitator.py). */
module FinalReview {
  import opened Common
  import opened OrderedDict
  import opened Facilitator
  import opened Records
  import opened Turns
  import opened TurnRules
  import opened Dialogue

  datatype Source = FromSynthesis | FromFacilitator
  datatype IssueEntry = IssueEntry(issue: IssueId, title: string, description: string, severity: Option<Severity>,
      source: Source)

  function FindingEntry(f: Finding): Entry<IssueEntry> {
    Entry(f.id, IssueEntry(f.id, f.title, f.description, Some(f.severity), FromSynthesis))
  }

  function ConflictEntry(c: Conflict): Entry<IssueEntry> {
    Entry(c.id, IssueEntry(c.id, "Conflict " + c.id, c.description, None, FromSynthesis))
  }

  function DraftEntry(d: IssueDraft): Entry<IssueEntry> {
    Entry(d.issue, IssueEntry(d.issue, d.title, d.description, None, FromFacilitator))
  }

  function FindingEntries(fs: seq<Finding>): (r: seq<Entry<IssueEntry>>)
    ensures |r| == |fs|
  {
    seq(|fs|, i requires 0 <= i < |fs| => FindingEntry(fs[i]))
  }

  function ConflictEntries(cs: seq<Conflict>): (r: seq<Entry<IssueEntry>>)
    ensures |r| == |cs|
  {
    seq(|cs|, i requires 0 <= i < |cs| => ConflictEntry(cs[i]))
  }

  function ReportEntries(r: SynthesisReport): seq<Entry<IssueEntry>> {
    FindingEntries(r.findings) + ConflictEntries(r.conflicts)
  }

  /** Everything the synthesis versions describe, oldest first. */
  function SynthesisEntries(reports: seq<SynthesisReport>): seq<Entry<IssueEntry>> {
    if reports == [] then [] else SynthesisEntries(reports[..|reports| - 1]) + ReportEntries(reports[|reports| - 1])
  }

  function DraftEntries(drafts: seq<IssueDraft>): seq<Entry<IssueEntry>> {
    seq(|drafts|, i requires 0 <= i < |drafts| => DraftEntry(drafts[i]))
  }

  function MintedEntries(turns: seq<TurnRecord>): seq<Entry<IssueEntry>> {
    if turns == [] then [] else MintedEntries(turns[..|turns| - 1]) + DraftEntries(turns[|turns| - 1].newIssues)
  }

  function Catalog(reports: seq<SynthesisReport>, turns: seq<TurnRecord>): Dict<IssueEntry> {
    DefaultAll(PutAll([], SynthesisEntries(reports)), MintedEntries(turns))
  }

  const CATALOG_CAP := 400

  method AddReport(entries: Dict<IssueEntry>, report: SynthesisReport) returns (r: Dict<IssueEntry>)
    ensures r == PutAll(entries, ReportEntries(report))
  {
    r := entries;
    ghost var fs, cs := FindingEntries(report.findings), ConflictEntries(report.conflicts);
    for i := 0 to |report.findings|
      invariant r == PutAll(entries, fs[..i])
    {
      assert fs[..i + 1][..i] == fs[..i];
      r := Put(r, report.findings[i].id, FindingEntry(report.findings[i]).value);
    }
    assert fs[..|fs|] == fs;
    ghost var base := r;
    for i := 0 to |report.conflicts|
      invariant r == PutAll(base, cs[..i])
    {
      assert cs[..i + 1][..i] == cs[..i];
      r := Put(r, report.conflicts[i].id, ConflictEntry(report.conflicts[i]).value);
    }
    assert cs[..|cs|] == cs;
    PutAllConcat(entries, fs, cs);
  }

  method AddDrafts(entries: Dict<IssueEntry>, drafts: seq<IssueDraft>) returns (r: Dict<IssueEntry>)
    ensures r == DefaultAll(entries, DraftEntries(drafts))
  {
    var minted := DraftEntries(drafts);
    r := entries;
    for i := 0 to |drafts|
      invariant r == DefaultAll(entries, minted[..i])
    {
      var e := DraftEntry(drafts[i]);
      assert minted[..i + 1][..i] == minted[..i] && minted[i] == e;
      r := SetDefault(r, e.key, e.value);
    }
    assert minted[..|drafts|] == minted;
  }

  method IssueCatalog(reports: seq<SynthesisReport>, turns: seq<TurnRecord>) returns (r: Option<seq<IssueEntry>>)
    ensures r.Some? <==> |Catalog(reports, turns)| <= 400
    ensures r.Some? ==> r.value == Values(Catalog(reports, turns))
  {
    var entries: Dict<IssueEntry> := [];
    for v := 0 to |reports|
      invariant entries == PutAll([], SynthesisEntries(reports[..v]))
    {
      assert reports[..v + 1][..v] == reports[..v];
      PutAllConcat([], SynthesisEntries(reports[..v]), ReportEntries(reports[v]));
      entries := AddReport(entries, reports[v]);
    }
    assert reports[..|reports|] == reports;
    ghost var base := entries;
    for t := 0 to |turns|
      invariant entries == DefaultAll(base, MintedEntries(turns[..t]))
    {
      assert turns[..t + 1][..t] == turns[..t];
      DefaultAllConcat(base, MintedEntries(turns[..t]), DraftEntries(turns[t].newIssues));
      entries := AddDrafts(entries, turns[t].newIssues);
    }
    assert turns[..|turns|] == turns;
    r := if |entries| > CATALOG_CAP then None else Some(Values(entries));
  }

  // -- the catalog -------------------------------------------------------------

  /** Exactly the described ids, each once; a synthesis id carries the text of
      the last version that has it, and no minted draft overrides it. */
  lemma CatalogMeaning(reports: seq<SynthesisReport>, turns: seq<TurnRecord>)
    ensures WellFormed(Catalog(reports, turns))
    ensures forall k :: k in Keys(Catalog(reports, turns)) <==>
              k in Keys(SynthesisEntries(reports)) || k in Keys(MintedEntries(turns))
    ensures forall k :: k in Keys(SynthesisEntries(reports)) ==>
              Get(Catalog(reports, turns), k) == LastOf(SynthesisEntries(reports), k)
    ensures FirstSeen(Keys(SynthesisEntries(reports))) <= Keys(Catalog(reports, turns))
  {
    var syn, minted := SynthesisEntries(reports), MintedEntries(turns);
    PutAllKeys(syn);
    DefaultAllGet(PutAll([], syn), minted, "");
    forall k
      ensures k in Keys(Catalog(reports, turns)) <==> k in Keys(syn) || k in Keys(minted)
      ensures k in Keys(syn) ==> Get(Catalog(reports, turns), k) == LastOf(syn, k)
    {
      DefaultAllGet(PutAll([], syn), minted, k);
      PutAllGet(syn, k);
    }
  }

  /** More versions and more turns never lose an id. */
  lemma {:induction false} CatalogGrows(
    reports: seq<SynthesisReport>, more: seq<SynthesisReport>, turns: seq<TurnRecord>, later: seq<TurnRecord>,
        k: IssueId)
    requires k in Keys(Catalog(reports, turns))
    ensures k in Keys(Catalog(reports + more, turns + later))
  {
    CatalogMeaning(reports, turns);
    CatalogMeaning(reports + more, turns + later);
    SynthesisEntriesGrow(reports, more, k);
    MintedEntriesGrow(turns, later, k);
  }

  lemma {:induction false} SynthesisEntriesGrow(reports: seq<SynthesisReport>, more: seq<SynthesisReport>, k: IssueId)
    ensures k in Keys(SynthesisEntries(reports)) ==> k in Keys(SynthesisEntries(reports + more))
  {
    if more == [] {
      assert reports + more == reports;
    } else {
      var init := more[..|more| - 1];
      SynthesisEntriesGrow(reports, init, k);
      assert (reports + more)[..|reports + more| - 1] == reports + init;
      KeysConcat(SynthesisEntries(reports + init), ReportEntries(more[|more| - 1]));
    }
  }

  lemma {:induction false} MintedEntriesGrow(turns: seq<TurnRecord>, later: seq<TurnRecord>, k: IssueId)
    ensures k in Keys(MintedEntries(turns)) ==> k in Keys(MintedEntries(turns + later))
  {
    if later == [] {
      assert turns + later == turns;
    } else {
      var init := later[..|later| - 1];
      MintedEntriesGrow(turns, init, k);
      assert (turns + later)[..|turns + later| - 1] == turns + init;
      KeysConcat(MintedEntries(turns + init), DraftEntries(later[|later| - 1].newIssues));
    }
  }

  lemma KeysConcat<V>(a: seq<Entry<V>>, b: seq<Entry<V>>)
    ensures Keys(a + b) == Keys(a) + Keys(b)
  {
  }

  // -- building and judging the review --------------------------------------------

  datatype Review = Review(issues: seq<IssueEntry>, resolutions: seq<Resolution>, remaining: seq<IssueId>,
      poAccepted: bool, finalTurn: nat)

  datatype Defect =
    | OversizedCatalog
    | OversizedOpenList
    | RetainsOpenIssues
    | DuplicateEntries
    | Contradicts
    | Unexplained

  function Aggregated(turns: seq<TurnRecord>): seq<Resolution> {
    var all := Latest(AllResolutions(turns));
    all[..if |all| < 200 then |all| else 200]
  }

  function Remaining(turns: seq<TurnRecord>, accepted: bool): seq<IssueId> {
    if accepted then OpenList(turns) else []
  }

  function EntryIds(issues: seq<IssueEntry>): seq<IssueId> {
    seq(|issues|, i requires 0 <= i < |issues| => issues[i].issue)
  }

  function Judge(r: Review): Option<Defect> {
    if |r.issues| > CATALOG_CAP then Some(OversizedCatalog)
    else if |r.remaining| > 100 then Some(OversizedOpenList)
    else if r.remaining != [] && !r.poAccepted then Some(RetainsOpenIssues)
    else if !Distinct(EntryIds(r.issues)) then Some(DuplicateEntries)
    else if exists k :: k in r.remaining && SettledIn(r.resolutions, k) then Some(Contradicts)
    else if exists k :: k in Issues(r.resolutions) + r.remaining && k !in EntryIds(r.issues) then Some(Unexplained)
    else None
  }

  function BuildReview(reports: seq<SynthesisReport>, turns: seq<TurnRecord>): Review
    requires turns != []
  {
    var last := turns[|turns| - 1];
    Review(Values(Catalog(reports, turns)), Aggregated(turns), Remaining(turns, last.poAccepted), last.poAccepted,
        last.number)
  }

  /** What the final validator says of the turns, over the versions they produced. */
  function Verdict(turns: seq<TurnRecord>): Option<Defect>
    requires turns != []
  {
    Judge(BuildReview(Versions(turns), turns))
  }

  /** The ids a review of these turns has to explain. */
  ghost predicate Referenced(turns: seq<TurnRecord>, k: IssueId)
    requires turns != []
  {
    k in Issues(Aggregated(turns)) || k in Remaining(turns, turns[|turns| - 1].poAccepted)
  }

  predicate FiledOwn(d: Dict<IssueEntry>) {
    forall i :: 0 <= i < |d| ==> d[i].value.issue == d[i].key
  }

  lemma CatalogFiledUnderOwnId(reports: seq<SynthesisReport>, turns: seq<TurnRecord>)
    ensures EntryIds(Values(Catalog(reports, turns))) == Keys(Catalog(reports, turns))
  {
    var d := PutAll([], SynthesisEntries(reports));
    PutAllKeys(SynthesisEntries(reports));
    forall i | 0 <= i < |d| ensures d[i].value.issue == d[i].key {
      PutAllGet(SynthesisEntries(reports), d[i].key);
      GetAt(d, i);
      SynthesisFiledOwn(reports, Entry(d[i].key, d[i].value));
    }
    MintedFiledOwn(turns);
    DefaultsFiledOwn(d, MintedEntries(turns));
    var c := Catalog(reports, turns);
    forall i | 0 <= i < |c| ensures EntryIds(Values(c))[i] == Keys(c)[i] {
      assert c[i].value.issue == c[i].key;
    }
  }

  lemma {:induction false} SynthesisFiledOwn(reports: seq<SynthesisReport>, e: Entry<IssueEntry>)
    requires e in SynthesisEntries(reports)
    ensures e.value.issue == e.key
  {
    if reports != [] && e !in ReportEntries(reports[|reports| - 1]) {
      SynthesisFiledOwn(reports[..|reports| - 1], e);
    }
  }

  lemma {:induction false} MintedFiledOwn(turns: seq<TurnRecord>)
    ensures FiledOwn(MintedEntries(turns))
  {
    if turns != [] {
      MintedFiledOwn(turns[..|turns| - 1]);
    }
  }

  lemma {:induction false} DefaultsFiledOwn(d: Dict<IssueEntry>, xs: seq<Entry<IssueEntry>>)
    requires FiledOwn(d) && FiledOwn(xs)
    ensures FiledOwn(DefaultAll(d, xs))
  {
    if xs != [] {
      assert FiledOwn(xs[..|xs| - 1]);
      DefaultsFiledOwn(d, xs[..|xs| - 1]);
      assert xs[|xs| - 1].value.issue == xs[|xs| - 1].key;
    }
  }

  lemma {:induction false} TruncatedRecord(items: seq<Resolution>, n: nat, k: IssueId)
    requires n <= |Latest(items)|
    ensures k in Issues(Latest(items)[..n]) ==> Recorded(Latest(items)[..n], k) == Recorded(items, k)
  {
    LatestMeaning(items);
    var cut := Latest(items)[..n];
    if k in Issues(cut) {
      var r := Recorded(cut, k).value;
      assert Entry(k, r) in Record(cut);
      var i :| 0 <= i < n && Record(cut)[i] == Entry(k, r);
      assert Latest(items)[i] == r && r.issue == k;
    }
  }

  /** The five backstops in full; the catalog itself is always well formed. */
  lemma JudgeMeaning(reports: seq<SynthesisReport>, turns: seq<TurnRecord>)
    requires turns != []
    ensures var d, r := Judge(BuildReview(reports, turns)), BuildReview(reports, turns);
      && (d == Some(OversizedCatalog) <==> |Catalog(reports, turns)| > 400)
      && d != Some(RetainsOpenIssues) && d != Some(DuplicateEntries)
      && (d == Some(Contradicts) ==> exists k :: k in r.remaining && SettledIn(r.resolutions, k))
      && (d.None? <==>
            && |Catalog(reports, turns)| <= 400 && |r.remaining| <= 100
            && (forall k :: k in r.remaining ==> !SettledIn(r.resolutions, k))
            && (forall k :: Referenced(turns, k) ==> k in Keys(Catalog(reports, turns))))
  {
    var r := BuildReview(reports, turns);
    CatalogMeaning(reports, turns);
    CatalogFiledUnderOwnId(reports, turns);
    assert EntryIds(r.issues) == Keys(Catalog(reports, turns));
    forall k ensures Referenced(turns, k) <==> k in Issues(r.resolutions) || k in r.remaining {
    }
  }

  /** The review of a consistent record is rejected only for its size or for an
      id that nothing describes; both backstops against open issues are dead. */
  lemma ReviewVerdict(reports: seq<SynthesisReport>, turns: seq<TurnRecord>)
    requires turns != [] && Consistent(turns) && |OpenList(turns)| <= 100
    ensures var d := Judge(BuildReview(reports, turns));
      && (d == Some(OversizedCatalog) <==> |Catalog(reports, turns)| > CATALOG_CAP)
      && (d.None? <==>
          |Catalog(reports, turns)| <= CATALOG_CAP && forall k :: Referenced(turns, k) ==>
              k in Keys(Catalog(reports, turns)))
      && (d.Some? ==> d.value.OversizedCatalog? || d.value.Unexplained?)
  {
    var r := BuildReview(reports, turns);
    forall k | k in r.remaining ensures !SettledIn(r.resolutions, k) {
      if SettledIn(r.resolutions, k) {
        TruncatedRecord(AllResolutions(turns), |r.resolutions|, k);
      }
    }
    JudgeMeaning(reports, turns);
  }

  /** For every dialogue of validated turns, acceptance never trips the
      contradiction backstop. */
  lemma AcceptanceNeverContradicts(opening: TurnOutput, synthesis: SynthesisReport, acts: seq<Action>,
                                   numbers: seq<nat>)
    requires |numbers| == |acts| && ValidPlay(Opening(opening, synthesis), acts, numbers)
    ensures var end := Extend(Play(Opening(opening, synthesis), acts), Accept);
      |OpenList(end.turns)| <= 100 ==>
        Judge(BuildReview(end.versions, end.turns)) != Some(Contradicts)
  {
    var t := Play(Opening(opening, synthesis), acts);
    DialogueConsistent(opening, synthesis, acts, numbers);
    AcceptConsistent(t);
    var end := Extend(t, Accept);
    if |OpenList(end.turns)| <= 100 {
      ReviewVerdict(end.versions, end.turns);
    }
  }

  // -- catalog completeness, turn by turn -------------------------------------------

  /** Every id the record speaks of, or would retain on acceptance, is described. */
  ghost predicate Covered(t: Transcript) {
    forall k :: k in Issues(AllResolutions(t.turns)) || k in OpenList(t.turns) ==>
        k in Keys(Catalog(t.versions, t.turns))
  }

  /** The opening turn's drafts are not stored, so only synthesis ids survive. */
  lemma OpeningCoveredIff(out: TurnOutput, synthesis: SynthesisReport)
    ensures Covered(Opening(out, synthesis)) <==>
            forall k :: k in out.delegation.openIssues ==> k in Keys(ReportEntries(synthesis))
  {
    var t := Opening(out, synthesis);
    CatalogMeaning(t.versions, t.turns);
    assert t.turns[..0] == [] && t.versions[..0] == [];
    assert OpenList(t.turns) == out.delegation.openIssues;
    assert SynthesisEntries(t.versions) == ReportEntries(synthesis);
    assert AllResolutions(t.turns) == [];
    assert MintedEntries(t.turns) == [];
  }

  lemma SynthesisKeys(r: SynthesisReport, k: IssueId)
    ensures k in Keys(ReportEntries(r)) <==> InSynthesis(r, k)
  {
    var es := ReportEntries(r);
    if InSynthesis(r, k) {
      if i :| 0 <= i < |r.findings| && r.findings[i].id == k {
        assert Keys(es)[i] == k;
      } else {
        var j :| 0 <= j < |r.conflicts| && r.conflicts[j].id == k;
        assert Keys(es)[|r.findings| + j] == k;
      }
    }
    if k in Keys(es) {
      var i :| 0 <= i < |es| && Keys(es)[i] == k;
      assert if i < |r.findings| then r.findings[i].id == k else r.conflicts[i - |r.findings|].id == k;
    }
  }

  /** What one more plain turn adds to the catalog and to the ids to explain. */
  lemma PlainTurnAdds(t: Transcript, a: Action, k: IssueId)
    requires t.turns != [] && t.versions != [] && a.Single?
    ensures var end := Extend(t, a);
      && (k in Keys(Catalog(end.versions, end.turns)) <==>
          k in Keys(Catalog(t.versions, t.turns)) || k in Described(a.out.newIssues))
      && (k in Issues(AllResolutions(end.turns)) <==>
          k in Issues(AllResolutions(t.turns)) || Mentioned(a.out.resolutions, k))
      && OpenList(end.turns) == a.out.delegation.openIssues
  {
    var row := RecordOf(|t.turns| + 1, a);
    var end := Extend(t, a);
    OneMoreTurn(t, a);
    CatalogAfterDrafts(t, end, a.out.newIssues, k);
    IssuesConcat(AllResolutions(t.turns), row.resolutions, k);
    StampedMentions(a.out.resolutions, row.number, k);
  }

  lemma CatalogAfterDrafts(t: Transcript, end: Transcript, drafts: seq<IssueDraft>, k: IssueId)
    requires end.versions == t.versions && MintedEntries(end.turns) == MintedEntries(t.turns) + DraftEntries(drafts)
    ensures k in Keys(Catalog(end.versions, end.turns)) <==>
            k in Keys(Catalog(t.versions, t.turns)) || k in Described(drafts)
  {
    CatalogMeaning(t.versions, t.turns);
    CatalogMeaning(end.versions, end.turns);
    KeysConcat(MintedEntries(t.turns), DraftEntries(drafts));
    assert Keys(DraftEntries(drafts)) == Described(drafts);
  }

  /** What the turn rules call known is described already. */
  lemma KnownIsCovered(t: Transcript, n: nat, k: IssueId)
    requires t.turns != [] && t.versions != [] && Covered(t)
    requires Known(Request(n, t.versions[|t.versions| - 1], DecisionsOf(t.turns)), k)
    ensures k in Keys(Catalog(t.versions, t.turns))
  {
    var latest := t.versions[|t.versions| - 1];
    CatalogMeaning(t.versions, t.turns);
    SynthesisKeys(latest, k);
    KeysConcat(SynthesisEntries(t.versions[..|t.versions| - 1]), ReportEntries(latest));
    LatestMeaning(AllResolutions(t.turns));
    assert k in Issues(Latest(AllResolutions(t.turns))) ==> k in Issues(AllResolutions(t.turns));
  }

  /** A validated plain turn keeps the catalog complete exactly when it resolves
      no id that nothing describes: its open list is policed, its resolutions
      are not. */
  lemma SingleCoveredIff(t: Transcript, a: Action, n: nat)
    requires t.turns != [] && t.versions != [] && a.Single? && ValidAction(t, a, n) && Covered(t)
    ensures Covered(Extend(t, a)) <==>
            forall k :: Mentioned(a.out.resolutions, k) ==>
                k in Keys(Catalog(t.versions, t.turns)) || k in Described(a.out.newIssues)
  {
    var end := Extend(t, a);
    RuleGroups(a.out, Request(n, t.versions[|t.versions| - 1], DecisionsOf(t.turns)));
    forall k
      ensures k in OpenList(end.turns) ==> k in Keys(Catalog(end.versions, end.turns))
      ensures k in Issues(AllResolutions(end.turns)) && !Mentioned(a.out.resolutions, k) ==>
              k in Keys(Catalog(end.versions, end.turns))
      ensures Mentioned(a.out.resolutions, k) ==> k in Issues(AllResolutions(end.turns))
      ensures k in Keys(Catalog(end.versions, end.turns)) <==>
              k in Keys(Catalog(t.versions, t.turns)) || k in Described(a.out.newIssues)
    {
      PlainTurnAdds(t, a, k);
      if k in a.out.delegation.openIssues && k !in Described(a.out.newIssues) {
        KnownIsCovered(t, n, k);
      }
    }
  }

  /** What one delegated turn adds: only its second output is stored, with the
      renewed synthesis. */
  lemma DelegatedTurnAdds(t: Transcript, a: Action, k: IssueId)
    requires t.turns != [] && t.versions != [] && a.Delegated?
    ensures var end := Extend(t, a);
      && (k in Keys(Catalog(end.versions, end.turns)) <==> Explained(t, a, k))
      && (k in Issues(AllResolutions(end.turns)) <==>
          k in Issues(AllResolutions(t.turns)) || Mentioned(a.final.resolutions, k))
      && OpenList(end.turns) == a.final.delegation.openIssues
  {
    var row := RecordOf(|t.turns| + 1, a);
    var end := Extend(t, a);
    OneMoreTurn(t, a);
    CatalogAfter(t, end, a.renewed, a.final.newIssues, k);
    IssuesConcat(AllResolutions(t.turns), row.resolutions, k);
    StampedMentions(a.final.resolutions, row.number, k);
  }

  lemma CatalogAfter(t: Transcript, end: Transcript, renewed: SynthesisReport, drafts: seq<IssueDraft>, k: IssueId)
    requires SynthesisEntries(end.versions) == SynthesisEntries(t.versions) + ReportEntries(renewed)
    requires MintedEntries(end.turns) == MintedEntries(t.turns) + DraftEntries(drafts)
    ensures k in Keys(Catalog(end.versions, end.turns)) <==>
            k in Keys(Catalog(t.versions, t.turns)) || InSynthesis(renewed, k) || k in Described(drafts)
  {
    CatalogMeaning(t.versions, t.turns);
    CatalogMeaning(end.versions, end.turns);
    KeysConcat(MintedEntries(t.turns), DraftEntries(drafts));
    KeysConcat(SynthesisEntries(t.versions), ReportEntries(renewed));
    SynthesisKeys(renewed, k);
    assert Keys(DraftEntries(drafts)) == Described(drafts);
  }

  lemma IssuesConcat(xs: seq<Resolution>, ys: seq<Resolution>, k: IssueId)
    ensures k in Issues(xs + ys) <==> k in Issues(xs) || k in Issues(ys)
  {
    assert Record(xs + ys) == Record(xs) + Record(ys);
    KeysConcat(Record(xs), Record(ys));
  }

  lemma LatestIssues(items: seq<Resolution>, k: IssueId)
    ensures k in Issues(Latest(items)) <==> k in Issues(items)
  {
    LatestMeaning(items);
    assert k in FirstSeen(Issues(items)) <==> k in Issues(items);
  }

  /** Described after a delegated turn: before it, by its renewed synthesis, or by
      a draft of its second output. The first output's drafts are lost. */
  predicate Explained(t: Transcript, a: Action, k: IssueId)
    requires a.Delegated?
  {
    k in Keys(Catalog(t.versions, t.turns)) || InSynthesis(a.renewed, k) || k in Described(a.final.newIssues)
  }

  /** The second output speaks of an id that its own check need not have seen
      described: one that it resolves, or that it keeps open after the first. */
  ghost predicate SpeaksLoosely(a: Action, k: IssueId)
    requires a.Delegated?
  {
    || Mentioned(a.final.resolutions, k)
    || (k in a.final.delegation.openIssues && (k in a.first.delegation.openIssues || Mentioned(a.first.resolutions, k)))
  }

  /** A validated delegated turn keeps the catalog complete exactly when it
      describes those: an id minted by the first output counts as known to the
      second one's check, but nothing describes it afterwards. */
  lemma DelegatedCoveredIff(t: Transcript, a: Action, n: nat)
    requires t.turns != [] && t.versions != [] && a.Delegated? && ValidAction(t, a, n) && Covered(t)
    ensures Covered(Extend(t, a)) <==> forall k :: SpeaksLoosely(a, k) ==> Explained(t, a, k)
  {
    var end := Extend(t, a);
    var merged := MergedDecisions(DecisionsOf(t.turns), a.first, |t.turns| + 1);
    RuleGroups(a.final, Request(n, a.renewed, Some(merged)));
    forall k
      ensures k in OpenList(end.turns) && !SpeaksLoosely(a, k) ==> Explained(t, a, k)
      ensures SpeaksLoosely(a, k) ==> k in Issues(AllResolutions(end.turns)) || k in OpenList(end.turns)
      ensures k in Issues(AllResolutions(end.turns)) && !Mentioned(a.final.resolutions, k) ==>
              k in Keys(Catalog(t.versions, t.turns))
      ensures k in Keys(Catalog(end.versions, end.turns)) <==> Explained(t, a, k)
    {
      DelegatedTurnAdds(t, a, k);
      if k in a.final.delegation.openIssues && !SpeaksLoosely(a, k) {
        MergedKnows(t, a.first, k);
      }
    }
  }

  /** The merged state knows the earlier ids and those of the first output. */
  lemma MergedKnows(t: Transcript, first: TurnOutput, k: IssueId)
    requires t.turns != [] && Covered(t)
    ensures var merged := MergedDecisions(DecisionsOf(t.turns), first, |t.turns| + 1);
      k in Issues(merged.resolutions) ==> Mentioned(first.resolutions, k) || k in Keys(Catalog(t.versions, t.turns))
  {
    var all, drafts := AllResolutions(t.turns), Stamped(first.resolutions, |t.turns| + 1);
    LatestIssues(Latest(all) + drafts, k);
    IssuesConcat(Latest(all), drafts, k);
    LatestIssues(all, k);
    StampedMentions(first.resolutions, |t.turns| + 1, k);
  }

  // -- whole dialogues ------------------------------------------------------------------

  /** Some version or some stored draft describes it. */
  ghost predicate DescribedBy(versions: seq<SynthesisReport>, turns: seq<TurnRecord>, k: IssueId) {
    || (exists v :: 0 <= v < |versions| && InSynthesis(versions[v], k))
    || (exists i :: 0 <= i < |turns| && k in Described(turns[i].newIssues))
  }

  lemma {:induction false} SynthesisDescribes(versions: seq<SynthesisReport>, k: IssueId)
    ensures k in Keys(SynthesisEntries(versions)) <==> exists v :: 0 <= v < |versions| && InSynthesis(versions[v], k)
  {
    if versions != [] {
      var n := |versions| - 1;
      SynthesisDescribes(versions[..n], k);
      KeysConcat(SynthesisEntries(versions[..n]), ReportEntries(versions[n]));
      SynthesisKeys(versions[n], k);
      if v :| 0 <= v < n && InSynthesis(versions[v], k) {
        assert versions[..n][v] == versions[v];
      }
    }
  }

  lemma {:induction false} DraftsDescribe(turns: seq<TurnRecord>, k: IssueId)
    ensures k in Keys(MintedEntries(turns)) <==> exists i :: 0 <= i < |turns| && k in Described(turns[i].newIssues)
  {
    if turns != [] {
      var n := |turns| - 1;
      DraftsDescribe(turns[..n], k);
      KeysConcat(MintedEntries(turns[..n]), DraftEntries(turns[n].newIssues));
      assert Keys(DraftEntries(turns[n].newIssues)) == Described(turns[n].newIssues);
      if i :| 0 <= i < n && k in Described(turns[i].newIssues) {
        assert turns[..n][i] == turns[i];
      }
    }
  }

  lemma CatalogDescribes(versions: seq<SynthesisReport>, turns: seq<TurnRecord>, k: IssueId)
    ensures k in Keys(Catalog(versions, turns)) <==> DescribedBy(versions, turns, k)
  {
    CatalogMeaning(versions, turns);
    SynthesisDescribes(versions, k);
    DraftsDescribe(turns, k);
  }

  /** For every dialogue of validated turns, acceptance is refused exactly when
      the catalog is too large or the review speaks of an id that no synthesis
      version and no stored draft of any turn describes. */
  lemma AcceptanceRefusedIff(opening: TurnOutput, synthesis: SynthesisReport, acts: seq<Action>, numbers: seq<nat>)
    requires |numbers| == |acts| && ValidPlay(Opening(opening, synthesis), acts, numbers) && ValidOutput(opening)
    ensures var end := Extend(Play(Opening(opening, synthesis), acts), Accept);
      var verdict := Judge(BuildReview(end.versions, end.turns));
      && (verdict == Some(OversizedCatalog) <==> |Catalog(end.versions, end.turns)| > CATALOG_CAP)
      && (verdict == Some(Unexplained) <==>
            && |Catalog(end.versions, end.turns)| <= CATALOG_CAP
            && exists k :: Referenced(end.turns, k) && !DescribedBy(end.versions, end.turns, k))
      && (verdict.Some? ==> verdict.value.OversizedCatalog? || verdict.value.Unexplained?)
  {
    var t := Play(Opening(opening, synthesis), acts);
    DialogueConsistent(opening, synthesis, acts, numbers);
    AcceptConsistent(t);
    PlayOpenList(opening, synthesis, acts, numbers);
    var end := Extend(t, Accept);
    OneMoreTurn(t, Accept);
    ReviewVerdict(end.versions, end.turns);
    forall k ensures k in Keys(Catalog(end.versions, end.turns)) <==> DescribedBy(end.versions, end.turns, k) {
      CatalogDescribes(end.versions, end.turns, k);
    }
  }

  lemma ActionOpenList(t: Transcript, a: Action, n: nat)
    requires t.turns != [] && t.versions != [] && ValidAction(t, a, n) && |OpenList(t.turns)| <= 100
    ensures |OpenList(Extend(t, a).turns)| <= 100
  {
    OneMoreTurn(t, a);
  }

  lemma {:induction false} PlayOpenList(opening: TurnOutput, synthesis: SynthesisReport, acts: seq<Action>,
                                        numbers: seq<nat>)
    requires |numbers| == |acts| && ValidPlay(Opening(opening, synthesis), acts, numbers) && ValidOutput(opening)
    ensures |OpenList(Play(Opening(opening, synthesis), acts).turns)| <= 100
    decreases |acts|
  {
    var t0 := Opening(opening, synthesis);
    if acts == [] {
      OpeningFacts(opening, synthesis);
    } else {
      var n := |acts| - 1;
      PlayOpenList(opening, synthesis, acts[..n], numbers[..n]);
      ActionOpenList(Play(t0, acts[..n]), acts[n], numbers[n]);
    }
  }

  /** What each turn has to do for the catalog to stay complete. */
  ghost predicate Describes(t: Transcript, a: Action) {
    match a
    case Accept => true
    case Single(_, out) => forall k :: Mentioned(out.resolutions, k) ==>
        k in Keys(Catalog(t.versions, t.turns)) || k in Described(out.newIssues)
    case Delegated(_, _, _, _) => forall k :: SpeaksLoosely(a, k) ==> Explained(t, a, k)
  }

  ghost predicate AllDescribe(t: Transcript, acts: seq<Action>)
    decreases |acts|
  {
    acts == [] || (AllDescribe(t, acts[..|acts| - 1]) && Describes(Play(t, acts[..|acts| - 1]), acts[|acts| - 1]))
  }

  /** When the opening turn and every later one do that, the catalog explains
      everything at every point of the dialogue. */
  lemma {:induction false} DescribedDialogueCovered(opening: TurnOutput, synthesis: SynthesisReport,
                                                    acts: seq<Action>, numbers: seq<nat>)
    requires |numbers| == |acts| && ValidPlay(Opening(opening, synthesis), acts, numbers)
    requires forall k :: k in opening.delegation.openIssues ==> InSynthesis(synthesis, k)
    requires AllDescribe(Opening(opening, synthesis), acts)
    ensures Covered(Play(Opening(opening, synthesis), acts))
    decreases |acts|
  {
    var t0 := Opening(opening, synthesis);
    if acts == [] {
      OpeningCoveredIff(opening, synthesis);
      forall k | k in opening.delegation.openIssues ensures k in Keys(ReportEntries(synthesis)) {
        SynthesisKeys(synthesis, k);
      }
    } else {
      var n := |acts| - 1;
      DescribedDialogueCovered(opening, synthesis, acts[..n], numbers[..n]);
      var t := Play(t0, acts[..n]);
      match acts[n] {
        case Accept => AcceptKeepsCovered(t);
        case Single(_, _) => SingleCoveredIff(t, acts[n], numbers[n]);
        case Delegated(_, _, _, _) => DelegatedCoveredIff(t, acts[n], numbers[n]);
      }
    }
  }

  lemma AcceptKeepsCovered(t: Transcript)
    ensures Covered(Extend(t, Accept)) <==> Covered(t)
  {
    OneMoreTurn(t, Accept);
    var end := Extend(t, Accept);
    assert AllResolutions(end.turns) == AllResolutions(t.turns);
    assert MintedEntries(end.turns) == MintedEntries(t.turns);
    assert end.versions == t.versions;
  }

  // -- the promises that fail, by example ----------------------------------------------

  /** What the validator says of an inconsistent record, size permitting. */
  lemma ContradictionVerdict(reports: seq<SynthesisReport>, turns: seq<TurnRecord>)
    requires turns != [] && turns[|turns| - 1].poAccepted && !Consistent(turns)
    requires |OpenList(turns)| <= 100 && |AllResolutions(turns)| <= 200
    requires |SynthesisEntries(reports)| + |MintedEntries(turns)| <= CATALOG_CAP
    ensures Judge(BuildReview(reports, turns)) == Some(Contradicts)
  {
    var all := AllResolutions(turns);
    var r := BuildReview(reports, turns);
    CatalogFits(reports, turns);
    FewAreAllAggregated(turns);
    var k :| k in OpenList(turns) && SettledIn(all, k);
    assert k in r.remaining && SettledIn(r.resolutions, k);
  }

  lemma CatalogFits(reports: seq<SynthesisReport>, turns: seq<TurnRecord>)
    requires |SynthesisEntries(reports)| + |MintedEntries(turns)| <= CATALOG_CAP
    ensures |Catalog(reports, turns)| <= CATALOG_CAP && Distinct(EntryIds(Values(Catalog(reports, turns))))
  {
    FoldSizes<IssueEntry>([], SynthesisEntries(reports));
    FoldSizes(PutAll([], SynthesisEntries(reports)), MintedEntries(turns));
    CatalogMeaning(reports, turns);
    CatalogFiledUnderOwnId(reports, turns);
  }

  lemma FewAreAllAggregated(turns: seq<TurnRecord>)
    requires |AllResolutions(turns)| <= 200
    ensures forall k :: Recorded(Aggregated(turns), k) == Recorded(AllResolutions(turns), k)
  {
    var all := AllResolutions(turns);
    FoldSizes<Resolution>([], Record(all));
    LatestMeaning(all);
    assert Aggregated(turns) == Latest(all);
  }

  lemma {:induction false} FoldSizes<V>(d: Dict<V>, xs: seq<Entry<V>>)
    ensures |PutAll(d, xs)| <= |d| + |xs| && |DefaultAll(d, xs)| <= |d| + |xs|
  {
    if xs != [] {
      var e := xs[|xs| - 1];
      FoldSizes(d, xs[..|xs| - 1]);
      PutKeys(PutAll(d, xs[..|xs| - 1]), e.key, e.value);
      assert |Put(PutAll(d, xs[..|xs| - 1]), e.key, e.value)| == |Keys(Put(PutAll(d, xs[..|xs| - 1]), e.key, e.value))|;
    }
  }

  function Says(invoke: Invoke, open: seq<IssueId>, resolutions: seq<Draft>, minted: seq<IssueDraft>): TurnOutput {
    TurnOutput("reply", Delegation(invoke, None, false, open), resolutions, minted)
  }

  lemma OneMoreTurn(t: Transcript, a: Action)
    ensures var row := RecordOf(|t.turns| + 1, a); var end := Extend(t, a);
      && AllResolutions(end.turns) == AllResolutions(t.turns) + row.resolutions
      && MintedEntries(end.turns) == MintedEntries(t.turns) + DraftEntries(row.newIssues)
      && OpenList(end.turns) == (if a.Accept? then OpenList(t.turns) else row.delegation.value.openIssues)
      && SynthesisEntries(end.versions) == SynthesisEntries(t.versions)
          + (if a.Delegated? then ReportEntries(a.renewed) else [])
  {
    assert Extend(t, a).turns[..|t.turns|] == t.turns;
    if a.Delegated? {
      assert Extend(t, a).versions[..|t.versions|] == t.versions;
    }
  }

  lemma OpeningFacts(out: TurnOutput, synthesis: SynthesisReport)
    ensures var t := Opening(out, synthesis);
      AllResolutions(t.turns) == [] && MintedEntries(t.turns) == [] && OpenList(t.turns) == out.delegation.openIssues
      && SynthesisEntries(t.versions) == ReportEntries(synthesis)
  {
    var t := Opening(out, synthesis);
    assert t.turns[..0] == [] && t.versions[..0] == [];
    assert [] + ReportEntries(synthesis) == ReportEntries(synthesis);
  }

  /** The gate lets the dialogue go on after this action, as facilitator turn n. */
  predicate GoesOn(a: Action, n: nat) {
    match a
    case Accept => false
    case Single(_, out) => EvaluateGate(n, out.delegation).Continue?
    case Delegated(_, _, final, _) => EvaluateGate(n, final.delegation).Continue?
  }

  /** Settle k while j stays open; then a delegated turn whose first call reopens
      k and whose summary keeps both open without a word. */
  function Settle(k: IssueId, j: IssueId): Action {
    Single("fixed", Says(NoReviewer, [j], [Draft(k, Resolved, "done")], []))
  }

  function Relapse(k: IssueId, j: IssueId, synthesis: SynthesisReport): Action {
    Delegated("check", Says(Both, [k, j], [Draft(k, Reopened, "again")], []), Says(NoReviewer, [k, j], [], []),
        synthesis)
  }

  lemma SynthesisIdsAreTexts(synthesis: SynthesisReport, k: IssueId)
    requires ValidReport(synthesis) && InSynthesis(synthesis, k)
    ensures ValidText(k)
  {
  }

  lemma OpeningIsValid(synthesis: SynthesisReport, k: IssueId, j: IssueId)
    requires ValidReport(synthesis) && InSynthesis(synthesis, k) && InSynthesis(synthesis, j)
    ensures var out := Says(NoReviewer, [k, j], [], []);
      ValidOutput(out) && ValidateTurn(out, Request(1, synthesis, None)).Valid?
  {
    SynthesisIdsAreTexts(synthesis, k);
    SynthesisIdsAreTexts(synthesis, j);
    RuleGroups(Says(NoReviewer, [k, j], [], []), Request(1, synthesis, None));
  }

  lemma OutputsFit(synthesis: SynthesisReport, k: IssueId, j: IssueId)
    requires ValidText(k) && ValidText(j)
    ensures ValidOutput(Settle(k, j).out) && ValidOutput(Relapse(k, j, synthesis).first)
    ensures ValidOutput(Relapse(k, j, synthesis).final)
    ensures !Delegates(Settle(k, j).out) && Delegates(Relapse(k, j, synthesis).first)
    ensures GoesOn(Settle(k, j), 2) && GoesOn(Relapse(k, j, synthesis), 3)
  {
    assert Described([]) == [];
  }

  lemma SettleFollowsRules(t: Transcript, k: IssueId, j: IssueId)
    requires t.turns != [] && t.versions != [] && k != j
    requires InSynthesis(t.versions[|t.versions| - 1], j) && !SettledIn(AllResolutions(t.turns), j)
    ensures ValidateTurn(Settle(k, j).out, Request(2, t.versions[|t.versions| - 1], DecisionsOf(t.turns))).Valid?
  {
    LatestMeaning(AllResolutions(t.turns));
    RuleGroups(Settle(k, j).out, Request(2, t.versions[|t.versions| - 1], DecisionsOf(t.turns)));
  }

  lemma SettleRecords(t: Transcript, k: IssueId, j: IssueId)
    requires k != j && !SettledIn(AllResolutions(t.turns), j)
    ensures var end := Extend(t, Settle(k, j));
      SettledIn(AllResolutions(end.turns), k) && !SettledIn(AllResolutions(end.turns), j)
  {
    var a := Settle(k, j);
    var row := RecordOf(|t.turns| + 1, a);
    assert a.out.resolutions[0].issue == k;
    AfterMessage(t.turns, row, a.out.resolutions, k);
    AfterMessage(t.turns, row, a.out.resolutions, j);
    LastAt(row.resolutions);
  }

  lemma LastAt(items: seq<Resolution>)
    requires |items| == 1
    ensures Recorded(items, items[0].issue) == Some(items[0])
  {
    assert Record(items)[0] == Entry(items[0].issue, items[0]);
  }

  /** After the first output neither id counts as settled. */
  lemma RelapseMerges(t: Transcript, synthesis: SynthesisReport, k: IssueId, j: IssueId)
    requires t.turns != [] && k != j && !SettledIn(AllResolutions(t.turns), j)
    ensures var merged := MergedDecisions(DecisionsOf(t.turns), Relapse(k, j, synthesis).first, |t.turns| + 1);
      !SettledIn(merged.resolutions, k) && !SettledIn(merged.resolutions, j)
  {
    var first := Relapse(k, j, synthesis).first;
    var drafts := Stamped(first.resolutions, |t.turns| + 1);
    LatestIncremental(AllResolutions(t.turns), drafts);
    LatestMeaning(AllResolutions(t.turns) + drafts);
    RecordedConcat(AllResolutions(t.turns), drafts, k);
    RecordedConcat(AllResolutions(t.turns), drafts, j);
    assert Issues(drafts)[0] == k;
    LastAt(drafts);
  }

  lemma RelapseFirstIsValid(t: Transcript, synthesis: SynthesisReport, k: IssueId, j: IssueId)
    requires t.turns != [] && k != j && InSynthesis(synthesis, k) && InSynthesis(synthesis, j)
    requires !SettledIn(AllResolutions(t.turns), j)
    ensures ValidateTurn(Relapse(k, j, synthesis).first, Request(3, synthesis, DecisionsOf(t.turns))).Valid?
  {
    var first := Relapse(k, j, synthesis).first;
    LatestMeaning(AllResolutions(t.turns));
    assert first.resolutions[0].issue == k && Drafted(first.resolutions, k, Reopened);
    RuleGroups(first, Request(3, synthesis, DecisionsOf(t.turns)));
  }

  lemma RelapseFinalIsValid(t: Transcript, synthesis: SynthesisReport, k: IssueId, j: IssueId)
    requires t.turns != [] && k != j && InSynthesis(synthesis, k) && InSynthesis(synthesis, j)
    requires !SettledIn(AllResolutions(t.turns), j)
    ensures var merged := MergedDecisions(DecisionsOf(t.turns), Relapse(k, j, synthesis).first, |t.turns| + 1);
      ValidateTurn(Relapse(k, j, synthesis).final, Request(3, synthesis, Some(merged))).Valid?
  {
    var a := Relapse(k, j, synthesis);
    RelapseMerges(t, synthesis, k, j);
    RuleGroups(a.final, Request(3, synthesis, Some(MergedDecisions(DecisionsOf(t.turns), a.first, |t.turns| + 1))));
  }

  lemma RelapseIsSilent(t: Transcript, synthesis: SynthesisReport, k: IssueId, j: IssueId)
    requires SettledIn(AllResolutions(t.turns), k)
    ensures !Restates(t, Relapse(k, j, synthesis))
  {
    var final := Relapse(k, j, synthesis).final;
    assert final.delegation.openIssues[0] == k && !Mentioned(final.resolutions, k);
  }

  /** A dialogue that schema, turn rules and gate let through at every step, and
      whose acceptance is then rejected as contradictory: only the summary of a
      delegated turn is stored. */
  lemma DelegatedTurnContradicts(synthesis: SynthesisReport, k: IssueId, j: IssueId)
    requires ValidReport(synthesis) && |synthesis.findings| + |synthesis.conflicts| <= 200
    requires k != j && InSynthesis(synthesis, k) && InSynthesis(synthesis, j)
    ensures
      var opening := Says(NoReviewer, [k, j], [], []);
      var t1 := Opening(opening, synthesis);
      var t2 := Extend(t1, Settle(k, j));
      var end := Extend(Extend(t2, Relapse(k, j, synthesis)), Accept);
      && ValidOutput(opening) && ValidateTurn(opening, Request(1, synthesis, None)).Valid?
      && ValidAction(t1, Settle(k, j), 2) && GoesOn(Settle(k, j), 2)
      && ValidAction(t2, Relapse(k, j, synthesis), 3) && GoesOn(Relapse(k, j, synthesis), 3)
      && Judge(BuildReview(end.versions, end.turns)) == Some(Contradicts)
  {
    var t1 := Opening(Says(NoReviewer, [k, j], [], []), synthesis);
    OpeningIsValid(synthesis, k, j);
    OpeningFacts(Says(NoReviewer, [k, j], [], []), synthesis);
    SynthesisIdsAreTexts(synthesis, k);
    SynthesisIdsAreTexts(synthesis, j);
    OutputsFit(synthesis, k, j);
    SettleFollowsRules(t1, k, j);
    SettleRecords(t1, k, j);
    OneMoreTurn(t1, Settle(k, j));
    RelapseContradicts(Extend(t1, Settle(k, j)), synthesis, k, j);
  }

  lemma RelapseContradicts(t: Transcript, synthesis: SynthesisReport, k: IssueId, j: IssueId)
    requires t.turns != [] && t.versions != [] && t.versions[|t.versions| - 1] == synthesis && k != j && ValidText(k)
    requires ValidText(j)
    requires InSynthesis(synthesis, k) && InSynthesis(synthesis, j)
    requires SettledIn(AllResolutions(t.turns), k) && !SettledIn(AllResolutions(t.turns), j)
    requires |AllResolutions(t.turns)| <= 1 && MintedEntries(t.turns) == [] && |SynthesisEntries(t.versions)| <= 200
    requires |synthesis.findings| + |synthesis.conflicts| <= 200
    ensures ValidAction(t, Relapse(k, j, synthesis), 3)
    ensures var end := Extend(Extend(t, Relapse(k, j, synthesis)), Accept);
      Judge(BuildReview(end.versions, end.turns)) == Some(Contradicts)
  {
    OutputsFit(synthesis, k, j);
    RelapseFirstIsValid(t, synthesis, k, j);
    RelapseFinalIsValid(t, synthesis, k, j);
    RelapseIsSilent(t, synthesis, k, j);
    SilenceContradicts(t, synthesis, k, j);
  }

  lemma SilenceContradicts(t: Transcript, synthesis: SynthesisReport, k: IssueId, j: IssueId)
    requires t.turns != [] && t.versions != [] && ValidAction(t, Relapse(k, j, synthesis), 3)
    requires !Restates(t, Relapse(k, j, synthesis))
    requires |AllResolutions(t.turns)| <= 1 && MintedEntries(t.turns) == [] && |SynthesisEntries(t.versions)| <= 200
    requires |synthesis.findings| + |synthesis.conflicts| <= 200
    ensures var end := Extend(Extend(t, Relapse(k, j, synthesis)), Accept);
      Judge(BuildReview(end.versions, end.turns)) == Some(Contradicts)
  {
    var after := Extend(t, Relapse(k, j, synthesis));
    var end := Extend(after, Accept);
    DelegatedConsistentIff(t, Relapse(k, j, synthesis), 3);
    AcceptConsistent(after);
    OneMoreTurn(t, Relapse(k, j, synthesis));
    OneMoreTurn(after, Accept);
    ContradictionVerdict(end.versions, end.turns);
  }

  function Minting(k: IssueId): TurnOutput {
    Says(NoReviewer, [k], [], [IssueDraft(k, "Audit", "no audit trail")])
  }

  lemma MintingIsValid(synthesis: SynthesisReport, k: IssueId)
    requires ValidText(k)
    ensures ValidOutput(Minting(k)) && ValidateTurn(Minting(k), Request(1, synthesis, None)).Valid?
  {
    RuleGroups(Minting(k), Request(1, synthesis, None));
    assert Described(Minting(k).newIssues)[0] == k;
  }

  lemma UnexplainedVerdict(reports: seq<SynthesisReport>, turns: seq<TurnRecord>, k: IssueId)
    requires turns != [] && turns[|turns| - 1].poAccepted && Consistent(turns) && |OpenList(turns)| <= 100
    requires |SynthesisEntries(reports)| + |MintedEntries(turns)| <= CATALOG_CAP
    requires k in OpenList(turns) && k !in Keys(SynthesisEntries(reports)) && k !in Keys(MintedEntries(turns))
    ensures Judge(BuildReview(reports, turns)) == Some(Unexplained)
  {
    FoldSizes<IssueEntry>([], SynthesisEntries(reports));
    FoldSizes(PutAll([], SynthesisEntries(reports)), MintedEntries(turns));
    CatalogMeaning(reports, turns);
    ReviewVerdict(reports, turns);
    assert Referenced(turns, k);
  }

  /** An opening turn may mint an issue, with the descriptor the rules demand;
      the descriptor is not stored, so accepting right away is rejected. */
  lemma OpeningMintIsUnexplained(synthesis: SynthesisReport, k: IssueId)
    requires ValidText(k) && !InSynthesis(synthesis, k) && |synthesis.findings| + |synthesis.conflicts| <= 400
    ensures ValidOutput(Minting(k)) && ValidateTurn(Minting(k), Request(1, synthesis, None)).Valid?
    ensures var end := Extend(Opening(Minting(k), synthesis), Accept);
      Judge(BuildReview(end.versions, end.turns)) == Some(Unexplained)
  {
    MintingIsValid(synthesis, k);
    var t := Opening(Minting(k), synthesis);
    var end := Extend(t, Accept);
    OpeningFacts(Minting(k), synthesis);
    OneMoreTurn(t, Accept);
    SynthesisKeys(synthesis, k);
    AcceptConsistent(t);
    assert k in OpenList(end.turns) by { assert OpenList(end.turns)[0] == k; }
    UnexplainedVerdict(end.versions, end.turns, k);
  }

  /** The first call of a delegated turn mints k, the second keeps it open. */
  function MintThenKeep(k: IssueId, synthesis: SynthesisReport): Action {
    Delegated("look again", Says(Both, [k], [], [IssueDraft(k, "Audit", "no audit trail")]),
        Says(NoReviewer, [k], [], []), synthesis)
  }

  /** A delegated turn may lose a descriptor the same way: schema, rules and gate
      let it through, and acceptance is refused. */
  lemma DelegatedMintIsUnexplained(synthesis: SynthesisReport, k: IssueId)
    requires ValidText(k) && !InSynthesis(synthesis, k) && |synthesis.findings| + |synthesis.conflicts| <= 200
    ensures var t := Opening(Says(NoReviewer, [], [], []), synthesis);
      var end := Extend(Extend(t, MintThenKeep(k, synthesis)), Accept);
      && ValidAction(t, MintThenKeep(k, synthesis), 2) && GoesOn(MintThenKeep(k, synthesis), 2)
      && Judge(BuildReview(end.versions, end.turns)) == Some(Unexplained)
  {
    var opening := Says(NoReviewer, [], [], []);
    var t, a := Opening(opening, synthesis), MintThenKeep(k, synthesis);
    OpeningFacts(opening, synthesis);
    MintThenKeepIsValid(t, synthesis, k);
    var m := Extend(t, a);
    var end := Extend(m, Accept);
    OneMoreTurn(t, a);
    OneMoreTurn(m, Accept);
    assert !SettledIn([], k);
    assert AllResolutions(end.turns) == [] && MintedEntries(end.turns) == [];
    KeysConcat(ReportEntries(synthesis), ReportEntries(synthesis));
    SynthesisKeys(synthesis, k);
    assert OpenList(end.turns) == [k] && k in [k];
    UnexplainedVerdict(end.versions, end.turns, k);
  }

  lemma MintThenKeepIsValid(t: Transcript, synthesis: SynthesisReport, k: IssueId)
    requires t.turns != [] && t.versions != [] && t.versions[|t.versions| - 1] == synthesis
    requires AllResolutions(t.turns) == [] && ValidText(k)
    ensures ValidAction(t, MintThenKeep(k, synthesis), 2)
  {
    var a := MintThenKeep(k, synthesis);
    var prior := DecisionsOf(t.turns);
    var merged := MergedDecisions(prior, a.first, |t.turns| + 1);
    assert Described(a.first.newIssues)[0] == k && Described(a.final.newIssues) == [];
    assert prior.value.resolutions == [];
    assert merged.resolutions == Latest([]) == [];
    RuleGroups(a.first, Request(2, synthesis, prior));
    RuleGroups(a.final, Request(2, synthesis, Some(merged)));
    assert merged.openIssues == [k] && k in merged.openIssues;
  }
}
