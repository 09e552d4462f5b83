/** The facilitator's typed values (shared/review_schemas facilitator.py and
    synthesis.py) and the latest-wins aggregation of resolutions. */
module Artifacts {
  datatype Kind = Story | ReviewBusiness | ReviewEngineering | Synthesis | FinalizedReview | ReportMd | ReportPdf

  datatype Format = Md | Pdf

  function ReportKind(f: Format): Kind {
    match f
    case Md => ReportMd
    case Pdf => ReportPdf
  }

  /** A durable reference; ids, checksums and instants are opaque numbers. */
  datatype Reference = Reference(artifactId: nat, kind: Kind, version: nat, checksum: nat, createdAt: nat)
}

module Facilitator {
  import opened Common
  import opened OrderedDict

  type IssueId = string

  datatype Severity = Info | Minor | Major | Blocker
  datatype Finding = Finding(id: IssueId, title: string, description: string, severity: Severity)
  datatype Conflict = Conflict(id: IssueId, description: string)
  datatype SynthesisReport = SynthesisReport(findings: seq<Finding>, conflicts: seq<Conflict>)

  datatype Invoke = NoReviewer | Business | Engineering | Both
  datatype Delegation = Delegation(invoke: Invoke, extraContext: Option<string>, reusePrevious: bool,
      openIssues: seq<IssueId>)

  datatype Disposition = Resolved | Accepted | Unresolved | Reopened
  datatype Draft = Draft(issue: IssueId, disposition: Disposition, explanation: string)
  datatype Resolution = Resolution(issue: IssueId, disposition: Disposition, explanation: string, turnNumber: nat)
  datatype IssueDraft = IssueDraft(issue: IssueId, title: string, description: string)

  datatype TurnOutput = TurnOutput(reply: string, delegation: Delegation, resolutions: seq<Draft>,
      newIssues: seq<IssueDraft>)

  predicate Settled(d: Disposition) { d.Resolved? || d.Accepted? }

  // -- model validators ---------------------------------------------------

  predicate Blank(c: char) { c == ' ' || c == '\t' || c == '\n' || c == '\r' }

  /** A text as the schemas keep it: stripped, bounded and not empty. */
  predicate ValidText(s: string) { 1 <= |s| <= 20_000 && !Blank(s[0]) && !Blank(s[|s| - 1]) }

  /** `[prefix]-n` with a positive decimal number. */
  predicate ShapedId(id: string, prefixes: string) {
    && 3 <= |id| <= 32 && id[0] in prefixes && id[1] == '-' && '1' <= id[2] <= '9'
    && forall i :: 3 <= i < |id| ==> '0' <= id[i] <= '9'
  }

  predicate ValidReport(r: SynthesisReport) {
    && |r.findings| <= 400 && |r.conflicts| <= 200
    && (forall i :: 0 <= i < |r.findings| ==> ShapedId(r.findings[i].id, "BE"))
    && (forall i :: 0 <= i < |r.conflicts| ==> ShapedId(r.conflicts[i].id, "C"))
  }

  predicate ValidDelegation(d: Delegation) {
    && |d.openIssues| <= 100
    && (forall i :: 0 <= i < |d.openIssues| ==> ValidText(d.openIssues[i]))
    && (d.extraContext.Some? ==> ValidText(d.extraContext.value))
    && (d.reusePrevious ==> d.invoke.NoReviewer?)
    && (d.invoke.NoReviewer? ==> d.extraContext.None?)
  }

  function Described(drafts: seq<IssueDraft>): seq<IssueId> {
    seq(|drafts|, i requires 0 <= i < |drafts| => drafts[i].issue)
  }

  predicate ValidOutput(o: TurnOutput) {
    && ValidText(o.reply) && ValidDelegation(o.delegation)
    && |o.resolutions| <= 100 && |o.newIssues| <= 100
    && (forall i :: 0 <= i < |o.resolutions| ==>
        ValidText(o.resolutions[i].issue) && ValidText(o.resolutions[i].explanation))
    && (forall i :: 0 <= i < |o.newIssues| ==> ValidText(o.newIssues[i].title) && ValidText(o.newIssues[i].description))
    && Distinct(Described(o.newIssues))
    && (forall k :: k in Described(o.newIssues) ==> k in o.delegation.openIssues)
    && (o.delegation.reusePrevious ==> o.resolutions == [] && o.newIssues == [])
  }

  // -- latest-wins aggregation ---------------------------------------------

  function Record(items: seq<Resolution>): (r: Dict<Resolution>)
    ensures |r| == |items|
  {
    seq(|items|, i requires 0 <= i < |items| => Entry(items[i].issue, items[i]))
  }

  function Issues(items: seq<Resolution>): seq<IssueId> { Keys(Record(items)) }

  /** What the record says about one issue: its last item. */
  function Recorded(items: seq<Resolution>, issue: IssueId): Option<Resolution> {
    LastOf(Record(items), issue)
  }

  predicate SettledIn(items: seq<Resolution>, issue: IssueId) {
    Recorded(items, issue).Some? && Settled(Recorded(items, issue).value.disposition)
  }

  function Latest(items: seq<Resolution>): seq<Resolution> {
    Values(PutAll([], Record(items)))
  }

  method LatestResolutions(items: seq<Resolution>) returns (r: seq<Resolution>)
    ensures r == Latest(items)
    ensures Issues(r) == FirstSeen(Issues(items))
    ensures forall i :: 0 <= i < |r| ==> Recorded(items, r[i].issue) == Some(r[i])
  {
    var latest: Dict<Resolution> := [];
    for i := 0 to |items|
      invariant latest == PutAll([], Record(items[..i]))
    {
      assert Record(items[..i + 1]) == Record(items[..i]) + [Entry(items[i].issue, items[i])];
      latest := Put(latest, items[i].issue, items[i]);
    }
    assert items[..|items|] == items;
    r := Values(latest);
    LatestMeaning(items);
  }

  /** Every entry of the fold is filed under its own issue. */
  lemma {:induction false} FiledUnderOwnIssue(items: seq<Resolution>)
    ensures PutAll([], Record(items)) == Record(Latest(items))
  {
    var d := PutAll([], Record(items));
    PutAllKeys(Record(items));
    forall i | 0 <= i < |d| ensures d[i] == Entry(d[i].value.issue, d[i].value) {
      PutAllGet(Record(items), d[i].key);
      GetAt(d, i);
      assert Entry(d[i].key, d[i].value) in Record(items);
    }
  }

  /** First-seen order, one item per issue, each the last word on its issue. */
  lemma LatestMeaning(items: seq<Resolution>)
    ensures Issues(Latest(items)) == FirstSeen(Issues(items))
    ensures Distinct(Issues(Latest(items)))
    ensures forall i :: 0 <= i < |Latest(items)| ==> Recorded(items, Latest(items)[i].issue) == Some(Latest(items)[i])
    ensures forall k :: Recorded(Latest(items), k) == Recorded(items, k)
  {
    var d := PutAll([], Record(items));
    FiledUnderOwnIssue(items);
    PutAllKeys(Record(items));
    forall i | 0 <= i < |Latest(items)| ensures Recorded(items, Latest(items)[i].issue) == Some(Latest(items)[i]) {
      GetAt(d, i);
      PutAllGet(Record(items), d[i].key);
    }
    forall k ensures Recorded(Latest(items), k) == Recorded(items, k) {
      PutAllGet(Record(items), k);
      if k in Keys(d) {
        LastOfDistinct(d, k);
      }
    }
  }

  lemma RecordConcat(xs: seq<Resolution>, ys: seq<Resolution>)
    ensures Record(xs + ys) == Record(xs) + Record(ys)
  {
  }

  /** Aggregating what was aggregated changes nothing. */
  lemma LatestIsStable(xs: seq<Resolution>)
    ensures PutAll([], Record(Latest(xs))) == PutAll([], Record(xs))
  {
    FiledUnderOwnIssue(xs);
    PutAllKeys(Record(xs));
    PutAllFixed(PutAll([], Record(xs)));
  }

  /** Aggregating turn by turn is the same as aggregating the whole history. */
  lemma LatestIncremental(xs: seq<Resolution>, ys: seq<Resolution>)
    ensures Latest(Latest(xs) + ys) == Latest(xs + ys)
  {
    LatestIsStable(xs);
    RecordConcat(Latest(xs), ys);
    RecordConcat(xs, ys);
    PutAllConcat([], Record(Latest(xs)), Record(ys));
    PutAllConcat([], Record(xs), Record(ys));
  }

  lemma RecordedConcat(xs: seq<Resolution>, ys: seq<Resolution>, k: IssueId)
    ensures Recorded(xs + ys, k) == if k in Issues(ys) then Recorded(ys, k) else Recorded(xs, k)
  {
    RecordConcat(xs, ys);
    LastOfConcat(Record(xs), Record(ys), k);
  }
}
