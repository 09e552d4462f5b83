/** The dialogue's decision algebra: what a turn records (turns_flow.py), what
    a turn may say (ae_turn_validation.py) and what the final review demands
    (facilitator.py, finalization.py). */
module Turns {
  import opened Common
  import opened Artifacts
  import opened Facilitator
  import opened Records

  const PARK_TURN := 10

  function EvaluateGate(facilitatorTurn: nat, delegation: Delegation): Outcome {
    if facilitatorTurn >= PARK_TURN then Park
    else if delegation.openIssues == [] && delegation.invoke.NoReviewer? then Finalize
    else Continue
  }

  function Stamped(drafts: seq<Draft>, n: nat): (r: seq<Resolution>)
    ensures |r| == |drafts|
    ensures forall i :: 0 <= i < |r| ==> r[i].issue == drafts[i].issue && r[i].disposition == drafts[i].disposition
  {
    seq(|drafts|, i requires 0 <= i < |drafts| =>
        Resolution(drafts[i].issue, drafts[i].disposition, drafts[i].explanation, n))
  }

  /** The record of a facilitator turn: only the final output's decisions. */
  function MessageTurn(n: nat, message: string, out: TurnOutput, rationale: Option<string>, outcome: Outcome,
                       produced: seq<Reference>, synthesis: Option<SynthesisReport>): TurnRecord
  {
    TurnRecord(n, Some(message), false, Some(out.reply), rationale, Some(out.delegation),
               Stamped(out.resolutions, n), out.newIssues, outcome, produced, synthesis)
  }

  function AcceptanceTurn(n: nat): TurnRecord {
    TurnRecord(n, None, true, None, None, None, [], [], Finalize, [], None)
  }

  /** Turn 1 as session creation stores it: no resolutions, no new issues. */
  function OpeningTurn(out: TurnOutput, produced: seq<Reference>, synthesis: SynthesisReport): TurnRecord {
    TurnRecord(1, None, false, Some(out.reply), None, Some(out.delegation), [], [], Continue, produced, Some(synthesis))
  }

  /** The synthesis versions the recorded turns produced, oldest first. */
  function Versions(turns: seq<TurnRecord>): seq<SynthesisReport> {
    if turns == [] then []
    else
      var init, last := Versions(turns[..|turns| - 1]), turns[|turns| - 1];
      if last.synthesis.Some? then init + [last.synthesis.value] else init
  }

  // -- decision state ---------------------------------------------------------

  datatype DecisionState = DecisionState(resolutions: seq<Resolution>, openIssues: seq<IssueId>)

  function AllResolutions(turns: seq<TurnRecord>): seq<Resolution> {
    if turns == [] then []
    else AllResolutions(turns[..|turns| - 1]) + turns[|turns| - 1].resolutions
  }

  /** The open list of the newest turn that carries a delegation. */
  function OpenList(turns: seq<TurnRecord>): seq<IssueId> {
    if turns == [] then []
    else if turns[|turns| - 1].delegation.Some? then turns[|turns| - 1].delegation.value.openIssues
    else OpenList(turns[..|turns| - 1])
  }

  function DecisionsOf(turns: seq<TurnRecord>): Option<DecisionState> {
    if turns == [] then None
    else Some(DecisionState(Latest(AllResolutions(turns)), OpenList(turns)))
  }

  function MergedDecisions(prior: Option<DecisionState>, first: TurnOutput, n: nat): DecisionState {
    var base := OrElse(prior, DecisionState([], []));
    DecisionState(Latest(base.resolutions + Stamped(first.resolutions, n)), first.delegation.openIssues)
  }

  /** The summary call sees exactly the state the next turn would see, had the
      first output been recorded as a turn of its own. */
  lemma MergedIsNextState(turns: seq<TurnRecord>, n: nat, message: string, first: TurnOutput)
    ensures Some(MergedDecisions(DecisionsOf(turns), first, n))
         == DecisionsOf(turns + [MessageTurn(n, message, first, None, Continue, [], None)])
  {
    var t := MessageTurn(n, message, first, None, Continue, [], None);
    assert (turns + [t])[..|turns|] == turns;
    if turns == [] {
      assert [] + Stamped(first.resolutions, n) == AllResolutions(turns) + Stamped(first.resolutions, n);
    } else {
      LatestIncremental(AllResolutions(turns), Stamped(first.resolutions, n));
    }
  }
}

module TurnRules {
  import opened Common
  import opened Facilitator
  import opened Turns

  datatype Request = Request(turnNumber: nat, synthesis: SynthesisReport, decisions: Option<DecisionState>)

  datatype Verdict =
    | Valid
    | OpeningInvokes
    | OpeningFence(issue: IssueId)
    | ReappearsUnreopened(issue: IssueId)
    | SettledAndOpen
    | Undescribed(issue: IssueId)

  predicate Fenceable(synthesis: SynthesisReport, issue: IssueId) {
    exists i :: 0 <= i < |synthesis.findings| && synthesis.findings[i].id == issue
      && (synthesis.findings[i].severity.Info? || synthesis.findings[i].severity.Minor?)
  }

  predicate InSynthesis(synthesis: SynthesisReport, issue: IssueId) {
    || (exists i :: 0 <= i < |synthesis.findings| && synthesis.findings[i].id == issue)
    || (exists i :: 0 <= i < |synthesis.conflicts| && synthesis.conflicts[i].id == issue)
  }

  predicate Drafted(drafts: seq<Draft>, issue: IssueId, d: Disposition) {
    exists i :: 0 <= i < |drafts| && drafts[i].issue == issue && drafts[i].disposition == d
  }

  predicate Mentioned(drafts: seq<Draft>, issue: IssueId) {
    exists i :: 0 <= i < |drafts| && drafts[i].issue == issue
  }

  function CheckFence(drafts: seq<Draft>, synthesis: SynthesisReport): Verdict {
    if drafts == [] then Valid
    else if !drafts[0].disposition.Resolved? || !Fenceable(synthesis, drafts[0].issue) then
        OpeningFence(drafts[0].issue)
    else CheckFence(drafts[1..], synthesis)
  }

  function CheckReappearing(open: seq<IssueId>, drafts: seq<Draft>, decisions: DecisionState): Verdict {
    if open == [] then Valid
    else if SettledIn(decisions.resolutions, open[0]) && !Drafted(drafts, open[0], Reopened) then
        ReappearsUnreopened(open[0])
    else CheckReappearing(open[1..], drafts, decisions)
  }

  predicate SettlesOpen(output: TurnOutput) {
    exists i :: 0 <= i < |output.resolutions| && Settled(output.resolutions[i].disposition)
      && output.resolutions[i].issue in output.delegation.openIssues
  }

  predicate Known(request: Request, issue: IssueId) {
    || InSynthesis(request.synthesis, issue)
    || (request.decisions.Some?
        && (issue in Issues(request.decisions.value.resolutions) || issue in request.decisions.value.openIssues))
  }

  function CheckDescribed(open: seq<IssueId>, output: TurnOutput, request: Request): Verdict {
    if open == [] then Valid
    else if !Known(request, open[0]) && open[0] !in Described(output.newIssues) then Undescribed(open[0])
    else CheckDescribed(open[1..], output, request)
  }

  function ValidateOpening(output: TurnOutput, synthesis: SynthesisReport): Verdict {
    if !output.delegation.invoke.NoReviewer? then OpeningInvokes
    else CheckFence(output.resolutions, synthesis)
  }

  function ValidateLifecycle(output: TurnOutput, decisions: DecisionState): Verdict {
    var v := CheckReappearing(output.delegation.openIssues, output.resolutions, decisions);
    if !v.Valid? then v
    else if SettlesOpen(output) then SettledAndOpen
    else Valid
  }

  function ValidateTurn(output: TurnOutput, request: Request): Verdict {
    var opening := if request.turnNumber == 1 then ValidateOpening(output, request.synthesis) else Valid;
    if !opening.Valid? then opening
    else
      var lifecycle := if request.decisions.Some? then ValidateLifecycle(output, request.decisions.value) else Valid;
      if !lifecycle.Valid? then lifecycle
      else CheckDescribed(output.delegation.openIssues, output, request)
  }

  // -- what the verdict means ----------------------------------------------------

  lemma {:induction false} ReappearingMeaning(open: seq<IssueId>, drafts: seq<Draft>, decisions: DecisionState)
    ensures CheckReappearing(open, drafts, decisions).Valid? <==>
            forall k :: k in open && SettledIn(decisions.resolutions, k) ==> Drafted(drafts, k, Reopened)
  {
    if open != [] {
      ReappearingMeaning(open[1..], drafts, decisions);
      assert open == [open[0]] + open[1..];
    }
  }

  lemma {:induction false} DescribedMeaning(open: seq<IssueId>, output: TurnOutput, request: Request)
    ensures CheckDescribed(open, output, request).Valid? <==>
            forall k :: k in open ==> Known(request, k) || k in Described(output.newIssues)
  {
    if open != [] {
      DescribedMeaning(open[1..], output, request);
      assert open == [open[0]] + open[1..];
    }
  }

  lemma {:induction false} FenceMeaning(drafts: seq<Draft>, synthesis: SynthesisReport)
    ensures CheckFence(drafts, synthesis).Valid? <==>
            forall i :: 0 <= i < |drafts| ==> drafts[i].disposition.Resolved? && Fenceable(synthesis, drafts[i].issue)
  {
    if drafts != [] {
      FenceMeaning(drafts[1..], synthesis);
      assert drafts == [drafts[0]] + drafts[1..];
    }
  }

  /** On turn 1 nobody is asked, and only info and minor findings of the synthesis
      are settled, as resolved. */
  lemma OpeningMeaning(output: TurnOutput, synthesis: SynthesisReport)
    ensures ValidateOpening(output, synthesis).Valid? <==>
            && output.delegation.invoke.NoReviewer?
            && forall i :: 0 <= i < |output.resolutions| ==>
                 && output.resolutions[i].disposition.Resolved?
                 && exists f :: f in synthesis.findings && f.id == output.resolutions[i].issue
                      && (f.severity.Info? || f.severity.Minor?)
  {
    FenceMeaning(output.resolutions, synthesis);
    forall i | 0 <= i < |output.resolutions|
        ensures Fenceable(synthesis, output.resolutions[i].issue) <==>
                exists f :: f in synthesis.findings && f.id == output.resolutions[i].issue
                  && (f.severity.Info? || f.severity.Minor?) {
      FenceableIff(synthesis, output.resolutions[i].issue);
    }
  }

  lemma FenceableIff(synthesis: SynthesisReport, issue: IssueId)
    ensures Fenceable(synthesis, issue) <==>
            exists f :: f in synthesis.findings && f.id == issue && (f.severity.Info? || f.severity.Minor?)
  {
    if f :| f in synthesis.findings && f.id == issue && (f.severity.Info? || f.severity.Minor?) {
      var i :| 0 <= i < |synthesis.findings| && synthesis.findings[i] == f;
    }
  }

  /** So nothing that is only major or a blocker is ever settled on turn 1. */
  lemma NothingBigOnTurnOne(output: TurnOutput, request: Request, issue: IssueId)
    requires request.turnNumber == 1 && ValidateTurn(output, request).Valid?
    requires forall f :: f in request.synthesis.findings && f.id == issue ==> f.severity.Major? || f.severity.Blocker?
    ensures forall i :: 0 <= i < |output.resolutions| ==> output.resolutions[i].issue != issue
  {
    OpeningMeaning(output, request.synthesis);
  }

  /** A draft settles an issue: the disposition is resolved or accepted. */
  predicate Closes(d: Draft, issue: IssueId) {
    d.issue == issue && (d.disposition == Resolved || d.disposition == Accepted)
  }

  /** The last item about the issue says resolved or accepted. */
  ghost predicate LastSaysSettled(items: seq<Resolution>, issue: IssueId) {
    exists i :: 0 <= i < |items| && items[i].issue == issue
      && (items[i].disposition == Resolved || items[i].disposition == Accepted)
      && forall j :: i < j < |items| ==> items[j].issue != issue
  }

  lemma OneMoreItem(items: seq<Resolution>, item: Resolution, issue: IssueId)
    ensures Recorded(items + [item], issue) == if item.issue == issue then Some(item) else Recorded(items, issue)
  {
    assert Record(items + [item])[..|items|] == Record(items);
  }

  lemma OneMoreSays(items: seq<Resolution>, item: Resolution, issue: IssueId)
    ensures LastSaysSettled(items + [item], issue)
       <==> if item.issue == issue then item.disposition == Resolved || item.disposition == Accepted
            else LastSaysSettled(items, issue)
  {
    var more := items + [item];
    assert more[|items|] == item;
    if item.issue != issue && LastSaysSettled(items, issue) {
      var i :| 0 <= i < |items| && items[i].issue == issue
        && (items[i].disposition == Resolved || items[i].disposition == Accepted)
        && forall j :: i < j < |items| ==> items[j].issue != issue;
      assert more[i] == items[i];
    }
    if item.issue != issue && LastSaysSettled(more, issue) {
      var i :| 0 <= i < |more| && more[i].issue == issue
        && (more[i].disposition == Resolved || more[i].disposition == Accepted)
        && forall j :: i < j < |more| ==> more[j].issue != issue;
      assert items[i] == more[i];
      assert forall j :: i < j < |items| ==> items[j] == more[j];
    }
  }

  lemma {:induction false} SettledInMeaning(items: seq<Resolution>, issue: IssueId)
    ensures SettledIn(items, issue) <==> LastSaysSettled(items, issue)
  {
    if items != [] {
      var init, last := items[..|items| - 1], items[|items| - 1];
      assert init + [last] == items;
      OneMoreItem(init, last, issue);
      OneMoreSays(init, last, issue);
      SettledInMeaning(init, issue);
    }
  }

  /** Where an open issue may come from: the synthesis, the decisions so far, or
      a description given on this turn. */
  ghost predicate HasSource(output: TurnOutput, request: Request, issue: IssueId) {
    || (exists f :: f in request.synthesis.findings && f.id == issue)
    || (exists c :: c in request.synthesis.conflicts && c.id == issue)
    || (request.decisions.Some?
        && (issue in request.decisions.value.openIssues
            || exists r :: r in request.decisions.value.resolutions && r.issue == issue))
    || (exists d :: d in output.newIssues && d.issue == issue)
  }

  lemma HasSourceIff(output: TurnOutput, request: Request, issue: IssueId)
    ensures HasSource(output, request, issue) <==> Known(request, issue) || issue in Described(output.newIssues)
  {
    var synthesis := request.synthesis;
    forall f | f in synthesis.findings && f.id == issue ensures InSynthesis(synthesis, issue) {
      var i :| 0 <= i < |synthesis.findings| && synthesis.findings[i] == f;
    }
    forall c | c in synthesis.conflicts && c.id == issue ensures InSynthesis(synthesis, issue) {
      var i :| 0 <= i < |synthesis.conflicts| && synthesis.conflicts[i] == c;
    }
    forall d | d in output.newIssues && d.issue == issue ensures issue in Described(output.newIssues) {
      var i :| 0 <= i < |output.newIssues| && output.newIssues[i] == d;
      assert Described(output.newIssues)[i] == issue;
    }
    if request.decisions.Some? {
      var items := request.decisions.value.resolutions;
      forall r | r in items && r.issue == issue ensures issue in Issues(items) {
        var i :| 0 <= i < |items| && items[i] == r;
        assert Issues(items)[i] == issue;
      }
    }
  }

  /** The three rule groups, together and in full. */
  lemma ValidMeaning(output: TurnOutput, request: Request)
    ensures ValidateTurn(output, request).Valid? <==>
            && (request.turnNumber == 1 ==>
                  && output.delegation.invoke.NoReviewer?
                  && forall i :: 0 <= i < |output.resolutions| ==>
                       && output.resolutions[i].disposition.Resolved?
                       && exists f :: f in request.synthesis.findings && f.id == output.resolutions[i].issue
                            && (f.severity.Info? || f.severity.Minor?))
            && (request.decisions.Some? ==>
                  forall k :: k in output.delegation.openIssues ==>
                    && (forall i :: 0 <= i < |output.resolutions| ==> !Closes(output.resolutions[i], k))
                    && (LastSaysSettled(request.decisions.value.resolutions, k) ==>
                          exists i :: 0 <= i < |output.resolutions| && output.resolutions[i].issue == k
                            && output.resolutions[i].disposition == Reopened))
            && (forall k :: k in output.delegation.openIssues ==> HasSource(output, request, k))
  {
    RuleGroups(output, request);
    OpeningMeaning(output, request.synthesis);
    forall k ensures HasSource(output, request, k) <==> Known(request, k) || k in Described(output.newIssues) {
      HasSourceIff(output, request, k);
    }
    if request.decisions.Some? {
      forall k ensures SettledIn(request.decisions.value.resolutions, k)
                  <==> LastSaysSettled(request.decisions.value.resolutions, k) {
        SettledInMeaning(request.decisions.value.resolutions, k);
      }
    }
  }

  lemma RuleGroups(output: TurnOutput, request: Request)
    ensures ValidateTurn(output, request).Valid? <==>
            && (request.turnNumber == 1 ==>
                  && output.delegation.invoke.NoReviewer?
                  && forall i :: 0 <= i < |output.resolutions| ==>
                       output.resolutions[i].disposition.Resolved?
                       && Fenceable(request.synthesis, output.resolutions[i].issue))
            && (request.decisions.Some? ==>
                  && !SettlesOpen(output)
                  && forall k :: k in output.delegation.openIssues && SettledIn(request.decisions.value.resolutions, k)
                       ==> Drafted(output.resolutions, k, Reopened))
            && (forall k :: k in output.delegation.openIssues ==> Known(request, k) || k in Described(output.newIssues))
  {
    FenceMeaning(output.resolutions, request.synthesis);
    DescribedMeaning(output.delegation.openIssues, output, request);
    if request.decisions.Some? {
      ReappearingMeaning(output.delegation.openIssues, output.resolutions, request.decisions.value);
    }
  }
}

module Dialogue {
  import opened Common
  import opened OrderedDict
  import opened Facilitator
  import opened Records
  import opened Turns
  import opened TurnRules

  /** The open list never contradicts the recorded dispositions. */
  ghost predicate Consistent(turns: seq<TurnRecord>) {
    forall k :: k in OpenList(turns) ==> !SettledIn(AllResolutions(turns), k)
  }

  /** One PO action after the opening turn. A delegated turn (reviewers or a
      re-synthesis ran) is answered by a second, final facilitator output over
      the fresh synthesis. */
  datatype Action =
    | Accept
    | Single(message: string, out: TurnOutput)
    | Delegated(message: string, first: TurnOutput, final: TurnOutput, renewed: SynthesisReport)

  datatype Transcript = Transcript(turns: seq<TurnRecord>, versions: seq<SynthesisReport>)

  function RecordOf(n: nat, a: Action): TurnRecord {
    match a
    case Accept => AcceptanceTurn(n)
    case Single(m, out) => MessageTurn(n, m, out, None, Continue, [], None)
    case Delegated(m, first, final, renewed) => MessageTurn(n, m, final, Some(first.reply), Continue, [], Some(renewed))
  }

  /** The row says, as turn n, what this output says: its reply, its delegation,
      its new issues, and its drafts under the turn's number. */
  predicate Speaks(row: TurnRecord, n: nat, message: string, out: TurnOutput, rationale: Option<string>) {
    && row.number == n && row.poMessage == Some(message) && !row.poAccepted
    && row.reply == Some(out.reply) && row.rationale == rationale && row.delegation == Some(out.delegation)
    && row.newIssues == out.newIssues && |row.resolutions| == |out.resolutions|
    && forall i :: 0 <= i < |out.resolutions| ==>
         row.resolutions[i] == Resolution(out.resolutions[i].issue, out.resolutions[i].disposition,
                                          out.resolutions[i].explanation, n)
  }

  /** Turn ten parks; before it a turn finalizes that leaves nothing open and asks nobody. */
  predicate GatesTo(outcome: Outcome, count: nat, out: TurnOutput) {
    && (outcome.Park? <==> count >= 10)
    && (outcome.Finalize? <==>
          count < 10 && |out.delegation.openIssues| == 0 && out.delegation.invoke == NoReviewer)
  }

  lemma GateMeaning(count: nat, out: TurnOutput)
    ensures GatesTo(EvaluateGate(count, out.delegation), count, out)
  {
  }

  /** The same words, whatever the outcome and the artifacts. */
  predicate SameWords(row: TurnRecord, record: TurnRecord) {
    row == record.(outcome := row.outcome, produced := row.produced, synthesis := row.synthesis)
  }

  /** An acceptance finalizes without a word, a plain turn records its output, a
      delegated one the final output, with the first reply as its rationale. */
  lemma RecordMeaning(row: TurnRecord, n: nat, a: Action)
    ensures a.Accept? ==> RecordOf(n, a) == TurnRecord(n, None, true, None, None, None, [], [], Finalize, [], None)
    ensures a.Single? ==>
              (SameWords(row, RecordOf(n, a)) <==> Speaks(row, n, a.message, a.out, None))
              && RecordOf(n, a).synthesis == None
    ensures a.Delegated? ==>
              (SameWords(row, RecordOf(n, a)) <==> Speaks(row, n, a.message, a.final, Some(a.first.reply)))
              && RecordOf(n, a).synthesis == Some(a.renewed)
  {
    if a.Single? && Speaks(row, n, a.message, a.out, None) {
      assert row.resolutions == RecordOf(n, a).resolutions;
    }
    if a.Delegated? && Speaks(row, n, a.message, a.final, Some(a.first.reply)) {
      assert row.resolutions == RecordOf(n, a).resolutions;
    }
  }

  function Extend(t: Transcript, a: Action): Transcript {
    Transcript(t.turns + [RecordOf(|t.turns| + 1, a)], if a.Delegated? then t.versions + [a.renewed] else t.versions)
  }

  predicate Delegates(out: TurnOutput) { !out.delegation.invoke.NoReviewer? || out.delegation.reusePrevious }

  /** Every output that enters the transcript passed the schema and the turn
      rules; `n` is the facilitator turn number shown to the model. */
  ghost predicate ValidAction(t: Transcript, a: Action, n: nat)
    requires t.turns != [] && t.versions != []
  {
    var latest := t.versions[|t.versions| - 1];
    var prior := DecisionsOf(t.turns);
    match a
    case Accept => true
    case Single(_, out) =>
      n > 1 && ValidOutput(out) && !Delegates(out) && ValidateTurn(out, Request(n, latest, prior)).Valid?
    case Delegated(_, first, final, renewed) =>
      && n > 1 && ValidOutput(first) && ValidOutput(final) && Delegates(first)
      && ValidateTurn(first, Request(n, latest, prior)).Valid?
      && ValidateTurn(final, Request(n, renewed, Some(MergedDecisions(prior, first, |t.turns| + 1)))).Valid?
  }

  // -- the D18 rule over whole dialogues -----------------------------------------

  lemma {:induction false} StampedMentions(drafts: seq<Draft>, n: nat, k: IssueId)
    ensures k in Issues(Stamped(drafts, n)) <==> Mentioned(drafts, k)
    ensures Recorded(Stamped(drafts, n), k).Some? ==>
              exists i :: 0 <= i < |drafts| && drafts[i].issue == k
                  && drafts[i].disposition == Recorded(Stamped(drafts, n), k).value.disposition
  {
    var s := Stamped(drafts, n);
    if k in Issues(s) {
      var i :| 0 <= i < |s| && Issues(s)[i] == k;
      assert drafts[i].issue == k;
      assert Entry(k, Recorded(s, k).value) in Record(s);
      var j :| 0 <= j < |s| && Record(s)[j] == Entry(k, Recorded(s, k).value);
      assert drafts[j].issue == k && drafts[j].disposition == s[j].disposition;
    }
    if Mentioned(drafts, k) {
      var i :| 0 <= i < |drafts| && drafts[i].issue == k;
      assert Issues(s)[i] == k;
    }
  }

  /** After a message turn the record says of an issue what the turn said last,
      and else what it said before. */
  lemma AfterMessage(turns: seq<TurnRecord>, t: TurnRecord, drafts: seq<Draft>, k: IssueId)
    requires t.resolutions == Stamped(drafts, t.number)
    ensures Recorded(AllResolutions(turns + [t]), k)
         == if Mentioned(drafts, k) then Recorded(t.resolutions, k) else Recorded(AllResolutions(turns), k)
  {
    assert (turns + [t])[..|turns|] == turns;
    RecordedConcat(AllResolutions(turns), t.resolutions, k);
    StampedMentions(drafts, t.number, k);
  }

  /** A plain turn always leaves a consistent record, whatever came before. */
  lemma SingleConsistent(t: Transcript, a: Action, n: nat)
    requires t.turns != [] && t.versions != [] && a.Single? && ValidAction(t, a, n)
    ensures Consistent(Extend(t, a).turns)
  {
    var prior := DecisionsOf(t.turns);
    var row := RecordOf(|t.turns| + 1, a);
    RuleGroups(a.out, Request(n, t.versions[|t.versions| - 1], prior));
    forall k | k in a.out.delegation.openIssues ensures !SettledIn(AllResolutions(t.turns + [row]), k) {
      AfterMessage(t.turns, row, a.out.resolutions, k);
      StampedMentions(a.out.resolutions, row.number, k);
      LatestMeaning(AllResolutions(t.turns));
    }
  }

  lemma AcceptConsistent(t: Transcript)
    ensures Consistent(Extend(t, Accept).turns) <==> Consistent(t.turns)
  {
    var row := AcceptanceTurn(|t.turns| + 1);
    assert Extend(t, Accept).turns[..|t.turns|] == t.turns;
    assert OpenList(Extend(t, Accept).turns) == OpenList(t.turns);
    assert AllResolutions(Extend(t, Accept).turns) == AllResolutions(t.turns)
        + row.resolutions == AllResolutions(t.turns);
  }

  /** The guard a delegated turn would need: what stood settled before the turn
      and stays on the final open list is spoken of by the final output. */
  ghost predicate Restates(t: Transcript, a: Action)
    requires a.Delegated?
  {
    forall k :: k in a.final.delegation.openIssues && SettledIn(AllResolutions(t.turns), k) ==>
        Mentioned(a.final.resolutions, k)
  }

  /** Exactly then is the record of a delegated turn consistent: only the final
      output's resolutions are stored, but it was checked against both. */
  lemma DelegatedConsistentIff(t: Transcript, a: Action, n: nat)
    requires t.turns != [] && t.versions != [] && a.Delegated? && ValidAction(t, a, n)
    ensures Consistent(Extend(t, a).turns) <==> Restates(t, a)
  {
    var row := RecordOf(|t.turns| + 1, a);
    var merged := MergedDecisions(DecisionsOf(t.turns), a.first, |t.turns| + 1);
    RuleGroups(a.final, Request(n, a.renewed, Some(merged)));
    assert OpenList(t.turns + [row]) == a.final.delegation.openIssues;
    forall k | k in a.final.delegation.openIssues
      ensures SettledIn(AllResolutions(t.turns + [row]), k) <==>
              SettledIn(AllResolutions(t.turns), k) && !Mentioned(a.final.resolutions, k)
    {
      AfterMessage(t.turns, row, a.final.resolutions, k);
      StampedMentions(a.final.resolutions, row.number, k);
    }
  }

  lemma MergedSays(turns: seq<TurnRecord>, first: TurnOutput, k: IssueId)
    requires turns != []
    ensures var n := |turns| + 1; var merged := MergedDecisions(DecisionsOf(turns), first, n);
      Recorded(merged.resolutions, k)
      == if Mentioned(first.resolutions, k) then Recorded(Stamped(first.resolutions, n), k)
          else Recorded(AllResolutions(turns), k)
  {
    var drafts := Stamped(first.resolutions, |turns| + 1);
    LatestIncremental(AllResolutions(turns), drafts);
    LatestMeaning(AllResolutions(turns) + drafts);
    RecordedConcat(AllResolutions(turns), drafts, k);
    StampedMentions(first.resolutions, |turns| + 1, k);
  }

  /** Restating everything the first output drafted is enough. */
  lemma RestatingDraftsSuffices(t: Transcript, a: Action, n: nat)
    requires t.turns != [] && t.versions != [] && a.Delegated? && ValidAction(t, a, n)
    requires forall k :: Mentioned(a.first.resolutions, k) ==> Mentioned(a.final.resolutions, k)
    ensures Restates(t, a)
  {
    var merged := MergedDecisions(DecisionsOf(t.turns), a.first, |t.turns| + 1);
    RuleGroups(a.final, Request(n, a.renewed, Some(merged)));
    forall k | k in a.final.delegation.openIssues && SettledIn(AllResolutions(t.turns), k)
      ensures Mentioned(a.final.resolutions, k)
    {
      MergedSays(t.turns, a.first, k);
    }
  }

  function Play(t: Transcript, acts: seq<Action>): (r: Transcript)
    ensures |r.turns| == |t.turns| + |acts| && |r.versions| >= |t.versions|
    decreases |acts|
  {
    if acts == [] then t else Extend(Play(t, acts[..|acts| - 1]), acts[|acts| - 1])
  }

  ghost predicate ValidPlay(t: Transcript, acts: seq<Action>, numbers: seq<nat>)
    requires |numbers| == |acts|
    requires t.turns != [] && t.versions != []
    decreases |acts|
  {
    acts == [] ||
    var k := |acts| - 1;
    && ValidPlay(t, acts[..k], numbers[..k])
    && ValidAction(Play(t, acts[..k]), acts[k], numbers[k])
    && (acts[k].Delegated? ==> Restates(Play(t, acts[..k]), acts[k]))
  }

  /** A transcript's versions are the ones its turns produced. */
  lemma {:induction false} PlayVersions(t: Transcript, acts: seq<Action>)
    requires t.versions == Versions(t.turns)
    ensures Play(t, acts).versions == Versions(Play(t, acts).turns)
    decreases |acts|
  {
    if acts != [] {
      var n := |acts| - 1;
      PlayVersions(t, acts[..n]);
      var before := Play(t, acts[..n]);
      assert Extend(before, acts[n]).turns[..|before.turns|] == before.turns;
    }
  }

  function Opening(out: TurnOutput, synthesis: SynthesisReport): Transcript {
    Transcript([OpeningTurn(out, [], synthesis)], [synthesis])
  }

  /** For every dialogue of validated turns, the open list agrees with the record. */
  lemma {:induction false} DialogueConsistent(opening: TurnOutput, synthesis: SynthesisReport, acts: seq<Action>,
                                              numbers: seq<nat>)
    requires |numbers| == |acts| && ValidPlay(Opening(opening, synthesis), acts, numbers)
    ensures Consistent(Play(Opening(opening, synthesis), acts).turns)
    decreases |acts|
  {
    var t0 := Opening(opening, synthesis);
    if acts == [] {
      assert t0.turns[..0] == [];
      assert AllResolutions(t0.turns) == [];
    } else {
      var k := |acts| - 1;
      DialogueConsistent(opening, synthesis, acts[..k], numbers[..k]);
      var t := Play(t0, acts[..k]);
      match acts[k] {
        case Accept => AcceptConsistent(t);
        case Single(_, _) => SingleConsistent(t, acts[k], numbers[k]);
        case Delegated(_, _, _, _) => DelegatedConsistentIff(t, acts[k], numbers[k]);
      }
    }
  }
}
