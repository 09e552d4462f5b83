/** What the turn route records: in every reachable state each turn after the
    opening one is the record of an action that the schema and the turn rules
    let through, so what holds of dialogues holds of the machine. */
module LifecycleDialogue {
  import opened Artifacts
  import opened Common
  import opened Facilitator
  import opened Records
  import opened Turns
  import opened Dialogue
  import opened Lifecycle
  import opened LifecycleInvariant
  import FinalReview
  import LifecycleSteps
  import LifecycleTheorems
  import TurnRules

  // -- one consultation -----------------------------------------------------------------

  /** The row tells what the consulted outside world answered. A plain output, or
      the final output of a delegated turn, is recorded; whatever it says passed
      the schema and the turn rules. */
  predicate Retells(count: nat, turns: seq<TurnRecord>, message: string, ch: Choice, row: TurnRecord) {
    var n, decisions := NextNumber(turns), DecisionsOf(turns);
    match ch
    case Spoken(latest, out, _) =>
      && Speaks(row, n, message, out, None) && row.produced == [] && row.synthesis == None
      && GatesTo(row.outcome, count, out)
      && out.delegation.invoke == NoReviewer && !out.delegation.reusePrevious
      && ValidReport(latest) && Passes(out, count, latest, decisions)
    case Delegated(latest, first, out, reviews, renewed, synthesis) =>
      && Speaks(row, n, message, out, Some(first.reply))
      && row.produced == reviews + [synthesis] && row.synthesis == Some(renewed)
      && GatesTo(row.outcome, count, out)
      && (first.delegation.invoke != NoReviewer || first.delegation.reusePrevious)
      && Reviewed(first.delegation.invoke, reviews) && ValidReport(latest) && ValidReport(renewed)
      && Passes(first, count, latest, decisions)
      && Passes(out, count, renewed, Some(MergedDecisions(decisions, first, n)))
    case _ => false
  }

  /** The synthesis a consultation ends on. */
  predicate EndsOn(ch: Choice, counted: Counted) {
    match ch
    case Spoken(latest, _, synthesis) => counted.synthesis == synthesis && counted.report == latest
    case Delegated(_, _, _, _, renewed, synthesis) => counted.synthesis == synthesis && counted.report == renewed
    case _ => false
  }

  /** The decision states that the calls were shown fit their model. */
  predicate FewDecisions(turns: seq<TurnRecord>, ch: Choice) {
    && (turns != [] ==> |DecisionsOf(turns).value.resolutions| <= 200)
    && (ch.Delegated? ==> |MergedDecisions(DecisionsOf(turns), ch.first, NextNumber(turns)).resolutions| <= 200)
  }

  lemma SpokenRetells(count: nat, turns: seq<TurnRecord>, message: string, ch: Choice, row: TurnRecord)
    requires ch.Spoken?
    ensures var pc := OnConsult(count, turns, message, ch);
      && (pc.InsertTurn? ==>
            Retells(count, turns, message, ch, pc.row) && FewDecisions(turns, ch) && pc.dialogue.Some?
            && pc.dialogue.value.count == count && EndsOn(ch, pc.dialogue.value))
      && (Retells(count, turns, message, ch, row) && FewDecisions(turns, ch) ==> pc.InsertTurn?)
  {
    GateMeaning(count, ch.out);
  }

  lemma DelegatedRetells(count: nat, turns: seq<TurnRecord>, message: string, ch: Choice)
    requires ch.Delegated? && OnConsult(count, turns, message, ch).InsertTurn?
    ensures var pc := OnConsult(count, turns, message, ch);
      && Retells(count, turns, message, ch, pc.row) && FewDecisions(turns, ch) && pc.dialogue.Some?
      && pc.dialogue.value.count == count && EndsOn(ch, pc.dialogue.value)
  {
    GateMeaning(count, ch.out);
  }

  lemma DelegatedRecords(count: nat, turns: seq<TurnRecord>, message: string, ch: Choice, row: TurnRecord)
    requires ch.Delegated? && Retells(count, turns, message, ch, row) && FewDecisions(turns, ch)
    ensures OnConsult(count, turns, message, ch).InsertTurn?
  {
  }

  /** A consultation records a turn exactly when some row can tell its answer, and
      the one it records does. */
  lemma ConsultRetells(count: nat, turns: seq<TurnRecord>, message: string, ch: Choice)
    ensures var pc := OnConsult(count, turns, message, ch);
      && (pc.InsertTurn? ==>
            Retells(count, turns, message, ch, pc.row) && FewDecisions(turns, ch) && pc.dialogue.Some?
            && pc.dialogue.value.count == count && EndsOn(ch, pc.dialogue.value))
      && (pc.InsertTurn? <==> FewDecisions(turns, ch) && exists row :: Retells(count, turns, message, ch, row))
  {
    forall row ensures Retells(count, turns, message, ch, row) && FewDecisions(turns, ch) ==>
                OnConsult(count, turns, message, ch).InsertTurn? {
      if ch.Spoken? {
        SpokenRetells(count, turns, message, ch, row);
      } else if ch.Delegated? {
        if Retells(count, turns, message, ch, row) && FewDecisions(turns, ch) {
          DelegatedRecords(count, turns, message, ch, row);
        }
      }
    }
    if ch.Spoken? {
      SpokenRetells(count, turns, message, ch, AcceptanceTurn(1));
    } else if ch.Delegated? && OnConsult(count, turns, message, ch).InsertTurn? {
      DelegatedRetells(count, turns, message, ch);
    }
  }

  /** Refused for good: an output breaks the schema or a turn rule, or the renewed
      synthesis breaks its schema. */
  predicate Refused(count: nat, turns: seq<TurnRecord>, ch: Choice) {
    var n, decisions := NextNumber(turns), DecisionsOf(turns);
    match ch
    case Spoken(latest, out, _) => !Delegates(out) && !Passes(out, count, latest, decisions)
    case Delegated(latest, first, out, reviews, renewed, _) =>
      && Delegates(first)
      && (!Passes(first, count, latest, decisions)
          || (Reviewed(first.delegation.invoke, reviews)
              && (!ValidReport(renewed)
                  || (|MergedDecisions(decisions, first, n).resolutions| <= 200
                      && !Passes(out, count, renewed, Some(MergedDecisions(decisions, first, n)))))))
    case _ => ch.Broken?
  }

  /** A consultation that records nothing: the stored synthesis does not parse, or
      it fails, for good exactly when the answer is refused or an agent is broken. */
  lemma ConsultFails(count: nat, turns: seq<TurnRecord>, message: string, ch: Choice)
    ensures var pc := OnConsult(count, turns, message, ch);
      var unread := (ch.Spoken? || ch.Delegated?) && !ValidReport(ch.latest);
      var fits := turns == [] || |DecisionsOf(turns).value.resolutions| <= 200;
      && (pc.Unlock? ==> pc.reply.ServerError? || pc.reply.Failed?) && (pc.Unlock? || pc.InsertTurn?)
      && (pc == Unlock(ServerError) <==> unread)
      && (pc == Unlock(Failed(false)) <==> ch.Broken? || (!unread && fits && Refused(count, turns, ch)))
  {
  }

  // -- a recorded turn ---------------------------------------------------------------------------

  /** The outcome that the action calls for. */
  predicate Calls(a: Action, count: nat, outcome: Outcome) {
    match a
    case Accept => outcome.Finalize?
    case Single(_, out) => GatesTo(outcome, count, out)
    case Delegated(_, _, final, _) => GatesTo(outcome, count, final)
  }

  /** The row is the record of this action, which the schema and the turn rules
      let through over the turns before it; a stamp may have dropped the version
      that a finalizing turn produced. */
  ghost predicate TellsOf(before: seq<TurnRecord>, row: TurnRecord, a: Action, latest: SynthesisReport, count: nat) {
    && before != [] && 2 <= count <= PARK_TURN && ValidReport(latest) && (a.Delegated? ==> ValidReport(a.renewed))
    && ValidAction(Transcript(before, [latest]), a, count)
    && SameWords(row, RecordOf(|before| + 1, a)) && Calls(a, count, row.outcome)
    && (row.synthesis == RecordOf(|before| + 1, a).synthesis || (row.synthesis.None? && row.outcome.Finalize?))
  }

  ghost predicate Told(before: seq<TurnRecord>, row: TurnRecord) {
    exists a, latest, count :: TellsOf(before, row, a, latest, count)
  }

  /** The opening turn settles nothing, and every later turn is told. */
  ghost predicate AllTold(turns: seq<TurnRecord>) {
    && turns != [] && turns[0].delegation.Some? && turns[0].resolutions == [] && turns[0].rationale.None?
    && forall n :: 1 <= n < |turns| ==> Told(turns[..n], turns[n])
  }

  lemma ListingTells(turns: seq<TurnRecord>, seen: Option<SessionRow>, body: Body)
    requires turns != [] && Numbered(turns)
    ensures var pc := OnListTurns(turns, seen, body); pc.InsertTurn? ==> Told(turns, pc.row)
  {
    var row := AcceptanceTurn(NextNumber(turns));
    assert TellsOf(turns, row, Accept, SynthesisReport([], []), 2);
  }

  /** The action that a consultation stands for. */
  function ActionOf(message: string, ch: Choice): Action
    requires ch.Spoken? || ch.Delegated?
  {
    if ch.Spoken? then Single(message, ch.out) else Action.Delegated(message, ch.first, ch.out, ch.renewed)
  }

  lemma RetoldIsTold(count: nat, turns: seq<TurnRecord>, message: string, ch: Choice, row: TurnRecord)
    requires turns != [] && Numbered(turns) && 2 <= count <= PARK_TURN && Retells(count, turns, message, ch, row)
    ensures Told(turns, row)
  {
    RecordMeaning(row, |turns| + 1, ActionOf(message, ch));
    assert TellsOf(turns, row, ActionOf(message, ch), ch.latest, count);
  }

  lemma ConsultTells(count: nat, turns: seq<TurnRecord>, message: string, ch: Choice)
    requires turns != [] && Numbered(turns) && 2 <= count <= PARK_TURN
    ensures var pc := OnConsult(count, turns, message, ch); pc.InsertTurn? ==> Told(turns, pc.row)
  {
    ConsultRetells(count, turns, message, ch);
    var pc := OnConsult(count, turns, message, ch);
    if pc.InsertTurn? {
      RetoldIsTold(count, turns, message, ch, pc.row);
    }
  }

  // -- a stamp changes no decision ----------------------------------------------------------------

  lemma {:induction false} SameDecisions(a: seq<TurnRecord>, b: seq<TurnRecord>)
    requires |a| == |b| && forall i :: 0 <= i < |a| ==> SameTurn(a[i], b[i])
    ensures AllResolutions(a) == AllResolutions(b) && OpenList(a) == OpenList(b) && DecisionsOf(a) == DecisionsOf(b)
  {
    if a != [] {
      assert SameTurn(a[|a| - 1], b[|b| - 1]);
      SameDecisions(a[..|a| - 1], b[..|b| - 1]);
    }
  }

  lemma SameActions(a: seq<TurnRecord>, b: seq<TurnRecord>, latest: SynthesisReport, act: Action, count: nat)
    requires a != [] && |a| == |b| && DecisionsOf(a) == DecisionsOf(b)
    ensures ValidAction(Transcript(a, [latest]), act, count) <==> ValidAction(Transcript(b, [latest]), act, count)
  {
  }

  /** The version dropped, if at all, is a finalizing turn's. */
  predicate Restamps(row: TurnRecord, after: TurnRecord) {
    SameTurn(row, after)
    && (after.synthesis == row.synthesis || (after.synthesis.None? && row.outcome.Finalize?))
  }

  lemma StillTold(before: seq<TurnRecord>, row: TurnRecord, later: seq<TurnRecord>, after: TurnRecord)
    requires Told(before, row) && Restamps(row, after)
    requires |before| == |later| && forall i :: 0 <= i < |before| ==> SameTurn(before[i], later[i])
    ensures Told(later, after)
  {
    var a, latest, count :| TellsOf(before, row, a, latest, count);
    SameDecisions(before, later);
    SameActions(before, later, latest, a, count);
    assert TellsOf(later, after, a, latest, count);
  }

  lemma StampKeepsTold(turns: seq<TurnRecord>, refs: seq<Reference>)
    requires AllTold(turns)
    ensures AllTold(StampTurn(turns, refs))
  {
    var stamped := StampTurn(turns, refs);
    assert SameTurn(turns[0], stamped[0]);
    forall n | 1 <= n < |stamped| ensures Told(stamped[..n], stamped[n]) {
      LifecycleSteps.StampParses(turns, refs, n);
      assert Told(turns[..n], turns[n]) && SameTurn(turns[n], stamped[n]);
      StillTold(turns[..n], turns[n], stamped[..n], stamped[n]);
    }
  }

  lemma OneMoreTold(turns: seq<TurnRecord>, row: TurnRecord)
    requires AllTold(turns) && Told(turns, row)
    ensures AllTold(turns + [row])
  {
    var more := turns + [row];
    forall n | 1 <= n < |more| ensures Told(more[..n], more[n]) {
      if n < |turns| {
        assert more[..n] == turns[..n] && Told(turns[..n], turns[n]);
      } else {
        assert more[..n] == turns;
      }
    }
  }

  // -- over every run -----------------------------------------------------------------------------

  /** What a request is about to insert, while it holds the lease, is told too. */
  ghost predicate Ready(c: Cell, id: RequestId)
    requires id in c.requests
  {
    c.requests[id].pc.InsertTurn? && Holds(c, id) ==> Told(c.rows.turns, c.requests[id].pc.row)
  }

  ghost predicate Telling(c: Cell) {
    AllTold(c.rows.turns) && forall id :: id in c.requests ==> Ready(c, id)
  }

  lemma ReadingTells(r: Rows, q: Request, ch: Choice)
    requires RowsOk(r) && LocalOk(r, q)
    requires !IsWrite(q.pc) && !IsStore(q.pc) && Running(q.pc) && !q.pc.Acquire? && !q.pc.Unlock?
    ensures var pc := Reading(r, q, ch); pc.InsertTurn? ==> Told(r.turns, pc.row)
  {
    if q.pc.ListTurns? {
      ListingTells(r.turns, q.pc.seen, q.body);
    } else if q.pc.Consult? {
      ConsultTells(q.pc.count, q.pc.turns, q.pc.message, ch);
    }
  }

  lemma WritingTells(r: Rows, q: Request)
    requires RowsOk(r) && LocalOk(r, q) && IsWrite(q.pc) && AllTold(r.turns)
    requires q.pc.InsertTurn? ==> Told(r.turns, q.pc.row)
    ensures var (r', pc) := Writing(r, q); AllTold(r'.turns) && !pc.InsertTurn?
  {
    if q.pc.InsertTurn? {
      InsertAppends(r.turns, q.pc.row);
      OneMoreTold(r.turns, q.pc.row);
    } else if q.pc.Stamp? {
      StampKeepsTold(r.turns, [q.pc.review] + q.pc.reports);
    }
  }

  lemma OwnWriteTells(c: Cell, id: RequestId, ch: Choice)
    requires Inv(c) && Telling(c) && id in c.requests && IsWrite(c.requests[id].pc) && Holds(c, id)
    ensures var d := Act(c, id, ch); AllTold(d.rows.turns) && Ready(d, id)
  {
    assert RequestOk(c, id) && Ready(c, id);
    LifecycleSteps.ActWrites(c, id, ch);
    WritingTells(c.rows, c.requests[id]);
  }

  lemma OwnReadTells(c: Cell, id: RequestId, ch: Choice)
    requires Inv(c) && Telling(c) && id in c.requests && Running(c.requests[id].pc)
    requires var pc := c.requests[id].pc; !IsWrite(pc) && !IsStore(pc) && !pc.Acquire? && !pc.Unlock?
    ensures var d := Act(c, id, ch); d.rows == c.rows && Ready(d, id)
  {
    assert RequestOk(c, id);
    LifecycleSteps.ActReads(c, id, ch);
    if Holds(c, id) {
      ReadingTells(c.rows, c.requests[id], ch);
    }
  }

  lemma NoInsertNext(c: Cell, id: RequestId, ch: Choice)
    requires id in c.requests
    requires var pc := c.requests[id].pc; IsStore(pc) || pc.Acquire? || pc.Unlock?
    ensures var d := Act(c, id, ch); d.rows == c.rows && !d.requests[id].pc.InsertTurn?
  {
    if IsStore(c.requests[id].pc) {
      LifecycleSteps.ActCalls(c, id, ch);
    }
  }

  /** The lease is nobody else's after a step than before it, and rows are written
      under it alone. */
  lemma OthersUnmoved(c: Cell, id: RequestId, ch: Choice, i: RequestId)
    requires id in c.requests && Running(c.requests[id].pc) && (IsWrite(c.requests[id].pc) ==> Holds(c, id))
    requires i in c.requests && i != id && Ready(c, i)
    ensures var d := Act(c, id, ch); i in d.requests && Ready(d, i)
  {
    var pc := c.requests[id].pc;
    if IsWrite(pc) {
      LifecycleSteps.ActWrites(c, id, ch);
    } else if IsStore(pc) {
      LifecycleSteps.ActCalls(c, id, ch);
    } else if !pc.Acquire? && !pc.Unlock? {
      LifecycleSteps.ActReads(c, id, ch);
    }
  }

  lemma ActTells(c: Cell, id: RequestId, ch: Choice)
    requires Inv(c) && Telling(c) && id in c.requests && Running(c.requests[id].pc)
    requires IsWrite(c.requests[id].pc) ==> Holds(c, id)
    ensures Telling(Act(c, id, ch))
  {
    var d, pc := Act(c, id, ch), c.requests[id].pc;
    if IsWrite(pc) {
      OwnWriteTells(c, id, ch);
    } else if IsStore(pc) || pc.Acquire? || pc.Unlock? {
      NoInsertNext(c, id, ch);
    } else {
      OwnReadTells(c, id, ch);
    }
    forall i | i in d.requests ensures Ready(d, i) {
      if i != id {
        OthersUnmoved(c, id, ch, i);
      }
    }
  }

  lemma StepTells(c: Cell, e: Event)
    requires Inv(c) && Telling(c) && Enabled(c, e) && Punctual(c, e)
    ensures Telling(Step(c, e))
  {
    if e.Advance? {
      ActTells(c, e.id, e.choice);
    } else {
      var d := Step(c, e);
      forall i | i in d.requests ensures Ready(d, i) {
        assert i in c.requests ==> Ready(c, i);
      }
    }
  }

  lemma {:induction false} RunTells(c: Cell, es: seq<Event>)
    requires Inv(c) && Telling(c) && Possible(c, es) && AllPunctual(c, es)
    ensures Telling(Run(c, es))
    decreases |es|
  {
    if es != [] {
      StepTells(c, es[0]);
      LifecycleSteps.StepGood(c, es[0]);
      RunTells(Step(c, es[0]), es[1..]);
    }
  }

  /** In every reachable state each turn after the opening one is the record of an
      action that the schema and the turn rules let through over the turns before. */
  lemma ReachableDialogue(c: Cell, es: seq<Event>)
    requires NewSession(c) && Possible(c, es) && AllPunctual(c, es)
    ensures AllTold(Run(c, es).rows.turns)
  {
    LifecycleSteps.NewSessionInv(c);
    RunTells(c, es);
  }

  // -- so the record never contradicts the open list -----------------------------------------------

  /** A delegated turn speaks of whatever stood settled and stays open. */
  ghost predicate RowRestates(before: seq<TurnRecord>, row: TurnRecord) {
    row.rationale.Some? && row.delegation.Some? ==>
      forall k :: k in row.delegation.value.openIssues && SettledIn(AllResolutions(before), k) ==>
        exists i :: 0 <= i < |row.resolutions| && row.resolutions[i].issue == k
  }

  lemma RowMentions(row: TurnRecord, n: nat, message: string, out: TurnOutput, rationale: Option<string>, k: IssueId)
    requires Speaks(row, n, message, out, rationale)
    ensures TurnRules.Mentioned(out.resolutions, k) <==>
            exists i :: 0 <= i < |row.resolutions| && row.resolutions[i].issue == k
  {
    if TurnRules.Mentioned(out.resolutions, k) {
      var i :| 0 <= i < |out.resolutions| && out.resolutions[i].issue == k;
      assert row.resolutions[i].issue == k;
    }
    if i :| 0 <= i < |row.resolutions| && row.resolutions[i].issue == k {
      assert out.resolutions[i].issue == k;
    }
  }

  lemma ToldDelegated(before: seq<TurnRecord>, row: TurnRecord, a: Action, latest: SynthesisReport, count: nat)
    requires TellsOf(before, row, a, latest, count) && a.Delegated?
    ensures Consistent(Extend(Transcript(before, [latest]), a).turns) <==> RowRestates(before, row)
  {
    DelegatedConsistentIff(Transcript(before, [latest]), a, count);
    RecordMeaning(row, |before| + 1, a);
    forall k ensures TurnRules.Mentioned(a.final.resolutions, k) <==>
                     exists i :: 0 <= i < |row.resolutions| && row.resolutions[i].issue == k {
      RowMentions(row, |before| + 1, a.message, a.final, Some(a.first.reply), k);
    }
  }

  lemma DecisionsGrow(before: seq<TurnRecord>, row: TurnRecord)
    ensures AllResolutions(before + [row]) == AllResolutions(before) + row.resolutions
    ensures OpenList(before + [row])
         == if row.delegation.Some? then row.delegation.value.openIssues else OpenList(before)
  {
    assert (before + [row])[..|before|] == before;
  }

  lemma SameWordsConsistent(before: seq<TurnRecord>, row: TurnRecord, record: TurnRecord)
    requires SameWords(row, record)
    ensures Consistent(before + [row]) <==> Consistent(before + [record])
  {
    DecisionsGrow(before, row);
    DecisionsGrow(before, record);
  }

  lemma ToldConsistent(before: seq<TurnRecord>, row: TurnRecord)
    requires Told(before, row) && Consistent(before)
    ensures Consistent(before + [row]) <==> RowRestates(before, row)
  {
    var a, latest, count :| TellsOf(before, row, a, latest, count);
    var t := Transcript(before, [latest]);
    SameWordsConsistent(before, row, RecordOf(|before| + 1, a));
    match a {
      case Accept => AcceptConsistent(t);
      case Single(_, _) => SingleConsistent(t, a, count);
      case Delegated(_, _, _, _) => ToldDelegated(before, row, a, latest, count);
    }
  }

  ghost predicate AllConsistent(turns: seq<TurnRecord>) {
    forall n :: 1 <= n <= |turns| ==> Consistent(turns[..n])
  }

  ghost predicate AllRestate(turns: seq<TurnRecord>) {
    forall n :: 1 <= n < |turns| ==> RowRestates(turns[..n], turns[n])
  }

  lemma OneMoreConsistent(turns: seq<TurnRecord>, row: TurnRecord)
    ensures AllConsistent(turns + [row]) <==> AllConsistent(turns) && Consistent(turns + [row])
  {
    var more := turns + [row];
    assert forall n :: 1 <= n <= |turns| ==> more[..n] == turns[..n];
    assert more[..|more|] == more;
    assert AllConsistent(more) ==> Consistent(more[..|more|]);
    forall n | 1 <= n <= |turns| && AllConsistent(more) ensures Consistent(turns[..n]) {
      assert Consistent(more[..n]);
    }
  }

  lemma OneMoreRestates(turns: seq<TurnRecord>, row: TurnRecord)
    requires turns != []
    ensures AllRestate(turns + [row]) <==> AllRestate(turns) && RowRestates(turns, row)
  {
    var more := turns + [row];
    assert more[..|turns|] == turns && more[|turns|] == row;
    assert forall n :: 1 <= n < |turns| ==> more[..n] == turns[..n] && more[n] == turns[n];
  }

  lemma OneLessTold(turns: seq<TurnRecord>, row: TurnRecord)
    requires AllTold(turns + [row]) && turns != []
    ensures AllTold(turns) && Told(turns, row)
  {
    var more := turns + [row];
    assert more[..|turns|] == turns && Told(more[..|turns|], more[|turns|]);
    forall n | 1 <= n < |turns| ensures Told(turns[..n], turns[n]) {
      assert more[..n] == turns[..n] && Told(more[..n], more[n]);
    }
  }

  lemma LastConsistent(turns: seq<TurnRecord>)
    requires turns != [] && AllConsistent(turns)
    ensures Consistent(turns)
  {
    assert turns[..|turns|] == turns && Consistent(turns[..|turns|]);
  }

  lemma OneMoreAgrees(turns: seq<TurnRecord>, row: TurnRecord)
    requires turns != [] && Told(turns, row)
    requires AllConsistent(turns) <==> AllRestate(turns)
    ensures AllConsistent(turns + [row]) <==> AllRestate(turns + [row])
  {
    OneMoreConsistent(turns, row);
    OneMoreRestates(turns, row);
    if AllConsistent(turns) {
      LastConsistent(turns);
      ToldConsistent(turns, row);
    }
  }

  /** The record agrees with the open list after every turn exactly when every
      delegated turn restates what it keeps open. */
  lemma {:induction false} ToldDialogueConsistentIff(turns: seq<TurnRecord>)
    requires AllTold(turns)
    ensures AllConsistent(turns) <==> AllRestate(turns)
  {
    if |turns| == 1 {
      OpeningConsistent(turns);
    } else {
      var init, last := turns[..|turns| - 1], turns[|turns| - 1];
      assert init + [last] == turns;
      OneLessTold(init, last);
      ToldDialogueConsistentIff(init);
      OneMoreAgrees(init, last);
    }
  }

  lemma OpeningConsistent(turns: seq<TurnRecord>)
    requires AllTold(turns) && |turns| == 1
    ensures AllConsistent(turns)
  {
    assert turns[..1] == turns && turns[..0] == [];
    assert AllResolutions(turns[..0]) == [] && AllResolutions(turns) == [];
  }

  /** So in every reachable state the final validator finds no contradiction, over
      any synthesis versions, if the delegated turns restate what they keep open. */
  lemma RecordsNeverContradict(c: Cell, es: seq<Event>, versions: seq<SynthesisReport>)
    requires NewSession(c) && Possible(c, es) && AllPunctual(c, es)
    requires var turns := Run(c, es).rows.turns;
      |OpenList(turns)| <= 100 && AllRestate(turns)
    ensures var turns := Run(c, es).rows.turns;
      turns != [] && Consistent(turns)
      && FinalReview.Judge(FinalReview.BuildReview(versions, turns)) != Some(FinalReview.Contradicts)
  {
    var turns := Run(c, es).rows.turns;
    ReachableDialogue(c, es);
    ToldDialogueConsistentIff(turns);
    LastConsistent(turns);
    FinalReview.ReviewVerdict(versions, turns);
  }
}
