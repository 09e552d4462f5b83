/** The three routes as the statements they are (turns_flow.py, finalization.py,
    finalize_api.py, abandon_api.py), over one session's rows. A request that
    nobody disturbs does, statement by statement, what the step machine does,
    and holds the lease whenever it writes. */
module LifecycleRoutes {
  import opened Common
  import opened Artifacts
  import opened Records
  import opened Turns
  import opened Idempotency
  import opened Lifecycle
  import opened LifecycleInvariant
  import Lease
  import LifecycleDialogue
  import LifecycleSteps
  import LifecycleTheorems

  /** One request alone: the other requests it shares the cell with, what the
      outside world answers to its k-th step, and a record of the cells that are
      reached after k steps. */
  datatype Recorder = Recorder(id: RequestId, others: map<RequestId, Request>, world: nat -> Choice,
      ghost reached: (nat, Cell) -> bool)

  predicate MayMove(c: Cell, id: RequestId) {
    id in c.requests && Running(c.requests[id].pc) && (IsWrite(c.requests[id].pc) ==> Holds(c, id))
  }

  ghost predicate Extends(t: Recorder) {
    forall k: nat, c: Cell {:trigger Act(c, t.id, t.world(k))} ::
      t.reached(k, c) && MayMove(c, t.id) ==> t.reached(k + 1, Act(c, t.id, t.world(k)))
  }

  /** A record that every punctual step of the request extends. */
  type Track = t: Recorder | Extends(t)
    ghost witness Recorder(0, map[], (k: nat) => Unavailable, (k: nat, c: Cell) => true)

  lemma Moves(t: Track, k: nat, c: Cell, d: Cell)
    requires t.reached(k, c) && MayMove(c, t.id) && Act(c, t.id, t.world(k)) == d
    ensures t.reached(k + 1, d)
  {
  }

  // -- runs of one request alone -------------------------------------------------------------

  ghost predicate OwnSteps(es: seq<Event>, id: RequestId, world: nat -> Choice) {
    forall i :: 0 <= i < |es| ==> es[i] == Advance(id, world(i))
  }

  /** After these k steps of its own, each write under the lease, the cell is d. */
  ghost predicate Alone(c: Cell, id: RequestId, world: nat -> Choice, k: nat, d: Cell) {
    exists es: seq<Event> :: |es| == k && OwnSteps(es, id, world) && Possible(c, es) && AllPunctual(c, es)
        && Run(c, es) == d
  }

  /** The record that runs of the step machine provide. */
  ghost function RunsFrom(start: Cell, id: RequestId, world: nat -> Choice): (nat, Cell) -> bool {
    (k: nat, c: Cell) => Alone(start, id, world, k, c)
  }

  lemma OneMoreStep(start: Cell, es: seq<Event>, id: RequestId, world: nat -> Choice)
    requires OwnSteps(es, id, world) && Possible(start, es) && AllPunctual(start, es) && MayMove(Run(start, es), id)
    ensures Alone(start, id, world, |es| + 1, Act(Run(start, es), id, world(|es|)))
  {
    var e := Advance(id, world(|es|));
    var more := es + [e];
    forall i: nat | i < |more| ensures more[i] == Advance(id, world(i)) {
      if i < |es| {
        assert more[i] == es[i];
      }
    }
    LifecycleTheorems.RunExtends(start, es, e);
    LifecycleTheorems.RunTail(start, es, [e]);
    assert [e][1..] == [];
    assert |more| == |es| + 1 && OwnSteps(more, id, world);
  }

  /** So what the routes do alone is a run of the machine in which every writer
      holds its lease. */
  lemma RunsExtend(start: Cell, id: RequestId, others: map<RequestId, Request>, world: nat -> Choice)
    ensures Extends(Recorder(id, others, world, RunsFrom(start, id, world)))
    ensures RunsFrom(start, id, world)(0, start)
  {
    forall k: nat, c: Cell | Alone(start, id, world, k, c) && MayMove(c, id)
        ensures Alone(start, id, world, k + 1, Act(c, id, world(k))) {
      var es: seq<Event> :| |es| == k && OwnSteps(es, id, world) && Possible(start, es) && AllPunctual(start, es)
          && Run(start, es) == c;
      OneMoreStep(start, es, id, world);
    }
    var none: seq<Event> := [];
    assert |none| == 0 && OwnSteps(none, id, world) && Possible(start, none) && Run(start, none) == start;
  }

  /** Alone, a request has the lease from its acquisition to its unlock. */
  predicate Covered(c: Cell, id: RequestId) {
    id in c.requests && var pc := c.requests[id].pc; !LifecycleTheorems.Asserted(pc) && (Held(pc) ==> Holds(c, id))
  }

  lemma CoveredStep(c: Cell, id: RequestId, ch: Choice)
    requires Inv(c) && Covered(c, id) && Running(c.requests[id].pc)
    ensures Covered(Act(c, id, ch), id)
  {
    LifecycleTheorems.AssertsIff(c, id, ch);
    LeaseKept(c, id, ch);
  }

  lemma LeaseKept(c: Cell, id: RequestId, ch: Choice)
    requires id in c.requests && Running(c.requests[id].pc) && (Held(c.requests[id].pc) ==> Holds(c, id))
    ensures var d := Act(c, id, ch); Held(d.requests[id].pc) ==> Holds(d, id)
  {
  }

  /** A request that is served alone never fails an assertion. */
  lemma {:induction false} AloneNeverAsserts(c: Cell, es: seq<Event>, id: RequestId)
    requires Inv(c) && Covered(c, id) && Possible(c, es) && AllPunctual(c, es) && forall e :: e in es ==>
            e.Advance? && e.id == id
    ensures Covered(Run(c, es), id)
    decreases |es|
  {
    if es != [] {
      assert es[0] in es;
      CoveredStep(c, id, es[0].choice);
      LifecycleSteps.StepGood(c, es[0]);
      AloneNeverAsserts(Step(c, es[0]), es[1..], id);
    }
  }

  /** What holds once a request has been served alone. */
  lemma AloneMeaning(c: Cell, id: RequestId, world: nat -> Choice, k: nat, d: Cell)
    requires Inv(c) && Covered(c, id) && Alone(c, id, world, k, d)
    ensures Inv(d) && Evolves(c, d) && Covered(d, id)
  {
    var es: seq<Event> :| |es| == k && OwnSteps(es, id, world) && Possible(c, es) && AllPunctual(c, es)
        && Run(c, es) == d;
    LifecycleTheorems.RunGood(c, es);
    forall e | e in es ensures e.Advance? && e.id == id {
      var i :| 0 <= i < |es| && es[i] == e;
    }
    AloneNeverAsserts(c, es, id);
  }

  predicate Held(pc: Pc) { !pc.OuterRead? && !pc.Acquire? && Running(pc) }

  // -- what the answers say -------------------------------------------------------------------

  /** The answer to a request that did not repeat a settled key says where the
      session is now. */
  predicate Ends(reply: Reply, s: SessionState) {
    match reply
    case TurnOk(x, _) => x.TurnResult? && x.state == s
    case ReportOk(_) => s.Completed?
    case ParkOk => s.Parked?
    case NotFinalizing => s.Active?
    case Failed(retryable) => if retryable then Live(s) else s.Active?
    case ServerError => Live(s)
    case AssertionFailed(_) => Live(s)
    case SessionLocked => false
    case _ => true
  }

  /** The world and the stores let an attempt at flow 3 through: the review is
      valid, new and saved, and every report is rendered from it. */
  ghost predicate Finishes(t: Track, r: Rows, s: Stores, key: nat, k: nat, job: Job) {
    WillSave(t, s, key, k, job) && AllRender(t, r, s.pins, k + 1, t.world(k).reference)
  }

  predicate WillSave(t: Track, s: Stores, key: nat, k: nat, job: Job) { Saves(s, key, job, t.world(k)) }

  predicate Saves(s: Stores, key: nat, job: Job, ch: Choice) {
    ch.Fine? && job.turns != [] && Accepts(job) && key !in s.reviews && ch.reference !in s.saved
  }

  predicate OpenTo(pins: map<Format, Pin>, f: Format, review: Reference) { f in pins ==> pins[f].review == review }

  ghost predicate AllRender(t: Track, r: Rows, pins: map<Format, Pin>, k: nat, review: Reference) {
    RenderTo(t, r.session.formats, |r.session.formats|, pins, k, review)
  }

  ghost predicate RenderTo(t: Track, formats: seq<Format>, n: nat, pins: map<Format, Pin>, k: nat, review: Reference)
    requires n <= |formats|
  {
    forall i: nat :: i < n ==> RendersAt(t, formats, i, pins, k, review)
  }

  predicate RendersAt(t: Track, formats: seq<Format>, i: nat, pins: map<Format, Pin>, k: nat, review: Reference)
    requires i < |formats|
  {
    t.world(k + i).Fine? && OpenTo(pins, formats[i], review)
  }

  /** Session, run and claim completed together, the turns stamped. */
  ghost predicate Closed(r: Rows, q: Request, job: Job, review: Reference, reply: Reply, r': Rows) {
    var reports := r'.session.reports;
    && |reports| == |r.session.formats|
    && r' == CompleteClaim(Updated(r, Update(Some(Completed), job.count, Some(review), Some(reports))), q,
        ClosingResult(job, reports))
               .(turns := StampTurn(r.turns, [review] + reports))
    && reply == if job.turn.Some? then TurnOk(ClosingResult(job, reports), job.turn.value.resolutions)
        else ReportOk(reports)
  }

  /** A session left finalizing, or rolled back; nothing else has changed. */
  predicate BrokenOff(r: Rows, reply: Reply, r': Rows) {
    (reply.Failed? || reply.ServerError?)
    && r' == r.(session := r.session.(state := if reply == Failed(false) then Active else Finalizing))
  }

  /** What an attempt from the mark on makes of the rows: it closes the session
      exactly when it finishes. */
  ghost predicate Attempted(t: Track, r: Rows, s: Stores, q: Request, k: nat, job: Job, reply: Reply, r': Rows) {
    if Finishes(t, r, s, q.key, k, job) then Closed(r, q, job, t.world(k).reference, reply, r')
        else BrokenOff(r, reply, r')
  }

  /** A turn that answers this body: an acceptance, or what the consultation
      answered, under the next facilitator number. */
  predicate Answers(before: Rows, body: Body, answer: Choice, row: TurnRecord) {
    match body
    case Message(text) =>
      LifecycleDialogue.Retells(before.session.facilitatorTurns + 1, before.turns, text, answer, row)
    case Acceptance =>
      row == TurnRecord(NextNumber(before.turns), None, true, None, None, None, [], [], Finalize, [], None)
    case Empty => false
  }

  /** The client is told this turn: its number, outcome, reply, rationale,
      delegation and resolutions, and the state that the outcome leads to. */
  predicate TellsTurn(reply: Reply, turn: TurnRecord) {
    reply.TurnOk? ==>
      && Tells(reply.canonical, turn) && reply.resolutions == turn.resolutions
      && reply.canonical.state == StateAfter(turn.outcome)
  }

  /** The recorded turns are these, stamped if the session is completed, and the
      key's claim holds the answer if there is one, else it is in progress. */
  ghost predicate Left(q: Request, base: seq<TurnRecord>, claims: map<(Route, nat), Claim<Body, Canonical>>,
                       reply: Reply, r': Rows) {
    && r'.claims == claims[ClaimKey(q) := Claim(q.body, if reply.TurnOk? then Some(reply.canonical) else None)]
    && (if r'.session.state.Completed? then
          r'.session.finalReview.Some?
          && r'.turns == StampTurn(base, [r'.session.finalReview.value] + r'.session.reports)
        else r'.turns == base)
  }

  /** A taken turn: at most one row is recorded, which answers the body, a message
      is counted, and the answer tells that row, or else the last one. */
  ghost predicate Took(q: Request, before: Rows, answer: Choice, row: Option<TurnRecord>, reply: Reply, after: Rows) {
    && (row.Some? ==> row.value.number == NextNumber(before.turns) && Answers(before, q.body, answer, row.value))
    && Ends(reply, after.session.state) && Counts(q, before, row, after)
    && var turns := if row.Some? then Records.InsertTurn(before.turns, row.value) else before.turns;
       Left(q, turns, before.claims, reply, after) && Told(q, answer, row, turns, reply)
  }

  predicate Counts(q: Request, before: Rows, row: Option<TurnRecord>, after: Rows) {
    after.session.facilitatorTurns == before.session.facilitatorTurns + if row.Some? && q.body.Message? then 1 else 0
  }

  predicate Told(q: Request, answer: Choice, row: Option<TurnRecord>, turns: seq<TurnRecord>, reply: Reply) {
    && (reply.TurnOk? ==> turns != [] && TellsTurn(reply, Last(turns)))
    && (reply.TurnOk? && row.Some? && q.body.Message? && (answer.Spoken? || answer.Delegated?) ==>
          reply.canonical.synthesis == answer.synthesis)
  }

  /** The next step of a message that was consulted upon: the row that tells the
      world's answer goes in, counted. */
  predicate Consulted(before: Rows, body: Body, answer: Choice, next: Pc) {
    && next.InsertTurn? && next.dialogue.Some? && next.row.number == NextNumber(before.turns)
    && next.dialogue.value.count == before.session.facilitatorTurns + 1
    && ((answer.Spoken? || answer.Delegated?) ==> next.dialogue.value.synthesis == answer.synthesis)
    && Answers(before, body, answer, next.row)
  }

  lemma ConsultAnswers(before: Rows, text: string, answer: Choice)
    ensures var next := OnConsult(before.session.facilitatorTurns + 1, before.turns, text, answer);
      && (next.InsertTurn? <==> Consulted(before, Message(text), answer, next))
      && (!next.InsertTurn? ==> next.Unlock? && (next.reply.Failed? || next.reply.ServerError?))
  {
    LifecycleDialogue.ConsultRetells(before.session.facilitatorTurns + 1, before.turns, text, answer);
    LifecycleSteps.ConsultMeaning(before.session.facilitatorTurns + 1, before.turns, text, answer);
  }

  /** A message whose consultation records a row has taken that turn. */
  lemma MessageTook(q: Request, before: Rows, answer: Choice, next: Pc, reply: Reply, after: Rows)
    requires q.body.Message? && Consulted(before, q.body, answer, next)
    requires after.session.facilitatorTurns == next.dialogue.value.count
    requires reply.TurnOk? ==> reply.canonical.TurnResult?
    requires reply.TurnOk? ==> reply.canonical.synthesis == next.dialogue.value.synthesis
    requires Ends(reply, after.session.state) && TellsTurn(reply, next.row)
    requires Left(q, Records.InsertTurn(before.turns, next.row), before.claims, reply, after)
    ensures Took(q, before, answer, Some(next.row), reply, after)
  {
    NextIsLast(before.turns, next.row);
  }

  lemma NextIsLast(turns: seq<TurnRecord>, row: TurnRecord)
    requires row.number == NextNumber(turns)
    ensures var more := Records.InsertTurn(turns, row);
      more == turns + [row] && Last(more) == row && Stored(more, row.number) == Some(row)
  {
  }

  lemma AttemptLeaves(t: Track, r: Rows, s: Stores, q: Request, k: nat, job: Job, reply: Reply, r': Rows)
    requires Attempted(t, r, s, q, k, job, reply, r') && Mine(r, q) && job.turn.Some?
    ensures Left(q, r.turns, r.claims, reply, r')
  {
    assert r.claims[ClaimKey(q) := Claim(q.body, None)] == r.claims;
  }

  lemma AttemptTells(t: Track, r: Rows, s: Stores, q: Request, k: nat, job: Job, reply: Reply, r': Rows)
    requires Attempted(t, r, s, q, k, job, reply, r')
    requires job.count.Some? ==> job.count.value == r.session.facilitatorTurns
    ensures r'.session.facilitatorTurns == r.session.facilitatorTurns
    ensures job.turn.Some? && job.turn.value.outcome.Finalize? ==> TellsTurn(reply, job.turn.value)
    ensures job.turn.Some? && reply.TurnOk? ==>
              reply.canonical.TurnResult? && reply.canonical.synthesis == job.synthesis
  {
  }

  function StateAfter(outcome: Outcome): SessionState {
    match outcome
    case Continue => Active
    case Park => Parked
    case Finalize => Completed
  }

  lemma SettleLeaves(r: Rows, q: Request, t: TurnRecord, outcome: Outcome, counted: Counted, reply: Reply, r': Rows)
    requires Mine(r, q) && r.session.state.Active? && !outcome.Finalize?
    requires r' == OnSettle(r, q, t, outcome, counted).0
    requires reply == TurnOk(SettledResult(t, outcome, counted.synthesis), t.resolutions)
    ensures Left(q, r.turns, r.claims, reply, r') && r'.session.state == StateAfter(outcome)
    ensures Ends(reply, r'.session.state)
    ensures t.outcome == outcome ==> TellsTurn(reply, t)
  {
  }

  lemma NothingLeft(q: Request, r: Rows, reply: Reply)
    requires Mine(r, q) && !reply.TurnOk? && !r.session.state.Completed?
    ensures Left(q, r.turns, r.claims, reply, r)
  {
    assert r.claims[ClaimKey(q) := Claim(q.body, None)] == r.claims;
  }

  /** A message that records nothing. */
  lemma NothingTook(q: Request, r: Rows, answer: Choice, reply: Reply)
    requires Mine(r, q) && !reply.TurnOk? && !r.session.state.Completed? && Ends(reply, r.session.state)
    ensures Took(q, r, answer, None, reply, r)
  {
    NothingLeft(q, r, reply);
  }

  lemma LeftAfterClaim(q: Request, base: seq<TurnRecord>, claims: map<(Route, nat), Claim<Body, Canonical>>,
                       reply: Reply, r': Rows)
    requires Left(q, base, claims[ClaimKey(q) := Claim(q.body, None)], reply, r')
    ensures Left(q, base, claims, reply, r')
  {
  }

  lemma TookAfterClaim(q: Request, r: Rows, claimed: Rows, answer: Choice, row: Option<TurnRecord>, reply: Reply,
                       r': Rows)
    requires claimed == r.(claims := r.claims[ClaimKey(q) := Claim(q.body, None)])
    requires Took(q, claimed, answer, row, reply, r')
    ensures Took(q, r, answer, row, reply, r')
  {
    var turns := if row.Some? then Records.InsertTurn(r.turns, row.value) else r.turns;
    LeftAfterClaim(q, turns, r.claims, reply, r');
  }

  /** Refused: everything is left as it was, and the claim is forgotten. */
  predicate Forgets(q: Request, before: Rows, reply: Reply, after: Rows) {
    reply == ReadOnly && after == before.(claims := before.claims - {ClaimKey(q)})
  }

  /** Session and run parked, and the claim completed. */
  function ParkedBy(before: Rows, q: Request): Rows {
    Rows(before.session.(state := Parked), Parked, before.turns,
         before.claims[ClaimKey(q) := Claim(q.body, Some(ParkResult))])
  }

  /** What the abandon route does under the lease, by the key and the session it
      meets: reused, replayed, parked, or refused and forgotten. */
  predicate Parks(q: Request, before: Rows, reply: Reply, after: Rows) {
    var row := Lookup(before.claims, ClaimKey(q));
    if row.Some? && row.value.fingerprint != q.body then reply == ReusedKey && after == before
    else if row.Some? && row.value.response.Some? then
      reply == (if row.value.response.value.ParkResult? then ParkOk else ServerError) && after == before
    else if Live(before.session.state) then reply == ParkOk && after == ParkedBy(before, q)
    else Forgets(q, before, reply, after)
  }

  /** What a turn request does under the lease: reused, replayed unchanged,
      refused and forgotten, or answered by where the session then is. */
  ghost predicate Serves(q: Request, before: Rows, world: nat -> Choice, reply: Reply, after: Rows) {
    var row := Lookup(before.claims, ClaimKey(q));
    if row.Some? && row.value.fingerprint != q.body then reply == ReusedKey && after == before
    else if row.Some? && row.value.response.Some? then
      && after == before
      && var x := row.value.response.value;
         reply == if x.TurnResult? then OnReadTurn(before, x).reply else ServerError
    else if before.session.state.Active? || (before.session.state.Finalizing? && row.Some?) then
      exists turn, k: nat :: Took(q, before, world(k), turn, reply, after)
    else Forgets(q, before, reply, after)
  }

  /** The key is in nobody's way: new, or claimed for this body and unfinished. */
  predicate Claimable(q: Request, before: Rows, claimed: Rows) {
    && (ClaimKey(q) in before.claims ==> before.claims[ClaimKey(q)] == Claim(q.body, None))
    && claimed == before.(claims := before.claims[ClaimKey(q) := Claim(q.body, None)])
  }

  lemma ParksAfterClaim(q: Request, before: Rows, claimed: Rows, reply: Reply, after: Rows)
    requires Claimable(q, before, claimed)
    requires if Live(before.session.state) then reply == ParkOk && after == ParkedBy(claimed, q)
             else Forgets(q, claimed, reply, after)
    ensures Parks(q, before, reply, after)
  {
    assert ParkedBy(claimed, q) == ParkedBy(before, q);
    assert claimed.claims - {ClaimKey(q)} == before.claims - {ClaimKey(q)};
  }

  lemma ServesAfterClaim(q: Request, before: Rows, claimed: Rows, world: nat -> Choice, reply: Reply, after: Rows)
    requires Claimable(q, before, claimed)
    requires if before.session.state.Active? || (before.session.state.Finalizing? && ClaimKey(q) in before.claims) then
               exists turn, k: nat :: Took(q, claimed, world(k), turn, reply, after)
             else Forgets(q, claimed, reply, after)
    ensures Serves(q, before, world, reply, after)
  {
    if turn, k: nat :| Took(q, claimed, world(k), turn, reply, after) {
      TookAfterClaim(q, before, claimed, world(k), turn, reply, after);
    }
    assert claimed.claims - {ClaimKey(q)} == before.claims - {ClaimKey(q)};
  }

  lemma AttemptEnds(t: Track, r: Rows, s: Stores, q: Request, k: nat, job: Job, reply: Reply, r': Rows)
    requires Attempted(t, r, s, q, k, job, reply, r')
    ensures Ends(reply, r'.session.state)
  {
  }

  /** The formats still to be rendered are pinned as they were. */
  predicate Untouched(before: map<Format, Pin>, pins: map<Format, Pin>, formats: seq<Format>, n: nat) {
    forall i :: n <= i < |formats| ==> Lookup(pins, formats[i]) == Lookup(before, formats[i])
  }

  lemma OneMorePinned(start: map<Format, Pin>, before: map<Format, Pin>, pins: map<Format, Pin>, formats: seq<Format>,
                      done: seq<Reference>, review: Reference, report: Reference)
    requires Distinct(formats) && |done| < |formats| && Untouched(start, before, formats, |done|)
    requires forall i :: 0 <= i < |done| ==> formats[i] in before && before[formats[i]] == Pin(done[i], review)
    requires OpenTo(before, formats[|done|], review) && exists r :: pins == Pinned(before, formats[|done|], r, review)
    requires pins[formats[|done|]] == Pin(report, review)
    ensures Untouched(start, pins, formats, |done| + 1)
    ensures forall i :: 0 <= i < |done + [report]| ==>
            formats[i] in pins && pins[formats[i]] == Pin((done + [report])[i], review)
  {
    assert Lookup(before, formats[|done|]) == Lookup(start, formats[|done|]);
    forall i | 0 <= i < |formats| && i != |done| ensures Lookup(pins, formats[i]) == Lookup(before, formats[i]) {
      assert formats[i] != formats[|done|];
    }
  }

  /** The next format is rendered from this review, or not all of them are. */
  lemma NextRender(t: Track, formats: seq<Format>, n: nat, start: map<Format, Pin>, before: map<Format, Pin>, k: nat,
                   review: Reference)
    requires n < |formats| && Untouched(start, before, formats, n) && RenderTo(t, formats, n, start, k, review)
    ensures if t.world(k + n).Fine? && OpenTo(before, formats[n], review) then
            RenderTo(t, formats, n + 1, start, k, review)
            else !RenderTo(t, formats, |formats|, start, k, review)
  {
    assert Lookup(before, formats[n]) == Lookup(start, formats[n]);
    assert RendersAt(t, formats, n, start, k, review) <==> t.world(k + n).Fine? && OpenTo(before, formats[n], review);
  }

  /** From the mark on, step by step. */
  lemma AttemptMeaning(t: Track, r: Rows, s: Stores, q: Request, k: nat, job: Job, marked: Rows,
                       review: Option<Reference>, reply: Reply, r': Rows)
    requires marked == r.(session := r.session.(state := Finalizing))
    requires review.Some? <==> WillSave(t, s, q.key, k, job)
    requires review.Some? ==> review.value == t.world(k).reference
    requires if review.Some? && AllRender(t, marked, s.pins, k + 1, review.value) then
            Closed(marked, q, job, review.value, reply, r')
             else BrokenOff(marked, reply, r')
    ensures Attempted(t, r, s, q, k, job, reply, r')
  {
  }

  predicate CarriedOut(ch: Choice) { ch.Fine? || ch.LostReply? || ch.Spoiled? }

  /** What the artifact store makes of a call that it carries out. */
  predicate StoredReview(s: Stores, key: nat, ch: Choice, s': Stores, review: Option<Reference>, failure: Pc)
    requires CarriedOut(ch)
  {
    var taken := key in s.reviews || ch.reference in s.saved;
    && s' == (if taken then s else Remembered(s, key, ch.reference))
    && (if !taken && ch.Fine? then review == Some(ch.reference) && failure == Unlock(Failed(true))
        else review.None? && failure == (if key in s.reviews && !ch.LostReply? then Rollback
                                         else if !taken && ch.Spoiled? then Unlock(ServerError)
                                             else Unlock(Failed(true))))
  }

  lemma SaveDecides(s: Stores, key: nat, job: Job, ch: Choice, s': Stores, review: Option<Reference>, failure: Pc)
    requires if CarriedOut(ch) && job.turns != [] && Accepts(job) then StoredReview(s, key, ch, s', review, failure)
             else s' == s && review.None? && failure == (if CarriedOut(ch) && job.turns == [] then Unlock(ServerError)
                                                         else if ch.Broken? || CarriedOut(ch) then Rollback
                                                             else Unlock(Failed(true)))
    ensures OnSave(s, key, job, ch) == (s', if review.Some? then Render(job, review.value, []) else failure)
  {
  }

  lemma MovesStore(t: Track, k: nat, c: Cell, s: Stores, pc: Pc)
    requires t.reached(k, c) && t.id in c.requests && IsStore(c.requests[t.id].pc)
    requires Storing(c.rows, c.stores, c.requests[t.id], t.world(k)) == (s, pc)
    ensures t.reached(k + 1, Goto(c.(stores := s), t.id, pc))
  {
    LifecycleSteps.ActCalls(c, t.id, t.world(k));
    Moves(t, k, c, Goto(c.(stores := s), t.id, pc));
  }

  lemma StoreCalled(t: Track, q: Request, k: nat, was: Pc, c: Cell, s: Stores, next: Pc)
    requires t.reached(k, c) && IsStore(was) && c.requests == t.others[t.id := q.(pc := was)]
    requires Storing(c.rows, c.stores, q.(pc := was), t.world(k)) == (s, next)
    ensures t.reached(k + 1, c.(stores := s, requests := t.others[t.id := q.(pc := next)]))
  {
    MovesStore(t, k, c, s, next);
    assert Goto(c.(stores := s), t.id, next) == c.(stores := s, requests := t.others[t.id := q.(pc := next)]);
  }

  lemma StoringSaves(r: Rows, s: Stores, q: Request, ch: Choice)
    requires q.pc.SaveReview?
    ensures Storing(r, s, q, ch) == OnSave(s, q.key, q.pc.job, ch)
  {
  }

  function AfterOutcome(route: Route, outcome: ClaimOutcome<Canonical>): Pc {
    match outcome
    case Claimed => AfterClaim(route, false)
    case InProgress => AfterClaim(route, true)
    case KeyReused => Unlock(ReusedKey)
    case Replay(canonical) => OnReplay(route, canonical)
  }

  /** The facilitator's answer, after the reviews and the synthesis it delegated. */
  method CallAgents(answer: Choice, r: Rows, ghost q: Request, count: nat, text: string) returns (next: Pc)
    requires count == r.session.facilitatorTurns + 1
    ensures Reading(r, q.(pc := Consult(count, r.turns, text)), answer) == next
    ensures next.InsertTurn? <==> Consulted(r, Message(text), answer, next)
    ensures !next.InsertTurn? ==> next.Unlock? && (next.reply.Failed? || next.reply.ServerError?)
  {
    ConsultAnswers(r, text, answer);
    next := OnConsult(count, r.turns, text, answer);
  }

  class SessionService {
    const now: real
    var lease: Option<Lease.Row>
    var session: SessionRow
    var run: SessionState
    var turns: seq<TurnRecord>
    var claims: map<(Route, nat), Claim<Body, Canonical>>
    var reviews: map<nat, Reference>
    var saved: set<Reference>
    var pins: map<Format, Pin>

    ghost function RowsNow(): Rows
      reads this
    {
      Rows(session, run, turns, claims)
    }

    ghost function StoresNow(): Stores
      reads this
    {
      Stores(reviews, saved, pins)
    }

    ghost function CellOf(requests: map<RequestId, Request>): Cell
      reads this
    {
      Cell(now, lease, RowsNow(), StoresNow(), requests)
    }

    ghost function Seen(t: Track, q: Request, pc: Pc): Cell
      reads this
    {
      CellOf(t.others[t.id := q.(pc := pc)])
    }

    /** After k steps of this request the rows are these, `pc` is next, and the
        request holds the lease once it has acquired it. */
    ghost predicate At(t: Track, k: nat, q: Request, pc: Pc)
      reads this
    {
      t.reached(k, Seen(t, q, pc)) && (Held(pc) ==> Lease.Holds(lease, now, t.id))
    }

    /** A read takes the request on to its next step. */
    lemma Goes(t: Track, q: Request, k: nat, was: Pc, next: Pc)
      requires At(t, k, q, was) && Running(was) && !IsWrite(was) && !IsStore(was) && !was.Acquire? && !was.Unlock?
      requires Reading(RowsNow(), q.(pc := was), t.world(k)) == next && (Held(next) ==> Held(was))
      ensures At(t, k + 1, q, next)
    {
      LifecycleSteps.ActReads(Seen(t, q, was), t.id, t.world(k));
      assert Goto(Seen(t, q, was), t.id, next) == Seen(t, q, next);
      Moves(t, k, Seen(t, q, was), Seen(t, q, next));
    }

    /** So does a write, from the rows as they were before it. */
    lemma Wrote(t: Track, q: Request, k: nat, was: Pc, r: Rows, next: Pc)
      requires t.reached(k, Seen(t, q, was).(rows := r)) && Lease.Holds(lease, now, t.id)
      requires IsWrite(was) && Writing(r, q.(pc := was)) == (RowsNow(), next)
      ensures At(t, k + 1, q, next)
    {
      var c := Seen(t, q, was).(rows := r);
      LifecycleSteps.ActWrites(c, t.id, t.world(k));
      assert Goto(c.(rows := RowsNow()), t.id, next) == Seen(t, q, next);
      Moves(t, k, c, Seen(t, q, next));
    }

    /** And a call to a store. */
    lemma Called(t: Track, q: Request, k: nat, was: Pc, s: Stores, next: Pc)
      requires t.reached(k, Seen(t, q, was).(stores := s)) && Lease.Holds(lease, now, t.id)
      requires IsStore(was) && Storing(RowsNow(), s, q.(pc := was), t.world(k)) == (StoresNow(), next)
      ensures At(t, k + 1, q, next)
    {
      StoreCalled(t, q, k, was, Seen(t, q, was).(stores := s), StoresNow(), next);
    }

    method AcquireLease(t: Track, q: Request, k: nat) returns (granted: bool)
      requires At(t, k, q, Acquire)
      modifies this`lease
      ensures granted <==> Lease.Free(old(lease), now)
      ensures !granted ==> lease == old(lease)
      ensures At(t, k + 1, q, if !granted then Done(SessionLocked)
              else if q.route.FinalizeRoute? then ReadSession(false) else ClaimInsert)
    {
      ghost var c := Seen(t, q, Acquire);
      granted := Lease.Free(lease, now);
      if granted {
        lease := Some(Lease.Row(t.id, now + Lease.TTL));
        Moves(t, k, c, Seen(t, q, if q.route.FinalizeRoute? then ReadSession(false) else ClaimInsert));
      } else {
        Moves(t, k, c, Seen(t, q, Done(SessionLocked)));
      }
    }

    method ReleaseLease(t: Track, q: Request, k: nat, reply: Reply)
      requires At(t, k, q, Unlock(reply))
      modifies this`lease
      ensures lease.None? && At(t, k + 1, q, Done(reply))
    {
      ghost var c := Seen(t, q, Unlock(reply));
      if lease.Some? && lease.value.token == t.id {
        lease := None;
      }
      Moves(t, k, c, Seen(t, q, Done(reply)));
    }

    /** The key is settled, or was used with another body. */
    predicate Repeats(q: Request, outcome: ClaimOutcome<Canonical>)
      reads this
    {
      && ClaimKey(q) in claims && outcome == Found(claims[ClaimKey(q)], q.body)
          && (outcome.KeyReused? || outcome.Replay?)
    }

    /** `idempotency.claim`: an insert, and a read when it met a row. */
    method ClaimKeyOf(t: Track, q: Request, k: nat) returns (outcome: ClaimOutcome<Canonical>, k': nat)
      requires At(t, k, q, ClaimInsert)
      modifies this`claims
      ensures k < k' && At(t, k', q, AfterOutcome(q.route, outcome))
      ensures if ClaimKey(q) in old(claims) then
              outcome == Found(old(claims)[ClaimKey(q)], q.body) && claims == old(claims)
              else outcome == Claimed && claims == old(claims)[ClaimKey(q) := Claim(q.body, None)]
      ensures if outcome.KeyReused? || outcome.Replay? then Repeats(q, outcome)
              else Claimable(q, old(RowsNow()), RowsNow()) && Mine(RowsNow(), q)
      ensures outcome.InProgress? <==> ClaimKey(q) in old(claims) && Claimable(q, old(RowsNow()), RowsNow())
    {
      ghost var r := RowsNow();
      var key := ClaimKey(q);
      if key !in claims {
        claims := claims[key := Claim(q.body, None)];
        Wrote(t, q, k, ClaimInsert, r, AfterClaim(q.route, false));
        return Claimed, k + 1;
      }
      Wrote(t, q, k, ClaimInsert, r, ClaimRead);
      outcome := Found(claims[key], q.body);
      Goes(t, q, k + 1, ClaimRead, AfterOutcome(q.route, outcome));
      k' := k + 2;
    }

    /** A key claimed on a session that no longer takes it starts clean again. */
    method RejectReadOnly(t: Track, q: Request, k: nat) returns (reply: Reply)
      requires At(t, k, q, DropClaim)
      requires ClaimKey(q) in claims && claims[ClaimKey(q)].response.None?
      modifies this`claims
      ensures reply == ReadOnly && claims == old(claims) - {ClaimKey(q)} && At(t, k + 1, q, Unlock(reply))
    {
      ghost var r := RowsNow();
      claims := Write(claims, ClaimKey(q), Dropped(Lookup(claims, ClaimKey(q))));
      reply := ReadOnly;
      Wrote(t, q, k, DropClaim, r, Unlock(reply));
    }

    method UpdateSession(u: Update)
      modifies this`session, this`run
      ensures session == UpdatedRow(old(session), u) && run == UpdatedRun(old(run), u)
    {
      session := UpdatedRow(session, u);
      if u.state.Some? && Terminal(u.state.value) {
        run := u.state.value;
      }
    }

    method CompleteKey(q: Request, canonical: Canonical)
      modifies this`claims
      ensures claims == Write(old(claims), ClaimKey(q), Fulfilled(Lookup(old(claims), ClaimKey(q)), canonical))
    {
      claims := Write(claims, ClaimKey(q), Fulfilled(Lookup(claims, ClaimKey(q)), canonical));
    }

    // -- abandon ---------------------------------------------------------------------

    method AnswerParkRepeat(t: Track, q: Request, k: nat, outcome: ClaimOutcome<Canonical>) returns (reply: Reply)
      requires q.route.AbandonRoute? && At(t, k, q, AfterOutcome(q.route, outcome)) && Repeats(q, outcome)
      ensures At(t, k, q, Unlock(reply)) && Parks(q, RowsNow(), reply, RowsNow())
    {
      match outcome {
        case KeyReused => reply := ReusedKey;
        case Replay(canonical) => reply := if canonical.ParkResult? then ParkOk else ServerError;
      }
    }

    method ParkSession(t: Track, q: Request, k: nat) returns (reply: Reply, k': nat)
      requires q.route.AbandonRoute? && At(t, k, q, ClaimInsert)
      modifies this`claims, this`session, this`run
      ensures k < k' && At(t, k', q, Unlock(reply)) && Parks(q, old(RowsNow()), reply, RowsNow())
    {
      var outcome;
      outcome, k' := ClaimKeyOf(t, q, k);
      if outcome.KeyReused? || outcome.Replay? {
        reply := AnswerParkRepeat(t, q, k', outcome);
        return;
      }
      ghost var claimed := RowsNow();
      reply := CheckAndPark(t, q, k', outcome.InProgress?);
      ParksAfterClaim(q, old(RowsNow()), claimed, reply, RowsNow());
      k' := k' + 2;
    }

    /** The re-read under the lease: a live session parks, a terminal one is left. */
    method CheckAndPark(t: Track, q: Request, k: nat, ghost resuming: bool) returns (reply: Reply)
      requires q.route.AbandonRoute? && At(t, k, q, ReadSession(resuming))
      requires Lookup(claims, ClaimKey(q)) == Some(Claim(q.body, None))
      modifies this`claims, this`session, this`run
      ensures if Live(old(session).state) then reply == ParkOk && RowsNow() == ParkedBy(old(RowsNow()), q)
              else Forgets(q, old(RowsNow()), reply, RowsNow())
      ensures At(t, k + 2, q, Unlock(reply))
    {
      if Live(session.state) {
        Goes(t, q, k, ReadSession(resuming), Pc.ParkNow);
        reply := ParkNow(t, q, k + 1);
      } else {
        Goes(t, q, k, ReadSession(resuming), DropClaim);
        reply := RejectReadOnly(t, q, k + 1);
      }
    }

    /** The park and the completed claim, in one transaction. */
    method ParkNow(t: Track, q: Request, k: nat) returns (reply: Reply)
      requires At(t, k, q, Pc.ParkNow) && Lookup(claims, ClaimKey(q)) == Some(Claim(q.body, None))
      modifies this`claims, this`session, this`run
      ensures reply == ParkOk && session == old(session).(state := Parked) && run == Parked
      ensures claims == old(claims)[ClaimKey(q) := Claim(q.body, Some(ParkResult))]
      ensures At(t, k + 1, q, Unlock(reply))
    {
      ghost var r := RowsNow();
      UpdateSession(NoChange.(state := Some(Parked)));
      CompleteKey(q, ParkResult);
      reply := ParkOk;
      Wrote(t, q, k, Pc.ParkNow, r, Unlock(reply));
    }

    method AbandonSession(t: Track, q: Request) returns (reply: Reply, ghost steps: nat)
      requires q.route.AbandonRoute? && At(t, 0, q, Acquire)
      modifies this
      ensures At(t, steps, q, Done(reply)) && StoresNow() == old(StoresNow())
      ensures if Lease.Free(old(lease), now) then lease.None? && Parks(q, old(RowsNow()), reply, RowsNow())
              else reply == SessionLocked && lease == old(lease) && RowsNow() == old(RowsNow())
    {
      var granted := AcquireLease(t, q, 0);
      if !granted {
        return SessionLocked, 1;
      }
      var k;
      reply, k := ParkSession(t, q, 1);
      ReleaseLease(t, q, k, reply);
      steps := k + 1;
    }

    // -- flow 3 ------------------------------------------------------------------------

    predicate Failing(failure: Pc) {
      failure == Rollback || failure == Unlock(Failed(true)) || failure == Unlock(ServerError)
    }

    /** The review is built and validated before it is saved; an invalid one, or
        one whose key was used before, is final. */
    method SaveFinalReview(t: Track, q: Request, k: nat, job: Job) returns (review: Option<Reference>, failure: Pc)
      requires At(t, k, q, SaveReview(job))
      modifies this`reviews, this`saved
      ensures At(t, k + 1, q, if review.Some? then Render(job, review.value, []) else failure) && Failing(failure)
      ensures review.Some? <==> WillSave(t, old(StoresNow()), q.key, k, job)
      ensures review.Some? ==>
              review.value == t.world(k).reference && StoresNow() == Remembered(old(StoresNow()), q.key, review.value)
      ensures review.None? && t.world(k).Fine? && job.turns != [] && (!Accepts(job) || q.key in old(reviews)) ==>
              failure == Rollback
    {
      ghost var s := StoresNow();
      review, failure := BuildAndStore(q.key, job, t.world(k));
      StoringSaves(RowsNow(), s, q.(pc := SaveReview(job)), t.world(k));
      Called(t, q, k, SaveReview(job), s, if review.Some? then Render(job, review.value, []) else failure);
    }

    method BuildAndStore(key: nat, job: Job, answer: Choice) returns (review: Option<Reference>, failure: Pc)
      modifies this`reviews, this`saved
      ensures OnSave(old(StoresNow()), key, job, answer) ==
              (StoresNow(), if review.Some? then Render(job, review.value, []) else failure)
      ensures Failing(failure)
      ensures review.Some? <==> Saves(old(StoresNow()), key, job, answer)
      ensures review.Some? ==>
              review.value == answer.reference && StoresNow() == Remembered(old(StoresNow()), key, review.value)
      ensures review.None? && answer.Fine? && job.turns != [] && (!Accepts(job) || key in old(reviews)) ==>
              failure == Rollback
    {
      review, failure := None, Unlock(Failed(true));
      if answer.Broken? {
        failure := Rollback;
      } else if CarriedOut(answer) {
        if job.turns == [] {
          failure := Unlock(ServerError);
        } else if !Accepts(job) {
          failure := Rollback;
        } else {
          review, failure := StoreReview(key, answer);
        }
      }
      SaveDecides(old(StoresNow()), key, job, answer, StoresNow(), review, failure);
    }

    /** The artifact store's part. */
    method StoreReview(key: nat, answer: Choice) returns (review: Option<Reference>, failure: Pc)
      requires CarriedOut(answer)
      modifies this`reviews, this`saved
      ensures StoredReview(old(StoresNow()), key, answer, StoresNow(), review, failure)
    {
      review, failure := None, Unlock(Failed(true));
      if key in reviews {
        if !answer.LostReply? {
          failure := Rollback;
        }
      } else if answer.reference !in saved {
        reviews, saved := reviews[key := answer.reference], saved + {answer.reference};
        if answer.Fine? {
          review := Some(answer.reference);
        } else if answer.Spoiled? {
          failure := Unlock(ServerError);
        }
      }
    }

    /** One format: pinned by the store whenever it carried the call out, and
        rolled back when the pin is another review's or the answer is unusable. */
    method RenderFormat(t: Track, q: Request, k: nat, job: Job, review: Reference, done: seq<Reference>)
      returns (report: Option<Reference>, failure: Pc)
      requires |done| < |session.formats| && At(t, k, q, Render(job, review, done))
      modifies this`pins
      ensures At(t, k + 1, q, if report.Some? then Render(job, review, done + [report.value]) else failure)
      ensures Failing(failure)
      ensures var f, answer := session.formats[|done|], t.world(k);
        && (report.Some? <==> answer.Fine? && OpenTo(old(pins), f, review))
        && pins == (if answer.Fine? || answer.LostReply? || answer.Spoiled? then
            Pinned(old(pins), f, answer.reference, review) else old(pins))
        && (report.Some? ==> pins[f] == Pin(report.value, review))
        && (report.None? ==> (failure == Rollback <==> answer.Broken? || answer.Spoiled? || answer.Fine?))
    {
      ghost var s := StoresNow();
      var answer, f := t.world(k), session.formats[|done|];
      report, failure := None, Unlock(Failed(true));
      match answer {
        case Broken => failure := Rollback;
        case Fine(r) =>
          if f in pins && pins[f].review != review {
            failure := Rollback;
          } else {
            pins := Pinned(pins, f, r, review);
            report := Some(pins[f].report);
          }
        case LostReply(r) => pins := Pinned(pins, f, r, review);
        case Spoiled(r) =>
          pins := Pinned(pins, f, r, review);
          failure := Rollback;
        case _ =>
      }
      ghost var next := if report.Some? then Render(job, review, done + [report.value]) else failure;
      assert OnRender(s, session.formats, job, review, done, answer) == (StoresNow(), next);
      Called(t, q, k, Render(job, review, done), s, next);
    }

    /** The formats in hand were rendered from step `from` on, when the pins were
        these; the others are as they were. */
    ghost predicate Rendering(t: Track, from: nat, start: map<Format, Pin>, review: Reference, done: seq<Reference>)
      reads this
    {
      && |done| <= |session.formats| && RenderTo(t, session.formats, |done|, start, from, review)
      && DonePinned(session.formats, StoresNow(), review, done) && Untouched(start, pins, session.formats, |done|)
    }

    method RenderNext(t: Track, q: Request, k: nat, job: Job, review: Reference, done: seq<Reference>,
                      ghost from: nat, ghost start: map<Format, Pin>) returns (report: Option<Reference>, failure: Pc)
      requires k == from + |done| && |done| < |session.formats| && At(t, k, q, Render(job, review, done))
      requires Distinct(session.formats) && Rendering(t, from, start, review, done)
      modifies this`pins
      ensures Failing(failure)
      ensures At(t, k + 1, q, if report.Some? then Render(job, review, done + [report.value]) else failure)
      ensures if report.Some? then Rendering(t, from, start, review, done + [report.value])
              else !RenderTo(t, session.formats, |session.formats|, start, from, review)
    {
      ghost var before := pins;
      NextRender(t, session.formats, |done|, start, pins, from, review);
      report, failure := RenderFormat(t, q, k, job, review, done);
      if report.Some? {
        OneMorePinned(start, before, pins, session.formats, done, review, report.value);
      }
    }

    method RenderAll(t: Track, q: Request, k: nat, job: Job, review: Reference)
      returns (reports: Option<seq<Reference>>, failure: Pc, k': nat)
      requires At(t, k, q, Render(job, review, [])) && Distinct(session.formats)
      modifies this`pins
      ensures k < k' && At(t, k', q, if reports.Some? then Stamp(job, review, reports.value) else failure)
      ensures Failing(failure)
      ensures reports.Some? <==> AllRender(t, RowsNow(), old(pins), k, review)
      ensures reports.Some? ==> ReportsPinned(session.formats, StoresNow(), review, reports.value)
    {
      var done: seq<Reference> := [];
      failure, k' := Unlock(Failed(true)), k;
      while |done| < |session.formats|
        invariant k' == k + |done| && At(t, k', q, Render(job, review, done)) && Failing(failure)
        invariant Rendering(t, k, old(pins), review, done)
      {
        var report;
        report, failure := RenderNext(t, q, k', job, review, done, k, old(pins));
        if report.None? {
          return None, failure, k' + 1;
        }
        k', done := k' + 1, done + [report.value];
      }
      AllRendered(t, q, k', job, review, done);
      return Some(done), failure, k' + 1;
    }

    lemma AllRendered(t: Track, q: Request, k: nat, job: Job, review: Reference, done: seq<Reference>)
      requires At(t, k, q, Render(job, review, done)) && |done| == |session.formats|
      ensures At(t, k + 1, q, Stamp(job, review, done))
    {
      Moves(t, k, Seen(t, q, Render(job, review, done)), Seen(t, q, Stamp(job, review, done)));
    }

    /** From the finalizing mark to the closing transaction. */
    method RunFlow3(t: Track, q: Request, k: nat, job: Job) returns (reply: Reply, k': nat)
      requires At(t, k, q, Mark(job)) && Distinct(session.formats)
      modifies this`session, this`run, this`turns, this`claims, this`reviews, this`saved, this`pins
      ensures k < k' && At(t, k', q, Unlock(reply))
      ensures Attempted(t, old(RowsNow()), old(StoresNow()), q, k + 1, job, reply, RowsNow())
    {
      ghost var r, s := RowsNow(), StoresNow();
      MarkFinalizing(t, q, k, job);
      ghost var marked := RowsNow();
      var review, failure := SaveFinalReview(t, q, k + 1, job);
      if review.None? {
        reply, k' := FailFlow3(t, q, k + 2, failure);
      } else {
        reply, k' := RenderAndClose(t, q, k + 2, job, review.value);
      }
      AttemptMeaning(t, r, s, q, k + 1, job, marked, review, reply, RowsNow());
    }

    method RenderAndClose(t: Track, q: Request, k: nat, job: Job, review: Reference) returns (reply: Reply, k': nat)
      requires At(t, k, q, Render(job, review, [])) && Distinct(session.formats) && session.state.Finalizing?
      modifies this`session, this`run, this`turns, this`claims, this`pins
      ensures k < k' && At(t, k', q, Unlock(reply))
      ensures if AllRender(t, old(RowsNow()), old(pins), k, review) then
              Closed(old(RowsNow()), q, job, review, reply, RowsNow())
              else BrokenOff(old(RowsNow()), reply, RowsNow())
    {
      var reports, failure;
      reports, failure, k' := RenderAll(t, q, k, job, review);
      if reports.None? {
        reply, k' := FailFlow3(t, q, k', failure);
      } else {
        reply := StampAndClose(t, q, k', job, review, reports.value);
        k' := k' + 2;
      }
    }

    method StampAndClose(t: Track, q: Request, k: nat, job: Job, review: Reference, reports: seq<Reference>)
      returns (reply: Reply)
      requires At(t, k, q, Stamp(job, review, reports)) && |reports| == |session.formats|
      modifies this`session, this`run, this`turns, this`claims
      ensures At(t, k + 2, q, Unlock(reply)) && Closed(old(RowsNow()), q, job, review, reply, RowsNow())
    {
      StampTurns(t, q, k, job, review, reports);
      reply := CompleteSession(t, q, k + 1, job, review, reports);
    }

    method MarkFinalizing(t: Track, q: Request, k: nat, job: Job)
      requires At(t, k, q, Mark(job))
      modifies this`session, this`run
      ensures session == old(session).(state := Finalizing) && run == old(run)
      ensures At(t, k + 1, q, SaveReview(job))
    {
      ghost var r := RowsNow();
      UpdateSession(NoChange.(state := Some(Finalizing)));
      Wrote(t, q, k, Mark(job), r, SaveReview(job));
    }

    /** A non-retryable failure rolls back to active, a retryable one does not. */
    method FailFlow3(t: Track, q: Request, k: nat, failure: Pc) returns (reply: Reply, k': nat)
      requires Failing(failure) && At(t, k, q, failure)
      modifies this`session, this`run
      ensures reply == if failure.Unlock? then failure.reply else Failed(false)
      ensures session == (if failure.Unlock? then old(session) else old(session).(state := Active)) && run == old(run)
      ensures k <= k' && At(t, k', q, Unlock(reply))
      ensures old(session).state.Finalizing? ==> BrokenOff(old(RowsNow()), reply, RowsNow())
    {
      if failure.Unlock? {
        return failure.reply, k;
      }
      ghost var r := RowsNow();
      UpdateSession(NoChange.(state := Some(Active)));
      Wrote(t, q, k, Rollback, r, Unlock(Failed(false)));
      return Failed(false), k + 1;
    }

    method StampTurns(t: Track, q: Request, k: nat, job: Job, review: Reference, reports: seq<Reference>)
      requires At(t, k, q, Stamp(job, review, reports))
      modifies this`turns
      ensures turns == StampTurn(old(turns), [review] + reports)
      ensures At(t, k + 1, q, Close(job, review, reports))
    {
      ghost var r := RowsNow();
      turns := StampTurn(turns, [review] + reports);
      Wrote(t, q, k, Stamp(job, review, reports), r, Close(job, review, reports));
    }

    /** The completed session and the completed claim, in one transaction. */
    method CompleteSession(t: Track, q: Request, k: nat, job: Job, review: Reference, reports: seq<Reference>)
      returns (reply: Reply)
      requires At(t, k, q, Close(job, review, reports))
      modifies this`session, this`run, this`claims
      ensures var u := Update(Some(Completed), job.count, Some(review), Some(reports));
        RowsNow() == CompleteClaim(Updated(old(RowsNow()), u), q, ClosingResult(job, reports))
      ensures session.state == run == Completed && session.finalReview == Some(review) && session.reports == reports
      ensures reply == if job.turn.Some? then TurnOk(ClosingResult(job, reports), job.turn.value.resolutions)
              else ReportOk(reports)
      ensures At(t, k + 1, q, Unlock(reply))
    {
      ghost var r := RowsNow();
      var result := ClosingResult(job, reports);
      UpdateSession(Update(Some(Completed), job.count, Some(review), Some(reports)));
      CompleteKey(q, result);
      reply := if job.turn.Some? then TurnOk(result, job.turn.value.resolutions) else ReportOk(reports);
      Wrote(t, q, k, Close(job, review, reports), r, Unlock(reply));
    }

    /** Flow 3 for a turn that is already recorded, or for the finalize route. */
    method FinalizeFrom(t: Track, q: Request, k: nat, owner: Option<TurnRecord>) returns (reply: Reply, k': nat)
      requires At(t, k, q, LatestSynthesis(owner, turns)) && Distinct(session.formats)
      modifies this`session, this`run, this`turns, this`claims, this`reviews, this`saved, this`pins
      ensures k < k' && At(t, k', q, Unlock(reply))
      ensures if t.world(k).Listed? then
                var job := Job(owner, None, t.world(k).reference, t.world(k).report, old(turns));
                Attempted(t, old(RowsNow()), old(StoresNow()), q, k + 2, job, reply, RowsNow())
              else reply == Failed(true) && RowsNow() == old(RowsNow())
      ensures Live(old(session).state) ==> Ends(reply, session.state)
      ensures owner.Some? && Mine(old(RowsNow()), q) && Live(old(session).state) ==>
              Left(q, old(turns), old(claims), reply, RowsNow())
      ensures session.facilitatorTurns == old(session).facilitatorTurns
      ensures owner.Some? && owner.value.outcome.Finalize? ==> TellsTurn(reply, owner.value)
    {
      var answer := t.world(k);
      if !answer.Listed? {
        Goes(t, q, k, LatestSynthesis(owner, turns), Unlock(Failed(true)));
        if Mine(RowsNow(), q) && Live(session.state) {
          NothingLeft(q, RowsNow(), Failed(true));
        }
        return Failed(true), k + 1;
      }
      var job := Job(owner, None, answer.reference, answer.report, turns);
      Goes(t, q, k, LatestSynthesis(owner, turns), Mark(job));
      ghost var r, s := RowsNow(), StoresNow();
      reply, k' := RunFlow3(t, q, k + 1, job);
      AttemptEnds(t, r, s, q, k + 2, job, reply, RowsNow());
      AttemptTells(t, r, s, q, k + 2, job, reply, RowsNow());
      if owner.Some? && Mine(r, q) {
        AttemptLeaves(t, r, s, q, k + 2, job, reply, RowsNow());
      }
    }

    // -- finalize -------------------------------------------------------------------------

    method ResumeFinalizing(t: Track, q: Request, k: nat) returns (reply: Reply, k': nat)
      requires q.route.FinalizeRoute? && At(t, k, q, ReadSession(false)) && Distinct(session.formats)
      modifies this`session, this`run, this`turns, this`claims, this`reviews, this`saved, this`pins
      ensures k < k' && At(t, k', q, Unlock(reply))
      ensures (match old(session).state
               case Finalizing => Ends(reply, session.state) || (reply.ReportOk? && Settled(q, old(claims)))
               case Completed => reply == ReportOk(session.reports) && RowsNow() == old(RowsNow())
               case Active => reply == NotFinalizing && RowsNow() == old(RowsNow())
               case Parked => reply == ReadOnly && RowsNow() == old(RowsNow()))
    {
      if !session.state.Finalizing? {
        reply := if session.state.Completed? then ReportOk(session.reports)
            else if session.state.Active? then NotFinalizing else ReadOnly;
        Goes(t, q, k, ReadSession(false), Unlock(reply));
        return reply, k + 1;
      }
      Goes(t, q, k, ReadSession(false), ClaimInsert);
      var outcome;
      outcome, k' := ClaimKeyOf(t, q, k + 1);
      match outcome {
        case KeyReused => return ReusedKey, k';
        case Replay(canonical) => return if canonical.ReportResult? then ReportOk(canonical.reports)
            else ServerError, k';
        case _ =>
      }
      reply, k' := RerunFlow3(t, q, k');
    }

    predicate Settled(q: Request, before: map<(Route, nat), Claim<Body, Canonical>>) {
      ClaimKey(q) in before && before[ClaimKey(q)].response.Some?
    }

    method RerunFlow3(t: Track, q: Request, k: nat) returns (reply: Reply, k': nat)
      requires q.route.FinalizeRoute? && At(t, k, q, ListTurns(None)) && Distinct(session.formats)
      requires session.state.Finalizing?
      modifies this`session, this`run, this`turns, this`claims, this`reviews, this`saved, this`pins
      ensures k < k' && At(t, k', q, Unlock(reply)) && Ends(reply, session.state)
    {
      if turns == [] {
        Goes(t, q, k, ListTurns(None), Unlock(AssertionFailed(NoTurnsYet)));
        return AssertionFailed(NoTurnsYet), k + 1;
      }
      Goes(t, q, k, ListTurns(None), LatestSynthesis(None, turns));
      reply, k' := FinalizeFrom(t, q, k + 1, None);
    }

    /** A session that is not finalizing is only read, without the lease; else
        the answer says where the session is, unless it repeats a settled key. */
    method PostFinalize(t: Track, q: Request) returns (reply: Reply, ghost steps: nat)
      requires q.route.FinalizeRoute? && At(t, 0, q, OuterRead) && Distinct(session.formats)
      modifies this
      ensures At(t, steps, q, Done(reply))
      ensures if old(session).state.Finalizing? then Resumes(q, old(lease), old(RowsNow()), reply)
              else lease == old(lease) && RowsNow() == old(RowsNow())
                   && reply == (if session.state.Completed? then ReportOk(session.reports)
                                else if session.state.Active? then NotFinalizing else ReadOnly)
    {
      match session.state {
        case Completed => reply := ReportOk(session.reports);
        case Active => reply := NotFinalizing;
        case Parked => reply := ReadOnly;
        case Finalizing =>
          Goes(t, q, 0, OuterRead, Acquire);
          reply, steps := LockAndResume(t, q);
          return;
      }
      Goes(t, q, 0, OuterRead, Done(reply));
      steps := 1;
    }

    /** Locked out, with nothing changed, exactly when the lease is not free. */
    ghost predicate Resumes(q: Request, lock: Option<Lease.Row>, before: Rows, reply: Reply)
      reads this
    {
      if Lease.Free(lock, now) then
        lease.None? && !reply.SessionLocked?
        && (Ends(reply, session.state) || (reply.ReportOk? && Settled(q, before.claims)))
      else reply == SessionLocked && lease == lock && RowsNow() == before
    }

    method LockAndResume(t: Track, q: Request) returns (reply: Reply, ghost steps: nat)
      requires q.route.FinalizeRoute? && At(t, 1, q, Acquire) && Distinct(session.formats) && session.state.Finalizing?
      modifies this
      ensures At(t, steps, q, Done(reply)) && Resumes(q, old(lease), old(RowsNow()), reply)
    {
      var granted := AcquireLease(t, q, 1);
      if !granted {
        return SessionLocked, 2;
      }
      var k;
      reply, k := ResumeFinalizing(t, q, 2);
      ReleaseLease(t, q, k, reply);
      steps := k + 1;
    }

    // -- turn --------------------------------------------------------------------------------

    method RecordTurn(t: Track, q: Request, k: nat, row: TurnRecord, dialogue: Option<Counted>)
      returns (stored: TurnRecord)
      requires At(t, k, q, Pc.InsertTurn(row, dialogue))
      modifies this`turns
      ensures turns == Records.InsertTurn(old(turns), row) && stored == OrElse(Stored(turns, row.number), row)
      ensures row.number == NextNumber(old(turns)) ==> stored == row
      ensures At(t, k + 1, q,
                 if dialogue.None? then Relist(stored, None)
                 else if row.outcome.Finalize? then WriteCount(stored, dialogue.value)
                 else Settle(stored, row.outcome, dialogue.value))
    {
      ghost var r := RowsNow();
      turns := Records.InsertTurn(turns, row);
      stored := OrElse(Stored(turns, row.number), row);
      if row.number == NextNumber(r.turns) {
        NextIsLast(r.turns, row);
      }
      Wrote(t, q, k, Pc.InsertTurn(row, dialogue), r, OnInsertTurn(r, row, dialogue).1);
    }

    method CountFinalTurn(t: Track, q: Request, k: nat, stored: TurnRecord, counted: Counted) returns (job: Job)
      requires At(t, k, q, WriteCount(stored, counted))
      modifies this`session, this`run
      ensures session == old(session).(facilitatorTurns := counted.count) && run == old(run)
      ensures job.turns == turns && job.turn == Some(stored) && job.count == Some(counted.count)
      ensures job.synthesis == counted.synthesis
      ensures At(t, k + 2, q, Mark(job))
    {
      ghost var r := RowsNow();
      UpdateSession(NoChange.(facilitatorTurns := Some(counted.count)));
      Wrote(t, q, k, WriteCount(stored, counted), r, Relist(stored, Some(counted)));
      job := Job(Some(stored), Some(counted.count), counted.synthesis, counted.report, turns);
      Relisted(t, q, k + 1, stored, Some(counted));
    }

    lemma Relisted(t: Track, q: Request, k: nat, stored: TurnRecord, dialogue: Option<Counted>)
      requires At(t, k, q, Relist(stored, dialogue))
      ensures At(t, k + 1, q, OnRelist(turns, stored, dialogue))
    {
      Goes(t, q, k, Relist(stored, dialogue), OnRelist(turns, stored, dialogue));
    }

    /** The count, a possible park and the completed claim, in one transaction. */
    method SettleTurn(t: Track, q: Request, k: nat, stored: TurnRecord, outcome: Outcome, counted: Counted)
      returns (reply: Reply)
      requires At(t, k, q, Settle(stored, outcome, counted))
      modifies this`session, this`run, this`claims
      ensures var state := if outcome.Park? then Parked else old(session).state;
        session == old(session).(facilitatorTurns := counted.count, state := state)
      ensures run == if outcome.Park? then Parked else old(run)
      ensures reply == TurnOk(SettledResult(stored, outcome, counted.synthesis), stored.resolutions)
      ensures claims == Write(old(claims), ClaimKey(q), Fulfilled(Lookup(old(claims), ClaimKey(q)), reply.canonical))
      ensures At(t, k + 1, q, Unlock(reply))
    {
      ghost var r := RowsNow();
      var result := SettledResult(stored, outcome, counted.synthesis);
      var parked := if outcome.Park? then Some(Parked) else None;
      UpdateSession(NoChange.(state := parked, facilitatorTurns := Some(counted.count)));
      CompleteKey(q, result);
      reply := TurnOk(result, stored.resolutions);
      Wrote(t, q, k, Settle(stored, outcome, counted), r, Unlock(reply));
    }

    /** The recorded turn settles, or is counted and finalizes. */
    method PersistAndRespond(t: Track, q: Request, k: nat, row: TurnRecord, counted: Counted)
      returns (reply: Reply, k': nat)
      requires At(t, k, q, Pc.InsertTurn(row, Some(counted))) && Distinct(session.formats) && session.state.Active?
      requires Mine(RowsNow(), q)
      modifies this`session, this`run, this`turns, this`claims, this`reviews, this`saved, this`pins
      ensures k < k' && At(t, k', q, Unlock(reply)) && Ends(reply, session.state)
      ensures Left(q, Records.InsertTurn(old(turns), row), old(claims), reply, RowsNow())
      ensures session.facilitatorTurns == counted.count && (!row.outcome.Finalize? ==> reply.TurnOk?)
      ensures reply.TurnOk? ==> reply.canonical.number == row.number && session.state == StateAfter(row.outcome)
      ensures reply.TurnOk? ==> reply.canonical.synthesis == counted.synthesis
      ensures row.number == NextNumber(old(turns)) ==> TellsTurn(reply, row)
    {
      var stored := RecordTurn(t, q, k, row, Some(counted));
      if row.outcome.Finalize? {
        reply, k' := FinalizeTurn(t, q, k + 1, stored, counted);
      } else {
        ghost var r := RowsNow();
        reply := SettleTurn(t, q, k + 1, stored, row.outcome, counted);
        SettleLeaves(r, q, stored, row.outcome, counted, reply, RowsNow());
        k' := k + 2;
      }
    }

    method FinalizeTurn(t: Track, q: Request, k: nat, stored: TurnRecord, counted: Counted)
      returns (reply: Reply, k': nat)
      requires At(t, k, q, WriteCount(stored, counted)) && Distinct(session.formats) && Mine(RowsNow(), q)
      modifies this`session, this`run, this`turns, this`claims, this`reviews, this`saved, this`pins
      ensures k < k' && At(t, k', q, Unlock(reply)) && Ends(reply, session.state)
      ensures Left(q, old(turns), old(claims), reply, RowsNow())
      ensures session.facilitatorTurns == counted.count
      ensures reply.TurnOk? ==> reply.canonical.number == stored.number && session.state.Completed?
      ensures reply.TurnOk? ==> reply.canonical.synthesis == counted.synthesis
      ensures stored.outcome.Finalize? ==> TellsTurn(reply, stored)
    {
      var job := CountFinalTurn(t, q, k, stored, counted);
      ghost var r, s := RowsNow(), StoresNow();
      reply, k' := RunFlow3(t, q, k + 2, job);
      AttemptEnds(t, r, s, q, k + 3, job, reply, RowsNow());
      AttemptLeaves(t, r, s, q, k + 3, job, reply, RowsNow());
      AttemptTells(t, r, s, q, k + 3, job, reply, RowsNow());
    }

    method TakeTurn(t: Track, q: Request, k: nat) returns (reply: Reply, k': nat, ghost row: Option<TurnRecord>)
      requires q.route.TurnRoute? && At(t, k, q, ListTurns(Some(session))) && Distinct(session.formats)
      requires Live(session.state)
      requires Mine(RowsNow(), q)
      modifies this`session, this`run, this`turns, this`claims, this`reviews, this`saved, this`pins
      ensures k < k' && At(t, k', q, Unlock(reply)) && Took(q, old(RowsNow()), t.world(k + 1), row, reply, RowsNow())
    {
      row := None;
      if session.state.Finalizing? {
        reply, k' := ResumeTurn(t, q, k);
        return;
      }
      match q.body {
        case Empty =>
          Goes(t, q, k, ListTurns(Some(session)), Unlock(ServerError));
          NothingLeft(q, RowsNow(), ServerError);
          return ServerError, k + 1, None;
        case Acceptance =>
          var accepted := AcceptanceTurn(NextNumber(turns));
          Goes(t, q, k, ListTurns(Some(session)), Pc.InsertTurn(accepted, None));
          row := Some(accepted);
          NextIsLast(turns, accepted);
          reply, k' := AcceptAndFinalize(t, q, k + 1, accepted);
        case Message(text) =>
          reply, k', row := AnswerMessage(t, q, k, text);
      }
    }

    /** The turn of a crashed attempt, still finalizing. */
    method ResumeTurn(t: Track, q: Request, k: nat) returns (reply: Reply, k': nat)
      requires q.route.TurnRoute? && At(t, k, q, ListTurns(Some(session))) && Distinct(session.formats)
      requires session.state.Finalizing?
      requires Mine(RowsNow(), q)
      modifies this`session, this`run, this`turns, this`claims, this`reviews, this`saved, this`pins
      ensures k < k' && At(t, k', q, Unlock(reply)) && Took(q, old(RowsNow()), t.world(k + 1), None, reply, RowsNow())
    {
      if turns == [] || !turns[|turns| - 1].outcome.Finalize? {
        Goes(t, q, k, ListTurns(Some(session)), Unlock(AssertionFailed(NotAFinalizeTurn)));
        NothingLeft(q, RowsNow(), AssertionFailed(NotAFinalizeTurn));
        return AssertionFailed(NotAFinalizeTurn), k + 1;
      }
      var owner := turns[|turns| - 1];
      Goes(t, q, k, ListTurns(Some(session)), LatestSynthesis(Some(owner), turns));
      reply, k' := FinalizeFrom(t, q, k + 1, Some(owner));
    }

    method AnswerMessage(t: Track, q: Request, k: nat, text: string)
      returns (reply: Reply, k': nat, ghost row: Option<TurnRecord>)
      requires q.route.TurnRoute? && At(t, k, q, ListTurns(Some(session))) && Distinct(session.formats)
      requires session.state.Active?
      requires Mine(RowsNow(), q) && q.body == Message(text)
      modifies this`session, this`run, this`turns, this`claims, this`reviews, this`saved, this`pins
      ensures k < k' && At(t, k', q, Unlock(reply)) && Took(q, old(RowsNow()), t.world(k + 1), row, reply, RowsNow())
    {
      var count := session.facilitatorTurns + 1;
      if count > PARK_TURN {
        Goes(t, q, k, ListTurns(Some(session)), Unlock(AssertionFailed(CountAbovePark)));
        NothingLeft(q, RowsNow(), AssertionFailed(CountAbovePark));
        return AssertionFailed(CountAbovePark), k + 1, None;
      }
      Goes(t, q, k, ListTurns(Some(session)), Consult(count, turns, text));
      reply, k', row := ConsultAndPersist(t, q, k + 1, count, text);
    }

    method AcceptAndFinalize(t: Track, q: Request, k: nat, row: TurnRecord) returns (reply: Reply, k': nat)
      requires At(t, k, q, Pc.InsertTurn(row, None)) && Distinct(session.formats) && session.state.Active?
      requires Mine(RowsNow(), q)
      modifies this`session, this`run, this`turns, this`claims, this`reviews, this`saved, this`pins
      ensures k < k' && At(t, k', q, Unlock(reply)) && Ends(reply, session.state)
      ensures Left(q, Records.InsertTurn(old(turns), row), old(claims), reply, RowsNow())
      ensures session.facilitatorTurns == old(session).facilitatorTurns
      ensures row.number == NextNumber(old(turns)) && row.outcome.Finalize? ==> TellsTurn(reply, row)
    {
      var stored := RecordTurn(t, q, k, row, None);
      Relisted(t, q, k + 1, stored, None);
      reply, k' := FinalizeFrom(t, q, k + 2, Some(stored));
    }

    method AskFacilitator(t: Track, q: Request, k: nat, count: nat, text: string) returns (next: Pc)
      requires At(t, k, q, Consult(count, turns, text)) && count == session.facilitatorTurns + 1
      ensures At(t, k + 1, q, next)
      ensures next.InsertTurn? <==> Consulted(RowsNow(), Message(text), t.world(k), next)
      ensures !next.InsertTurn? ==> next.Unlock? && (next.reply.Failed? || next.reply.ServerError?)
    {
      next := CallAgents(t.world(k), Rows(session, run, turns, claims), q, count, text);
      Goes(t, q, k, Consult(count, turns, text), next);
    }

    method ConsultAndPersist(t: Track, q: Request, k: nat, count: nat, text: string)
      returns (reply: Reply, k': nat, ghost row: Option<TurnRecord>)
      requires At(t, k, q, Consult(count, turns, text)) && Distinct(session.formats) && session.state.Active?
      requires Mine(RowsNow(), q) && q.body == Message(text) && count == session.facilitatorTurns + 1
      modifies this`session, this`run, this`turns, this`claims, this`reviews, this`saved, this`pins
      ensures k < k' && At(t, k', q, Unlock(reply)) && Took(q, old(RowsNow()), t.world(k), row, reply, RowsNow())
    {
      var next := AskFacilitator(t, q, k, count, text);
      if !next.InsertTurn? {
        NothingTook(q, RowsNow(), t.world(k), next.reply);
        return next.reply, k + 1, None;
      }
      reply, k' := PersistConsulted(t, q, k + 1, next, t.world(k));
      row := Some(next.row);
    }

    method PersistConsulted(t: Track, q: Request, k: nat, next: Pc, ghost answer: Choice)
      returns (reply: Reply, k': nat)
      requires q.body.Message? && Consulted(RowsNow(), q.body, answer, next) && At(t, k, q, next)
      requires Distinct(session.formats) && session.state.Active? && Mine(RowsNow(), q)
      modifies this`session, this`run, this`turns, this`claims, this`reviews, this`saved, this`pins
      ensures k < k' && At(t, k', q, Unlock(reply))
      ensures Took(q, old(RowsNow()), answer, Some(next.row), reply, RowsNow())
    {
      ghost var before := RowsNow();
      reply, k' := PersistAndRespond(t, q, k, next.row, next.dialogue.value);
      MessageTook(q, before, answer, next, reply, RowsNow());
    }

    method AnswerRepeat(t: Track, q: Request, k: nat, outcome: ClaimOutcome<Canonical>) returns (reply: Reply, k': nat)
      requires q.route.TurnRoute? && At(t, k, q, AfterOutcome(q.route, outcome)) && Repeats(q, outcome)
      ensures k <= k' && At(t, k', q, Unlock(reply)) && Serves(q, RowsNow(), t.world, reply, RowsNow())
    {
      match outcome {
        case KeyReused => return ReusedKey, k;
        case Replay(canonical) => reply, k' := RespondFromCanonical(t, q, k, canonical);
      }
    }

    method Execute(t: Track, q: Request, k: nat) returns (reply: Reply, k': nat)
      requires q.route.TurnRoute? && At(t, k, q, ClaimInsert) && Distinct(session.formats)
      modifies this`session, this`run, this`turns, this`claims, this`reviews, this`saved, this`pins
      ensures k < k' && At(t, k', q, Unlock(reply)) && Serves(q, old(RowsNow()), t.world, reply, RowsNow())
    {
      var outcome;
      outcome, k' := ClaimKeyOf(t, q, k);
      if outcome.KeyReused? || outcome.Replay? {
        reply, k' := AnswerRepeat(t, q, k', outcome);
        return;
      }
      ghost var claimed := RowsNow();
      reply, k' := CheckAndTake(t, q, k', outcome.InProgress?);
      ServesAfterClaim(q, old(RowsNow()), claimed, t.world, reply, RowsNow());
    }

    /** The re-read under the lease decides whether the turn is taken. */
    method CheckAndTake(t: Track, q: Request, k: nat, resuming: bool) returns (reply: Reply, k': nat)
      requires q.route.TurnRoute? && At(t, k, q, ReadSession(resuming)) && Distinct(session.formats)
      requires Lookup(claims, ClaimKey(q)) == Some(Claim(q.body, None))
      modifies this`session, this`run, this`turns, this`claims, this`reviews, this`saved, this`pins
      ensures k < k' && At(t, k', q, Unlock(reply))
      ensures if old(session).state.Active? || (old(session).state.Finalizing? && resuming) then
                exists turn, j: nat :: Took(q, old(RowsNow()), t.world(j), turn, reply, RowsNow())
              else Forgets(q, old(RowsNow()), reply, RowsNow())
    {
      if !(session.state.Active? || (session.state.Finalizing? && resuming)) {
        Goes(t, q, k, ReadSession(resuming), DropClaim);
        reply := RejectReadOnly(t, q, k + 1);
        return reply, k + 2;
      }
      Goes(t, q, k, ReadSession(resuming), ListTurns(Some(session)));
      ghost var turn;
      reply, k', turn := TakeTurn(t, q, k + 1);
    }

    method RespondFromCanonical(t: Track, q: Request, k: nat, canonical: Canonical) returns (reply: Reply, k': nat)
      requires q.route.TurnRoute? && At(t, k, q, OnReplay(q.route, canonical))
      ensures reply == if canonical.TurnResult? then OnReadTurn(RowsNow(), canonical).reply else ServerError
      ensures k <= k' && At(t, k', q, Unlock(reply))
    {
      if !canonical.TurnResult? {
        return ServerError, k;
      }
      var turn := Stored(turns, canonical.number);
      reply := if turn.Some? then TurnOk(canonical, turn.value.resolutions) else AssertionFailed(NoTurnRecord);
      Goes(t, q, k, ReadTurn(canonical), Unlock(reply));
      k' := k + 1;
    }

    method RunTurn(t: Track, q: Request) returns (reply: Reply, ghost steps: nat)
      requires q.route.TurnRoute? && At(t, 0, q, Acquire) && Distinct(session.formats)
      modifies this
      ensures At(t, steps, q, Done(reply))
      ensures if Lease.Free(old(lease), now) then lease.None? && Serves(q, old(RowsNow()), t.world, reply, RowsNow())
              else reply == SessionLocked && lease == old(lease) && RowsNow() == old(RowsNow())
    {
      var granted := AcquireLease(t, q, 0);
      if !granted {
        return SessionLocked, 1;
      }
      var k;
      reply, k := Execute(t, q, 1);
      ReleaseLease(t, q, k, reply);
      steps := k + 1;
    }

    // -- served alone, from any state that runs can reach ------------------------------------------

    /** The cell this request has been added to. */
    ghost function Start(id: RequestId, others: map<RequestId, Request>, q: Request): Cell
      reads this
    {
      CellOf(others[id := q])
    }

    /** A turn request that nobody disturbs makes a run of the machine in which
        it holds the lease at every write; it is locked out only by a lease that
        is not free, fails no assertion, and its answer is the recorded one. */
    method PostTurn(id: RequestId, others: map<RequestId, Request>, q: Request, world: nat -> Choice)
      returns (reply: Reply)
      requires q.route.TurnRoute? && q.pc == Acquire && Inv(Start(id, others, q))
      modifies this
      ensures exists steps ::
              Alone(old(Start(id, others, q)), id, world, steps, Start(id, others, q.(pc := Done(reply))))
      ensures Inv(Start(id, others, q.(pc := Done(reply)))) && RowsEvolve(old(RowsNow()), RowsNow())
      ensures !reply.AssertionFailed?
      ensures if Lease.Free(old(lease), now) then lease.None? && Serves(q, old(RowsNow()), world, reply, RowsNow())
              else reply == SessionLocked && lease == old(lease) && RowsNow() == old(RowsNow())
      ensures reply.TurnOk? ==>
              LifecycleTheorems.SettledKey(RowsNow(), q, reply.canonical)
              && Agrees(RowsNow(), TurnRoute, reply.canonical)
    {
      ghost var start := Start(id, others, q);
      RunsExtend(start, id, others, world);
      var t: Track := Recorder(id, others, world, RunsFrom(start, id, world));
      ghost var steps;
      reply, steps := RunTurn(t, q);
      ghost var end := Start(id, others, q.(pc := Done(reply)));
      assert Alone(start, id, world, steps, end);
      AloneMeaning(start, id, world, steps, end);
      if reply.TurnOk? {
        AnswerRecorded(end, id);
      }
    }

    /** A finalize request that nobody disturbs, likewise. */
    method PostFinalizeAlone(id: RequestId, others: map<RequestId, Request>, q: Request, world: nat -> Choice)
      returns (reply: Reply)
      requires q.route.FinalizeRoute? && q.pc == OuterRead && Inv(Start(id, others, q))
      modifies this
      ensures exists steps ::
              Alone(old(Start(id, others, q)), id, world, steps, Start(id, others, q.(pc := Done(reply))))
      ensures Inv(Start(id, others, q.(pc := Done(reply)))) && RowsEvolve(old(RowsNow()), RowsNow())
      ensures !reply.AssertionFailed?
      ensures old(session).state.Finalizing? ==> Resumes(q, old(lease), old(RowsNow()), reply)
      ensures reply.ReportOk? ==> session.state.Completed? && session.reports == reply.reports
    {
      ghost var start := Start(id, others, q);
      RunsExtend(start, id, others, world);
      var t: Track := Recorder(id, others, world, RunsFrom(start, id, world));
      ghost var steps;
      reply, steps := PostFinalize(t, q);
      ghost var end := Start(id, others, q.(pc := Done(reply)));
      assert Alone(start, id, world, steps, end);
      AloneMeaning(start, id, world, steps, end);
      ReplyRecorded(end, id);
    }

    /** An abandon request that nobody disturbs, likewise. */
    method AbandonAlone(id: RequestId, others: map<RequestId, Request>, q: Request, world: nat -> Choice)
      returns (reply: Reply)
      requires q.route.AbandonRoute? && q.pc == Acquire && Inv(Start(id, others, q))
      modifies this
      ensures exists steps ::
              Alone(old(Start(id, others, q)), id, world, steps, Start(id, others, q.(pc := Done(reply))))
      ensures Inv(Start(id, others, q.(pc := Done(reply)))) && RowsEvolve(old(RowsNow()), RowsNow())
      ensures !reply.AssertionFailed?
      ensures if Lease.Free(old(lease), now) then lease.None? && Parks(q, old(RowsNow()), reply, RowsNow())
              else reply == SessionLocked && lease == old(lease) && RowsNow() == old(RowsNow())
      ensures reply.ParkOk? ==> session.state == run == Parked
    {
      ghost var start := Start(id, others, q);
      RunsExtend(start, id, others, world);
      var t: Track := Recorder(id, others, world, RunsFrom(start, id, world));
      ghost var steps;
      reply, steps := AbandonSession(t, q);
      ghost var end := Start(id, others, q.(pc := Done(reply)));
      assert Alone(start, id, world, steps, end);
      AloneMeaning(start, id, world, steps, end);
      ReplyRecorded(end, id);
    }
  }

  /** What the client was told is what the key's claim and the turn record say. */
  lemma AnswerRecorded(c: Cell, id: RequestId)
    requires Inv(c) && id in c.requests && c.requests[id].pc.Done? && c.requests[id].pc.reply.TurnOk?
    ensures var q := c.requests[id]; var x := q.pc.reply.canonical;
      LifecycleTheorems.SettledKey(c.rows, q, x) && Agrees(c.rows, TurnRoute, x)
  {
    assert RequestOk(c, id);
  }

  lemma ReplyRecorded(c: Cell, id: RequestId)
    requires Inv(c) && id in c.requests && c.requests[id].pc.Done?
    ensures var reply := c.requests[id].pc.reply;
      && (reply.ReportOk? ==> c.rows.session.state.Completed? && c.rows.session.reports == reply.reports)
      && (reply.ParkOk? ==> c.rows.session.state == c.rows.run == Parked)
  {
    assert RequestOk(c, id);
  }
}
