/** The session lifecycle as a step machine. One cell holds the shared rows of
    one session; every request advances by one database statement or
    transaction (or one call to a store or an agent) at a time, requests
    interleave freely, and any of them may crash between two steps. */
module Lifecycle {
  import opened Common
  import opened Artifacts
  import opened Facilitator
  import opened Records
  import opened Turns
  import opened Idempotency
  import Dialogue
  import FinalReview
  import Lease
  import TurnRules

  type RequestId = nat

  datatype Route = TurnRoute | FinalizeRoute | AbandonRoute
  datatype Body = Message(text: string) | Acceptance | Empty

  /** The stored logical response of a completed claim. */
  datatype Canonical =
    | TurnResult(number: nat, outcome: Outcome, state: SessionState, reply: Option<string>, rationale: Option<string>,
                 delegation: Option<Delegation>, synthesis: Reference, reports: seq<Reference>)
    | ReportResult(reports: seq<Reference>)
    | ParkResult

  /** What the client gets; report URLs are made from the references each time. */
  datatype Reply =
    | TurnOk(canonical: Canonical, resolutions: seq<Resolution>)
    | ReportOk(reports: seq<Reference>)
    | ParkOk
    | SessionLocked
    | ReusedKey
    | ReadOnly
    | NotFinalizing
    | Failed(retryable: bool)
    | ServerError
    | AssertionFailed(which: Assertion)

  /** The asserts of the turn and finalize routes. */
  datatype Assertion = NoTurnsYet | NoTurnRecord | CountAbovePark | NotAFinalizeTurn

  /** A finalizing turn in flight, with the turns as its request read them and
      the latest synthesis; the finalize endpoint has no turn of its own. */
  datatype Job = Job(turn: Option<TurnRecord>, count: Option<nat>, synthesis: Reference, report: SynthesisReport,
      turns: seq<TurnRecord>)

  /** A facilitator turn's number and the synthesis it ended on. */
  datatype Counted = Counted(count: nat, synthesis: Reference, report: SynthesisReport)

  /** The next step of a request, with the locals it still needs. */
  datatype Pc =
    | OuterRead
    | Acquire
    | ClaimInsert
    | ClaimRead
    | ReadTurn(canonical: Canonical)
    | ReadSession(resuming: bool)
    | DropClaim
    | ListTurns(seen: Option<SessionRow>)
    | Consult(count: nat, turns: seq<TurnRecord>, message: string)
    | InsertTurn(row: TurnRecord, dialogue: Option<Counted>)
    | WriteCount(turn: TurnRecord, counted: Counted)
    | Relist(turn: TurnRecord, dialogue: Option<Counted>)
    | LatestSynthesis(owner: Option<TurnRecord>, turns: seq<TurnRecord>)
    | Mark(job: Job)
    | SaveReview(job: Job)
    | Render(job: Job, review: Reference, done: seq<Reference>)
    | Rollback
    | Stamp(job: Job, review: Reference, reports: seq<Reference>)
    | Close(job: Job, review: Reference, reports: seq<Reference>)
    | Settle(turn: TurnRecord, outcome: Outcome, counted: Counted)
    | ParkNow
    | Unlock(reply: Reply)
    | Done(reply: Reply)
    | Crashed

  datatype Request = Request(route: Route, key: nat, body: Body, pc: Pc)

  /** The report store's (run, format) key: the report it names and the final
      review it was rendered from. */
  datatype Pin = Pin(report: Reference, review: Reference)

  /** The session's database rows. */
  datatype Rows = Rows(
    session: SessionRow,
    run: SessionState,
    turns: seq<TurnRecord>,
    claims: map<(Route, nat), Claim<Body, Canonical>>)

  /** The final reviews saved so far, the ones the artifact store knows by
      idempotency key, and the report pins. */
  datatype Stores = Stores(reviews: map<nat, Reference>, saved: set<Reference>, pins: map<Format, Pin>)

  datatype Cell = Cell(now: real, lease: Option<Lease.Row>, rows: Rows, stores: Stores,
      requests: map<RequestId, Request>)

  /** What the outside world answers: agents, artifact store, report store. A
      store call may be answered, lose its answer after it was carried out, be
      carried out and answered with something unusable, or fail. */
  datatype Choice =
    | Spoken(latest: SynthesisReport, out: TurnOutput, synthesis: Reference)
    | Delegated(latest: SynthesisReport, first: TurnOutput, out: TurnOutput, reviews: seq<Reference>,
        renewed: SynthesisReport, synthesis: Reference)
    | Listed(reference: Reference, report: SynthesisReport)
    | Fine(reference: Reference)
    | LostReply(reference: Reference)
    | Spoiled(reference: Reference)
    | Unavailable
    | Broken

  // -- one step -----------------------------------------------------------------

  predicate Running(pc: Pc) { !pc.Done? && !pc.Crashed? }

  /** Steps that write the session's database rows. */
  predicate IsWrite(pc: Pc) {
    pc.ClaimInsert? || pc.DropClaim? || pc.InsertTurn? || pc.WriteCount? || pc.Mark? || pc.Rollback? || pc.Stamp?
    || pc.Close?
    || pc.Settle? || pc.ParkNow?
  }

  /** Steps that call the artifact store or the report store. */
  predicate IsStore(pc: Pc) { pc.SaveReview? || pc.Render? }

  predicate Holds(c: Cell, id: RequestId) { Lease.Holds(c.lease, c.now, id) }

  function ClaimKey(q: Request): (Route, nat) { (q.route, q.key) }

  // -- reads ----------------------------------------------------------------------

  function AfterClaim(route: Route, resuming: bool): Pc {
    if route.FinalizeRoute? then ListTurns(None) else ReadSession(resuming)
  }

  function OnReplay(route: Route, canonical: Canonical): Pc {
    match (route, canonical)
    case (TurnRoute, TurnResult(_, _, _, _, _, _, _, _)) => ReadTurn(canonical)
    case (FinalizeRoute, ReportResult(reports)) => Unlock(ReportOk(reports))
    case (AbandonRoute, ParkResult) => Unlock(ParkOk)
    case _ => Unlock(ServerError)
  }

  function OnClaimRead(r: Rows, q: Request): Pc {
    var row := Lookup(r.claims, ClaimKey(q));
    if row.None? then Unlock(ServerError)
    else
      match Found(row.value, q.body)
      case KeyReused => Unlock(ReusedKey)
      case InProgress => AfterClaim(q.route, true)
      case Claimed => AfterClaim(q.route, false)
      case Replay(canonical) => OnReplay(q.route, canonical)
  }

  function OnReadTurn(r: Rows, canonical: Canonical): Pc {
    if canonical.TurnResult? && Stored(r.turns, canonical.number).Some? then
      Unlock(TurnOk(canonical, Stored(r.turns, canonical.number).value.resolutions))
    else Unlock(AssertionFailed(NoTurnRecord))
  }

  function OnOuterRead(s: SessionRow): Pc {
    match s.state
    case Completed => Done(ReportOk(s.reports))
    case Active => Done(NotFinalizing)
    case Parked => Done(ReadOnly)
    case Finalizing => Acquire
  }

  function OnReadSession(s: SessionRow, route: Route, resuming: bool): Pc {
    match route
    case TurnRoute =>
      if s.state.Active? || (s.state.Finalizing? && resuming) then ListTurns(Some(s)) else DropClaim
    case FinalizeRoute =>
      (match s.state
       case Completed => Unlock(ReportOk(s.reports))
       case Active => Unlock(NotFinalizing)
       case Parked => Unlock(ReadOnly)
       case Finalizing => ClaimInsert)
    case AbandonRoute =>
      if Live(s.state) then ParkNow else DropClaim
  }

  function NextNumber(turns: seq<TurnRecord>): nat { (if turns == [] then 0 else turns[|turns| - 1].number) + 1 }

  function OnListTurns(turns: seq<TurnRecord>, seen: Option<SessionRow>, body: Body): Pc {
    if seen.None? then
      if turns == [] then Unlock(AssertionFailed(NoTurnsYet)) else LatestSynthesis(None, turns)
    else if seen.value.state.Finalizing? then
      if turns == [] || !turns[|turns| - 1].outcome.Finalize? then Unlock(AssertionFailed(NotAFinalizeTurn))
      else LatestSynthesis(Some(turns[|turns| - 1]), turns)
    else
      match body
      case Acceptance => InsertTurn(AcceptanceTurn(NextNumber(turns)), None)
      case Message(text) =>
        if seen.value.facilitatorTurns + 1 > PARK_TURN then Unlock(AssertionFailed(CountAbovePark))
        else Consult(seen.value.facilitatorTurns + 1, turns, text)
      case Empty => Unlock(ServerError)
  }

  const RESOLUTION_CAP := 200

  /** An output that the schema and the turn rules let through. */
  predicate Passes(out: TurnOutput, count: nat, synthesis: SynthesisReport, decisions: Option<DecisionState>) {
    ValidOutput(out) && TurnRules.ValidateTurn(out, TurnRules.Request(count, synthesis, decisions)).Valid?
  }

  /** The decision state does not fit its model; the call then fails retryably. */
  predicate TooManyDecisions(decisions: Option<DecisionState>) {
    decisions.Some? && |decisions.value.resolutions| > RESOLUTION_CAP
  }

  /** One new review for each reviewer that was asked. */
  predicate Reviewed(invoke: Invoke, reviews: seq<Reference>) {
    match invoke
    case NoReviewer => reviews == []
    case Business => |reviews| == 1 && reviews[0].kind.ReviewBusiness?
    case Engineering => |reviews| == 1 && reviews[0].kind.ReviewEngineering?
    case Both => |reviews| == 2 && reviews[0].kind.ReviewBusiness? && reviews[1].kind.ReviewEngineering?
  }

  /** One facilitator call, or two around the delegated reviews and synthesis. The
      latest synthesis is read from the store, the renewed one is an agent's. */
  function OnConsult(count: nat, turns: seq<TurnRecord>, message: string, ch: Choice): Pc {
    var decisions, number := DecisionsOf(turns), NextNumber(turns);
    match ch
    case Spoken(latest, out, synthesis) =>
      if !ValidReport(latest) then Unlock(ServerError)
      else if TooManyDecisions(decisions) || Dialogue.Delegates(out) then Unlock(Failed(true))
      else if !Passes(out, count, latest, decisions) then Unlock(Failed(false))
      else InsertTurn(MessageTurn(number, message, out, None, EvaluateGate(count, out.delegation), [], None),
          Some(Counted(count, synthesis, latest)))
    case Delegated(latest, first, out, reviews, renewed, synthesis) =>
      var merged := Some(MergedDecisions(decisions, first, number));
      if !ValidReport(latest) then Unlock(ServerError)
      else if TooManyDecisions(decisions) || !Dialogue.Delegates(first) then Unlock(Failed(true))
      else if !Passes(first, count, latest, decisions) then Unlock(Failed(false))
      else if !Reviewed(first.delegation.invoke, reviews) then Unlock(Failed(true))
      else if !ValidReport(renewed) then Unlock(Failed(false))
      else if TooManyDecisions(merged) then Unlock(Failed(true))
      else if !Passes(out, count, renewed, merged) then Unlock(Failed(false))
      else
        InsertTurn(
          MessageTurn(number, message, out, Some(first.reply), EvaluateGate(count, out.delegation),
              reviews + [synthesis], Some(renewed)),
          Some(Counted(count, synthesis, renewed)))
    case Broken => Unlock(Failed(false))
    case _ => Unlock(Failed(true))
  }

  /** The turns are listed again once the new one is in. */
  function OnRelist(turns: seq<TurnRecord>, turn: TurnRecord, dialogue: Option<Counted>): Pc {
    if dialogue.None? then LatestSynthesis(Some(turn), turns)
    else Mark(Job(Some(turn), Some(dialogue.value.count), dialogue.value.synthesis, dialogue.value.report, turns))
  }

  function OnLatestSynthesis(owner: Option<TurnRecord>, turns: seq<TurnRecord>, ch: Choice): Pc {
    if ch.Listed? then Mark(Job(owner, None, ch.reference, ch.report, turns)) else Unlock(Failed(true))
  }

  function Reading(r: Rows, q: Request, ch: Choice): Pc
    requires !IsWrite(q.pc) && !IsStore(q.pc) && Running(q.pc) && !q.pc.Acquire? && !q.pc.Unlock?
  {
    match q.pc
    case OuterRead => OnOuterRead(r.session)
    case ClaimRead => OnClaimRead(r, q)
    case ReadTurn(canonical) => OnReadTurn(r, canonical)
    case ReadSession(resuming) => OnReadSession(r.session, q.route, resuming)
    case ListTurns(seen) => OnListTurns(r.turns, seen, q.body)
    case Consult(count, turns, message) => OnConsult(count, turns, message, ch)
    case Relist(turn, dialogue) => OnRelist(r.turns, turn, dialogue)
    case LatestSynthesis(owner, turns) => OnLatestSynthesis(owner, turns, ch)
  }

  // -- the two stores ------------------------------------------------------------------

  function Remembered(s: Stores, key: nat, r: Reference): Stores {
    s.(reviews := s.reviews[key := r], saved := s.saved + {r})
  }

  /** The synthesis versions the final review draws on: those the listed turns
      produced, or the latest one when they list none. */
  function Drawn(job: Job): seq<SynthesisReport> {
    if Versions(job.turns) == [] then [job.report] else Versions(job.turns)
  }

  /** The versions parse, and the final validator lets the review of these turns
      through. */
  predicate Accepts(job: Job)
    requires job.turns != []
  {
    && (Versions(job.turns) == [] ==> ValidReport(job.report))
    && FinalReview.Judge(FinalReview.BuildReview(Drawn(job), job.turns)).None?
  }

  /** Building, validating and saving the final review. An invalid one rolls back.
      The artifact store dedups by key and refuses the same key with other
      content; `finalized_at` makes every attempt's content new, so a key that
      saved once is refused from then on. */
  function OnSave(s: Stores, key: nat, job: Job, ch: Choice): (Stores, Pc) {
    if ch.Broken? then (s, Rollback)
    else if !ch.Fine? && !ch.LostReply? && !ch.Spoiled? then (s, Unlock(Failed(true)))
    else if job.turns == [] then (s, Unlock(ServerError))
    else if !Accepts(job) then (s, Rollback)
    else if ch.reference in s.saved && key !in s.reviews then (s, Unlock(Failed(true)))
    else
      match ch
      case Fine(r) => if key in s.reviews then (s, Rollback) else (Remembered(s, key, r), Render(job, r, []))
      case LostReply(r) => (if key in s.reviews then s else Remembered(s, key, r), Unlock(Failed(true)))
      case Spoiled(r) => if key in s.reviews then (s, Rollback) else (Remembered(s, key, r), Unlock(ServerError))
      case _ => (s, Unlock(Failed(true)))
  }

  function Pinned(pins: map<Format, Pin>, f: Format, report: Reference, review: Reference): map<Format, Pin> {
    if f in pins then pins else pins[f := Pin(report.(kind := ReportKind(f)), review)]
  }

  /** Rendering one format: the report store pins (run, format) to the first
      final review and refuses any other. */
  function OnRender(s: Stores, formats: seq<Format>, job: Job, review: Reference, done: seq<Reference>,
                    ch: Choice): (Stores, Pc) {
    if |done| >= |formats| then (s, Stamp(job, review, done))
    else
      var f := formats[|done|];
      match ch
      case Fine(r) =>
        var pins := Pinned(s.pins, f, r, review);
        if pins[f].review != review then (s, Rollback)
        else (s.(pins := pins), Render(job, review, done + [pins[f].report]))
      case LostReply(r) => (s.(pins := Pinned(s.pins, f, r, review)), Unlock(Failed(true)))
      case Spoiled(r) => (s.(pins := Pinned(s.pins, f, r, review)), Rollback)
      case Broken => (s, Rollback)
      case _ => (s, Unlock(Failed(true)))
  }

  // -- row writes -------------------------------------------------------------------------

  function Updated(r: Rows, u: Update): Rows {
    r.(session := UpdatedRow(r.session, u), run := UpdatedRun(r.run, u))
  }

  function WithClaim(r: Rows, q: Request, row: Option<Claim<Body, Canonical>>): Rows {
    r.(claims := Write(r.claims, ClaimKey(q), row))
  }

  function CompleteClaim(r: Rows, q: Request, canonical: Canonical): Rows {
    WithClaim(r, q, Fulfilled(Lookup(r.claims, ClaimKey(q)), canonical))
  }

  function OnClaimInsert(r: Rows, q: Request): (Rows, Pc) {
    if ClaimKey(q) in r.claims then (r, ClaimRead)
    else (WithClaim(r, q, Inserted(None, q.body)), AfterClaim(q.route, false))
  }

  function OnDropClaim(r: Rows, q: Request): (Rows, Pc) {
    (WithClaim(r, q, Dropped(Lookup(r.claims, ClaimKey(q)))), Unlock(ReadOnly))
  }

  function OnInsertTurn(r: Rows, row: TurnRecord, dialogue: Option<Counted>): (Rows, Pc) {
    var turns := Records.InsertTurn(r.turns, row);
    var stored := OrElse(Stored(turns, row.number), row);
    var next :=
      if dialogue.None? then Relist(stored, None)
      else if row.outcome.Finalize? then WriteCount(stored, dialogue.value)
      else Settle(stored, row.outcome, dialogue.value);
    (r.(turns := turns), next)
  }

  function OnWriteCount(r: Rows, turn: TurnRecord, counted: Counted): (Rows, Pc) {
    (Updated(r, NoChange.(facilitatorTurns := Some(counted.count))), Relist(turn, Some(counted)))
  }

  function OnMark(r: Rows, job: Job): (Rows, Pc) {
    (Updated(r, NoChange.(state := Some(Finalizing))), SaveReview(job))
  }

  function OnRollback(r: Rows): (Rows, Pc) {
    (Updated(r, NoChange.(state := Some(Active))), Unlock(Failed(false)))
  }

  function OnStamp(r: Rows, job: Job, review: Reference, reports: seq<Reference>): (Rows, Pc) {
    (r.(turns := StampTurn(r.turns, [review] + reports)), Close(job, review, reports))
  }

  function ClosingResult(job: Job, reports: seq<Reference>): Canonical {
    if job.turn.Some? then
      var t := job.turn.value;
      TurnResult(t.number, Finalize, Completed, t.reply, t.rationale, t.delegation, job.synthesis, reports)
    else ReportResult(reports)
  }

  /** One transaction: the session, its run, and the claim. */
  function OnClose(r: Rows, q: Request, job: Job, review: Reference, reports: seq<Reference>): (Rows, Pc) {
    var result := ClosingResult(job, reports);
    (CompleteClaim(Updated(r, Update(Some(Completed), job.count, Some(review), Some(reports))), q, result),
     Unlock(if job.turn.Some? then TurnOk(result, job.turn.value.resolutions) else ReportOk(reports)))
  }

  function SettledResult(t: TurnRecord, outcome: Outcome, synthesis: Reference): Canonical {
    var state := if outcome.Park? then Parked else Active;
    TurnResult(t.number, t.outcome, state, t.reply, t.rationale, t.delegation, synthesis, [])
  }

  /** One transaction: the count, a possible park, and the claim. */
  function OnSettle(r: Rows, q: Request, turn: TurnRecord, outcome: Outcome, counted: Counted): (Rows, Pc) {
    var result := SettledResult(turn, outcome, counted.synthesis);
    var parked := if outcome.Park? then Some(Parked) else None;
    var update := NoChange.(state := parked, facilitatorTurns := Some(counted.count));
    (CompleteClaim(Updated(r, update), q, result), Unlock(TurnOk(result, turn.resolutions)))
  }

  function OnParkNow(r: Rows, q: Request): (Rows, Pc) {
    (CompleteClaim(Updated(r, NoChange.(state := Some(Parked))), q, ParkResult), Unlock(ParkOk))
  }

  function Writing(r: Rows, q: Request): (Rows, Pc)
    requires IsWrite(q.pc)
  {
    match q.pc
    case ClaimInsert => OnClaimInsert(r, q)
    case DropClaim => OnDropClaim(r, q)
    case InsertTurn(row, dialogue) => OnInsertTurn(r, row, dialogue)
    case WriteCount(turn, counted) => OnWriteCount(r, turn, counted)
    case Mark(job) => OnMark(r, job)
    case Rollback => OnRollback(r)
    case Stamp(job, review, reports) => OnStamp(r, job, review, reports)
    case Close(job, review, reports) => OnClose(r, q, job, review, reports)
    case Settle(turn, outcome, counted) => OnSettle(r, q, turn, outcome, counted)
    case ParkNow => OnParkNow(r, q)
  }

  function Storing(r: Rows, s: Stores, q: Request, ch: Choice): (Stores, Pc)
    requires IsStore(q.pc)
  {
    match q.pc
    case SaveReview(job) => OnSave(s, q.key, job, ch)
    case Render(job, review, done) => OnRender(s, r.session.formats, job, review, done, ch)
  }

  // -- one step of one request ---------------------------------------------------------------

  function Goto(c: Cell, id: RequestId, pc: Pc): Cell
    requires id in c.requests
  {
    c.(requests := c.requests[id := c.requests[id].(pc := pc)])
  }

  function Act(c: Cell, id: RequestId, ch: Choice): Cell
    requires id in c.requests && Running(c.requests[id].pc)
  {
    var q := c.requests[id];
    if q.pc.Acquire? then
      if Lease.Free(c.lease, c.now) then
        var next := if q.route.FinalizeRoute? then ReadSession(false) else ClaimInsert;
        Goto(c.(lease := Lease.Taken(c.lease, c.now, id)), id, next)
      else Goto(c, id, Done(SessionLocked))
    else if q.pc.Unlock? then
      Goto(c.(lease := Lease.Released(c.lease, id)), id, Done(q.pc.reply))
    else if IsWrite(q.pc) then
      var (rows, pc) := Writing(c.rows, q);
      Goto(c.(rows := rows), id, pc)
    else if IsStore(q.pc) then
      var (stores, pc) := Storing(c.rows, c.stores, q, ch);
      Goto(c.(stores := stores), id, pc)
    else Goto(c, id, Reading(c.rows, q, ch))
  }

  // -- events and runs --------------------------------------------------------------

  datatype Event =
    | Arrive(id: RequestId, route: Route, key: nat, body: Body)
    | Tick(seconds: real)
    | Crash(id: RequestId)
    | Advance(id: RequestId, choice: Choice)

  predicate Enabled(c: Cell, e: Event) {
    match e
    case Arrive(id, route, _, body) => id !in c.requests && (route.TurnRoute? <==> !body.Empty?)
    case Tick(d) => d >= 0.0
    case Crash(id) => id in c.requests && Running(c.requests[id].pc)
    case Advance(id, _) => id in c.requests && Running(c.requests[id].pc)
  }

  /** The one assumption about time: whoever writes still holds the lease. */
  predicate Punctual(c: Cell, e: Event)
    requires Enabled(c, e)
  {
    e.Advance? && IsWrite(c.requests[e.id].pc) ==> Holds(c, e.id)
  }

  function Step(c: Cell, e: Event): Cell
    requires Enabled(c, e)
  {
    match e
    case Arrive(id, route, key, body) =>
      c.(requests := c.requests[id := Request(route, key, body, if route.FinalizeRoute? then OuterRead else Acquire)])
    case Tick(d) => c.(now := c.now + d)
    case Crash(id) => Goto(c, id, Crashed)
    case Advance(id, ch) => Act(c, id, ch)
  }

  ghost predicate Possible(c: Cell, es: seq<Event>)
    decreases |es|
  {
    es == [] || (Enabled(c, es[0]) && Possible(Step(c, es[0]), es[1..]))
  }

  ghost predicate AllPunctual(c: Cell, es: seq<Event>)
    requires Possible(c, es)
    decreases |es|
  {
    es == [] || (Punctual(c, es[0]) && AllPunctual(Step(c, es[0]), es[1..]))
  }

  function Run(c: Cell, es: seq<Event>): Cell
    requires Possible(c, es)
    decreases |es|
  {
    if es == [] then c else Run(Step(c, es[0]), es[1..])
  }

  /** The rows as session creation leaves them. */
  ghost predicate NewSession(c: Cell) {
    && (exists formats, out, produced, synthesis ::
          && Distinct(formats) && |formats| > 0 && ValidReport(synthesis)
          && c.rows ==
              Rows(SessionRow(Active, formats, 1, None, []), Active, [OpeningTurn(out, produced, synthesis)], map[]))
    && c.stores == Stores(map[], {}, map[]) && c.lease.None? && c.requests == map[]
  }
}
