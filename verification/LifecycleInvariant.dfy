/** The invariant of the lifecycle machine and its preservation by every step. */
module LifecycleInvariant {
  import opened Common
  import opened Artifacts
  import opened Facilitator
  import opened Records
  import opened Turns
  import opened Idempotency
  import opened Lifecycle

  // -- what holds of the rows --------------------------------------------------------

  function FacilitatorTurns(turns: seq<TurnRecord>): nat {
    if turns == [] then 0
    else FacilitatorTurns(turns[..|turns| - 1]) + if turns[|turns| - 1].reply.Some? then 1 else 0
  }

  function Last(turns: seq<TurnRecord>): TurnRecord
    requires turns != []
  {
    turns[|turns| - 1]
  }

  /** The run is active exactly while the session is live, else in its state. */
  predicate LockStep(r: Rows) {
    r.run == if Live(r.session.state) then Active else r.session.state
  }

  /** One report per requested format, each pinned to this final review. */
  ghost predicate ReportsPinned(formats: seq<Format>, s: Stores, review: Reference, reports: seq<Reference>) {
    && |reports| == |formats|
    && forall i :: 0 <= i < |reports| ==> formats[i] in s.pins && s.pins[formats[i]] == Pin(reports[i], review)
  }

  ghost predicate StoresOk(s: Stores) {
    && (forall f :: f in s.pins ==> s.pins[f].report.kind == ReportKind(f) && s.pins[f].review in s.saved)
    && (forall k :: k in s.reviews ==> s.reviews[k] in s.saved)
    && (forall k, l :: k in s.reviews && l in s.reviews && k != l ==> s.reviews[k] != s.reviews[l])
  }

  /** The opening turn goes on, and carries the first synthesis version. */
  predicate Opened(turns: seq<TurnRecord>)
    requires turns != []
  {
    turns[0].outcome.Continue? && turns[0].synthesis.Some?
  }

  /** A finalizing turn is an acceptance, or leaves no issue open. */
  predicate GateOk(t: TurnRecord) {
    t.outcome.Finalize? ==>
        (t.poAccepted && t.delegation.None?)
        || (!t.poAccepted && t.delegation.Some? && t.delegation.value.openIssues == [])
  }

  /** What the turn recorded passed the schemas. */
  predicate Parsed(t: TurnRecord) {
    && (t.synthesis.Some? ==> ValidReport(t.synthesis.value))
    && forall i :: 0 <= i < |t.resolutions| ==> ValidText(t.resolutions[i].issue)
  }

  predicate RecordOk(t: TurnRecord) { GateOk(t) && Parsed(t) }

  ghost predicate Gated(turns: seq<TurnRecord>) {
    forall i :: 0 <= i < |turns| ==> RecordOk(turns[i])
  }

  ghost predicate RowsOk(r: Rows) {
    && r.turns != [] && Numbered(r.turns) && Opened(r.turns) && Gated(r.turns)
    && LockStep(r)
    && (r.session.state.Finalizing? ==> Last(r.turns).outcome.Finalize?)
    && r.session.facilitatorTurns <= FacilitatorTurns(r.turns)
    && 1 <= r.session.facilitatorTurns <= PARK_TURN
    && (!r.session.state.Parked? ==> r.session.facilitatorTurns < PARK_TURN)
  }

  ghost predicate ClosedOk(r: Rows, s: Stores) {
    && Distinct(r.session.formats)
    && (r.session.state.Completed? ==>
          r.session.finalReview.Some?
          && ReportsPinned(r.session.formats, s, r.session.finalReview.value, r.session.reports))
  }

  // -- what holds of the completed claims -------------------------------------------------

  predicate Tells(x: Canonical, t: TurnRecord) {
    x.TurnResult? && x.number == t.number && x.outcome == t.outcome && x.reply == t.reply
    && x.rationale == t.rationale && x.delegation == t.delegation
  }

  ghost predicate Agrees(r: Rows, route: Route, x: Canonical) {
    match route
    case TurnRoute =>
      && x.TurnResult? && 1 <= x.number <= |r.turns| && Tells(x, r.turns[x.number - 1])
      && (x.state.Parked? ==> r.session.state.Parked?)
      && (x.state.Completed? ==> r.session.state.Completed? && r.session.reports == x.reports)
    case FinalizeRoute => x.ReportResult? && r.session.state.Completed? && r.session.reports == x.reports
    case AbandonRoute => x.ParkResult? && r.session.state.Parked?
  }

  ghost predicate ClaimsOk(r: Rows) {
    forall k :: k in r.claims && r.claims[k].response.Some? ==> Agrees(r, k.0, r.claims[k].response.value)
  }

  // -- what holds of a request ---------------------------------------------------------------

  predicate Answered(r: Rows, q: Request, x: Canonical) {
    q.route.TurnRoute? && Lookup(r.claims, ClaimKey(q)) == Some(Claim(q.body, Some(x)))
  }

  ghost predicate ReplyOk(r: Rows, q: Request, reply: Reply) {
    match reply
    case TurnOk(x, resolutions) =>
      Answered(r, q, x) && x.TurnResult? && 1 <= x.number <= |r.turns|
      && r.turns[x.number - 1].resolutions == resolutions
    case ReportOk(reports) => r.session.state.Completed? && r.session.reports == reports
    case ParkOk => r.session.state.Parked?
    case _ => true
  }

  ghost predicate DonePinned(formats: seq<Format>, s: Stores, review: Reference, done: seq<Reference>) {
    && |done| <= |formats|
    && forall i :: 0 <= i < |done| ==> formats[i] in s.pins && s.pins[formats[i]] == Pin(done[i], review)
  }

  /** Facts that stay true whether or not the request still holds the lease. */
  ghost predicate StableOk(r: Rows, s: Stores, q: Request) {
    match q.pc
    case ReadTurn(x) => Answered(r, q, x)
    case ListTurns(seen) => seen.Some? && !seen.value.state.Finalizing? ==> seen.value.facilitatorTurns < PARK_TURN
    case Unlock(reply) => ReplyOk(r, q, reply)
    case Done(reply) => ReplyOk(r, q, reply)
    case Render(_, review, done) => Lookup(s.reviews, q.key) == Some(review)
        && DonePinned(r.session.formats, s, review, done)
    case Stamp(_, review, reports) => Lookup(s.reviews, q.key) == Some(review)
        && ReportsPinned(r.session.formats, s, review, reports)
    case Close(_, review, reports) => Lookup(s.reviews, q.key) == Some(review)
        && ReportsPinned(r.session.formats, s, review, reports)
    case _ => true
  }

  predicate Mine(r: Rows, q: Request) {
    Lookup(r.claims, ClaimKey(q)) == Some(Claim(q.body, None))
  }

  predicate IsLast(r: Rows, t: TurnRecord)
    requires r.turns != []
  {
    SameTurn(Last(r.turns), t)
  }

  function CountOf(dialogue: Option<Counted>): Option<nat> {
    if dialogue.Some? then Some(dialogue.value.count) else None
  }

  /** The request finalizes the last turn, its own one on the turn route. */
  predicate OwnerOk(r: Rows, q: Request, owner: Option<TurnRecord>, count: Option<nat>)
    requires r.turns != []
  {
    && Mine(r, q) && Last(r.turns).outcome.Finalize?
    && (q.route.TurnRoute? <==> owner.Some?) && !q.route.AbandonRoute?
    && (owner.Some? ==> IsLast(r, owner.value))
    && (count.Some? ==> count.value == r.session.facilitatorTurns)
  }

  /** And the turns it listed are the recorded ones. */
  predicate JobOk(r: Rows, q: Request, job: Job)
    requires r.turns != []
  {
    OwnerOk(r, q, job.turn, job.count) && job.turns == r.turns
  }

  /** A facilitator turn about to be counted. */
  predicate CountOk(r: Rows, count: nat, outcome: Outcome) {
    count == r.session.facilitatorTurns + 1 <= PARK_TURN && (outcome.Park? <==> count == PARK_TURN)
  }

  /** Facts a request relies on while it holds the lease. */
  ghost predicate LocalOk(r: Rows, q: Request)
    requires r.turns != []
  {
    match q.pc
    case ClaimInsert => q.route.FinalizeRoute? ==> r.session.state.Finalizing?
    case ClaimRead => ClaimKey(q) in r.claims && (q.route.FinalizeRoute? ==> r.session.state.Finalizing?)
    case ReadSession(_) => !q.route.FinalizeRoute? ==> Mine(r, q)
    case DropClaim => Mine(r, q)
    case ListTurns(seen) =>
      && Mine(r, q) && Live(r.session.state) && !q.route.AbandonRoute?
      && (q.route.FinalizeRoute? ==> seen.None? && r.session.state.Finalizing?)
      && (q.route.TurnRoute? ==> seen == Some(r.session))
    case Consult(count, turns, _) =>
      Mine(r, q) && q.route.TurnRoute? && r.session.state.Active?
      && count == r.session.facilitatorTurns + 1 <= PARK_TURN && turns == r.turns
    case InsertTurn(row, dialogue) =>
      && Mine(r, q) && q.route.TurnRoute? && r.session.state.Active? && row.number == |r.turns| + 1
      && RecordOk(row) && (dialogue.None? ==> row == AcceptanceTurn(row.number))
      && (dialogue.Some? ==>
          row.reply.Some? && CountOk(r, dialogue.value.count, row.outcome) && !TooManyDecisions(DecisionsOf(r.turns)))
    case WriteCount(turn, counted) =>
      && Mine(r, q) && q.route.TurnRoute? && r.session.state.Active? && IsLast(r, turn) && turn.outcome.Finalize?
      && CountOk(r, counted.count, turn.outcome) && counted.count <= FacilitatorTurns(r.turns)
    case Relist(turn, dialogue) => Live(r.session.state) && OwnerOk(r, q, Some(turn), CountOf(dialogue))
    case LatestSynthesis(owner, turns) => Live(r.session.state) && OwnerOk(r, q, owner, None) && turns == r.turns
    case Mark(job) => Live(r.session.state) && JobOk(r, q, job)
    case SaveReview(job) => r.session.state.Finalizing? && JobOk(r, q, job)
    case Render(job, _, _) => r.session.state.Finalizing? && JobOk(r, q, job)
    case Rollback => r.session.state.Finalizing?
    case Stamp(job, _, _) => r.session.state.Finalizing? && JobOk(r, q, job)
    case Close(job, review, reports) =>
      r.session.state.Finalizing? && OwnerOk(r, q, job.turn, job.count)
      && r.turns == StampTurn(job.turns, [review] + reports)
    case Settle(turn, outcome, counted) =>
      && Mine(r, q) && q.route.TurnRoute? && r.session.state.Active? && IsLast(r, turn) && turn.outcome == outcome
          && !outcome.Finalize?
      && CountOk(r, counted.count, outcome) && counted.count <= FacilitatorTurns(r.turns)
    case ParkNow => Mine(r, q) && q.route.AbandonRoute? && Live(r.session.state)
    case _ => true
  }

  ghost predicate RequestOk(c: Cell, id: RequestId)
    requires id in c.requests && c.rows.turns != []
  {
    StableOk(c.rows, c.stores, c.requests[id]) && (Holds(c, id) ==> LocalOk(c.rows, c.requests[id]))
  }

  ghost predicate Inv(c: Cell) {
    && RowsOk(c.rows) && ClaimsOk(c.rows) && StoresOk(c.stores) && ClosedOk(c.rows, c.stores)
    && (c.lease.Some? ==> c.lease.value.token in c.requests)
    && forall id :: id in c.requests ==> RequestOk(c, id)
  }

  // -- how the rows and the stores may evolve ----------------------------------------------------

  ghost predicate SameTurns(a: seq<TurnRecord>, b: seq<TurnRecord>) {
    |a| <= |b| && forall i :: 0 <= i < |a| ==> SameTurn(a[i], b[i])
  }

  /** Completed claims, the recorded dialogue, terminal states and the list of
      requested formats are forever. */
  ghost predicate RowsEvolve(r: Rows, t: Rows) {
    && t.session.formats == r.session.formats
    && (forall k :: k in r.claims && r.claims[k].response.Some? ==> k in t.claims && t.claims[k] == r.claims[k])
    && SameTurns(r.turns, t.turns)
    && (Terminal(r.session.state) ==> t.session == r.session)
  }

  ghost predicate StoresGrow(s: Stores, t: Stores) {
    && (forall k :: k in s.reviews ==> k in t.reviews && t.reviews[k] == s.reviews[k])
    && s.saved <= t.saved
    && (forall f :: f in s.pins ==> f in t.pins && t.pins[f] == s.pins[f])
  }

  ghost predicate Evolves(c: Cell, d: Cell) {
    RowsEvolve(c.rows, d.rows) && StoresGrow(c.stores, d.stores) && c.now <= d.now
  }

  lemma EvolvesTransitive(a: Cell, b: Cell, c: Cell)
    requires Evolves(a, b) && Evolves(b, c)
    ensures Evolves(a, c)
  {
  }

  lemma StableKept(r: Rows, s: Stores, r': Rows, s': Stores, q: Request)
    requires RowsEvolve(r, r') && StoresGrow(s, s') && StableOk(r, s, q)
    ensures StableOk(r', s', q)
  {
  }

  lemma AgreesKept(r: Rows, r': Rows, route: Route, x: Canonical)
    requires RowsEvolve(r, r') && Agrees(r, route, x)
    ensures Agrees(r', route, x)
  {
  }

  lemma ClosedKept(r: Rows, s: Stores, s': Stores)
    requires StoresGrow(s, s') && ClosedOk(r, s)
    ensures ClosedOk(r, s')
  {
  }

  // -- what a step has to deliver ---------------------------------------------------------------------

  /** What a row write by the lease holder makes of the rows. */
  ghost predicate Wrote(r: Rows, s: Stores, r': Rows) {
    && RowsOk(r') && RowsEvolve(r, r') && ClosedOk(r', s)
    && (forall k :: k in r'.claims && r'.claims[k].response.Some? ==>
          (k in r.claims && r'.claims[k] == r.claims[k]) || Agrees(r', k.0, r'.claims[k].response.value))
  }

  /** What the next step of the writer can rely on. */
  ghost predicate Onward(r: Rows, s: Stores, q: Request)
    requires r.turns != []
  {
    StableOk(r, s, q) && LocalOk(r, q)
  }

  /** A read, or a call to a store: the rows stay; what the request relied on
      carries over to its next step. */
  ghost predicate MoveOk(r: Rows, s: Stores, q: Request, s': Stores, pc: Pc)
    requires r.turns != []
  {
    && StoresOk(s') && StoresGrow(s, s')
    && StableOk(r, s', q.(pc := pc))
    && (LocalOk(r, q) ==> LocalOk(r, q.(pc := pc)))
  }
}
