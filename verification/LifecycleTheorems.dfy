/** What the lifecycle machine guarantees over whole runs: every interleaving of
    turn, finalize and abandon requests, with crashes anywhere, in which whoever
    writes still holds the lease. */
module LifecycleTheorems {
  import opened Common
  import opened Artifacts
  import opened Records
  import opened Idempotency
  import opened Lifecycle
  import opened LifecycleInvariant
  import opened LifecycleSteps

  // -- runs --------------------------------------------------------------------------------

  lemma {:induction false} RunGood(c: Cell, es: seq<Event>)
    requires Inv(c) && Possible(c, es) && AllPunctual(c, es)
    ensures Good(c, Run(c, es))
    decreases |es|
  {
    if es != [] {
      var d := Step(c, es[0]);
      StepGood(c, es[0]);
      RunGood(d, es[1..]);
      EvolvesTransitive(c, d, Run(d, es[1..]));
    }
  }

  lemma {:induction false} RunTail(c: Cell, es: seq<Event>, fs: seq<Event>)
    requires Possible(c, es + fs)
    ensures Possible(c, es) && Possible(Run(c, es), fs) && Run(c, es + fs) == Run(Run(c, es), fs)
    ensures AllPunctual(c, es + fs) <==> AllPunctual(c, es) && AllPunctual(Run(c, es), fs)
    decreases |es|
  {
    if es == [] {
      assert es + fs == fs;
    } else {
      assert (es + fs)[1..] == es[1..] + fs;
      RunTail(Step(c, es[0]), es[1..], fs);
    }
  }

  lemma {:induction false} RunExtends(c: Cell, es: seq<Event>, e: Event)
    requires Possible(c, es) && Enabled(Run(c, es), e)
    ensures Possible(c, es + [e]) && Run(c, es + [e]) == Step(Run(c, es), e)
    decreases |es|
  {
    if es == [] {
      assert (es + [e])[1..] == [];
    } else {
      assert (es + [e])[1..] == es[1..] + [e];
      RunExtends(Step(c, es[0]), es[1..], e);
    }
  }

  lemma ReachedInv(c: Cell, es: seq<Event>)
    requires NewSession(c) && Possible(c, es) && AllPunctual(c, es)
    ensures Inv(Run(c, es))
  {
    NewSessionInv(c);
    RunGood(c, es);
  }

  /** In every reachable state the turns are numbered 1..n, the run moves in
      lock-step with the session, a finalizing session ends on a finalize turn,
      and the count stays within the recorded facilitator turns: at most nine,
      ten only when parked. */
  lemma ReachableRows(c: Cell, es: seq<Event>)
    requires NewSession(c) && Possible(c, es) && AllPunctual(c, es)
    ensures RowsOk(Run(c, es).rows)
  {
    ReachedInv(c, es);
  }

  // -- the state graph ---------------------------------------------------------------------

  predicate Edge(a: SessionState, b: SessionState) {
    || a == b
    || (a.Active? && (b.Finalizing? || b.Parked?))
    || (a.Finalizing? && (b.Active? || b.Parked? || b.Completed?))
  }

  /** Steps that are no row writes leave the rows alone. */
  lemma OtherStepsTouchNothing(c: Cell, e: Event)
    requires Enabled(c, e) && !(e.Advance? && IsWrite(c.requests[e.id].pc))
    ensures Step(c, e).rows == c.rows
  {
  }

  lemma WriteEdge(r: Rows, q: Request)
    requires r.turns != [] && IsWrite(q.pc) && LocalOk(r, q)
    ensures Edge(r.session.state, Writing(r, q).0.session.state)
  {
  }

  lemma StepEdge(c: Cell, e: Event)
    requires Inv(c) && Enabled(c, e) && Punctual(c, e)
    ensures Edge(c.rows.session.state, Step(c, e).rows.session.state)
  {
    if e.Advance? && IsWrite(c.requests[e.id].pc) {
      assert RequestOk(c, e.id);
      WriteEdge(c.rows, c.requests[e.id]);
      ActWrites(c, e.id, e.choice);
    } else {
      OtherStepsTouchNothing(c, e);
    }
  }

  /** Between any two successive states of a run the session follows an edge of
      the graph, so parked and completed are never left. */
  lemma EveryStepFollowsTheGraph(c: Cell, es: seq<Event>, i: nat)
    requires NewSession(c) && Possible(c, es) && AllPunctual(c, es) && i < |es|
    ensures Possible(c, es[..i]) && Possible(c, es[..i + 1])
    ensures Edge(Run(c, es[..i]).rows.session.state, Run(c, es[..i + 1]).rows.session.state)
  {
    assert es == es[..i] + es[i..];
    RunTail(c, es[..i], es[i..]);
    ReachedInv(c, es[..i]);
    StepEdge(Run(c, es[..i]), es[i]);
    RunExtends(c, es[..i], es[i]);
    assert es[..i + 1] == es[..i] + [es[i]];
  }

  /** A parked or completed session row is frozen in every later state. */
  lemma TerminalIsForever(c: Cell, es: seq<Event>, fs: seq<Event>)
    requires NewSession(c) && Possible(c, es + fs) && AllPunctual(c, es + fs)
    ensures Possible(c, es)
    ensures Terminal(Run(c, es).rows.session.state) ==> Run(c, es + fs).rows.session == Run(c, es).rows.session
  {
    NewSessionInv(c);
    RunTail(c, es, fs);
    RunGood(c, es);
    RunGood(Run(c, es), fs);
  }

  // -- completed claims and the session agree --------------------------------------------------

  /** The key's claim is completed for its own body, and says what has happened. */
  ghost predicate Announced(r: Rows, q: Request) {
    && ClaimKey(q) in r.claims && r.claims[ClaimKey(q)].fingerprint == q.body && r.claims[ClaimKey(q)].response.Some?
    && var x := r.claims[ClaimKey(q)].response.value;
       match q.route
       case TurnRoute =>
         x.TurnResult? && x.state == r.session.state && x.number == |r.turns| && r.turns != []
         && Tells(x, Last(r.turns))
       case FinalizeRoute => x == ReportResult(r.session.reports) && r.session.state.Completed?
       case AbandonRoute => x == ParkResult && r.session.state.Parked?
  }

  lemma ClosingTells(r: Rows, q: Request)
    requires RowsOk(r) && q.pc.Close? && LocalOk(r, q)
    ensures Announced(OnClose(r, q, q.pc.job, q.pc.review, q.pc.reports).0, q)
  {
  }

  lemma SettlingTells(r: Rows, q: Request)
    requires RowsOk(r) && q.pc.Settle? && LocalOk(r, q) && q.pc.outcome.Park?
    ensures Announced(OnSettle(r, q, q.pc.turn, q.pc.outcome, q.pc.counted).0, q)
  {
  }

  lemma ParkingTells(r: Rows, q: Request)
    requires RowsOk(r) && q.pc.ParkNow? && LocalOk(r, q)
    ensures Announced(OnParkNow(r, q).0, q)
  {
  }

  lemma MovingWrites(r: Rows, q: Request)
    requires IsWrite(q.pc) && !Terminal(r.session.state) && Terminal(Writing(r, q).0.session.state)
    ensures q.pc.Close? || q.pc.ParkNow? || (q.pc.Settle? && q.pc.outcome.Park?)
  {
  }

  lemma MoverTells(r: Rows, q: Request)
    requires RowsOk(r) && IsWrite(q.pc) && LocalOk(r, q) && !Terminal(r.session.state)
    requires Terminal(Writing(r, q).0.session.state)
    ensures Announced(Writing(r, q).0, q)
  {
    MovingWrites(r, q);
    match q.pc {
      case Close(_, _, _) => ClosingTells(r, q);
      case Settle(_, _, _) => SettlingTells(r, q);
      case ParkNow => ParkingTells(r, q);
    }
  }

  /** Whoever parks or completes the session completes its own claim in the same
      step, with a response that says so. */
  lemma MoverIsAnswered(c: Cell, e: Event)
    requires Inv(c) && Enabled(c, e) && Punctual(c, e)
    requires !Terminal(c.rows.session.state) && Terminal(Step(c, e).rows.session.state)
    ensures e.Advance? && Announced(Step(c, e).rows, c.requests[e.id])
  {
    if e.Advance? && IsWrite(c.requests[e.id].pc) {
      ActWrites(c, e.id, e.choice);
      assert RequestOk(c, e.id);
      MoverTells(c.rows, c.requests[e.id]);
    } else {
      OtherStepsTouchNothing(c, e);
    }
  }

  /** Every completed claim agrees with the record in every reachable state. */
  lemma CompletedClaimsAgree(c: Cell, es: seq<Event>, route: Route, key: nat)
    requires NewSession(c) && Possible(c, es) && AllPunctual(c, es)
    requires var k := (route, key); k in Run(c, es).rows.claims && Run(c, es).rows.claims[k].response.Some?
    ensures Agrees(Run(c, es).rows, route, Run(c, es).rows.claims[(route, key)].response.value)
  {
    ReachedInv(c, es);
  }

  lemma SameAnswer(c: Cell, i: RequestId, j: RequestId)
    requires Inv(c) && i in c.requests && j in c.requests && ClaimKey(c.requests[i]) == ClaimKey(c.requests[j])
    requires c.requests[i].pc.Done? && c.requests[i].pc.reply.TurnOk?
    requires c.requests[j].pc.Done? && c.requests[j].pc.reply.TurnOk?
    ensures c.requests[i].pc.reply == c.requests[j].pc.reply && c.requests[i].body == c.requests[j].body
  {
    assert RequestOk(c, i) && RequestOk(c, j);
  }

  /** Two answered turn requests with one key got one answer, for one message. */
  lemma SameKeySameAnswer(c: Cell, es: seq<Event>, i: RequestId, j: RequestId)
    requires NewSession(c) && Possible(c, es) && AllPunctual(c, es)
    requires var d := Run(c, es);
      && i in d.requests && j in d.requests && ClaimKey(d.requests[i]) == ClaimKey(d.requests[j])
      && d.requests[i].pc.Done? && d.requests[i].pc.reply.TurnOk?
      && d.requests[j].pc.Done? && d.requests[j].pc.reply.TurnOk?
    ensures var d := Run(c, es);
      d.requests[i].pc.reply == d.requests[j].pc.reply && d.requests[i].body == d.requests[j].body
  {
    ReachedInv(c, es);
    SameAnswer(Run(c, es), i, j);
  }

  // -- a settled key always replays ----------------------------------------------------------------

  /** Where a retry of a settled key may be. */
  ghost predicate Replaying(r: Rows, q: Request, x: Canonical) {
    match q.pc
    case Acquire => !q.route.FinalizeRoute?
    case ClaimInsert => !q.route.FinalizeRoute?
    case ClaimRead => !q.route.FinalizeRoute?
    case OuterRead => q.route.FinalizeRoute?
    case ReadTurn(y) => q.route.TurnRoute? && y == x
    case Unlock(reply) => Replayed(r, q.route, reply, x)
    case Done(reply) => reply.SessionLocked? || Replayed(r, q.route, reply, x)
    case Crashed => true
    case _ => false
  }

  ghost predicate Replayed(r: Rows, route: Route, reply: Reply, x: Canonical) {
    match route
    case TurnRoute =>
      reply.TurnOk? && reply.canonical == x && x.TurnResult? && 1 <= x.number <= |r.turns|
      && reply.resolutions == r.turns[x.number - 1].resolutions
    case FinalizeRoute => x.ReportResult? && reply == ReportOk(x.reports)
    case AbandonRoute => reply.ParkOk?
  }

  ghost predicate SettledKey(r: Rows, q: Request, x: Canonical) {
    Lookup(r.claims, ClaimKey(q)) == Some(Claim(q.body, Some(x)))
  }

  lemma ReplayMove(r: Rows, q: Request, x: Canonical, ch: Choice)
    requires RowsOk(r) && ClaimsOk(r) && SettledKey(r, q, x) && Replaying(r, q, x) && Running(q.pc) && !q.pc.Acquire?
    requires !q.pc.Unlock?
    ensures q.pc.ClaimInsert? ==> OnClaimInsert(r, q) == (r, ClaimRead)
    ensures !q.pc.ClaimInsert? ==> !IsWrite(q.pc) && !IsStore(q.pc) && Replaying(r, q.(pc := Reading(r, q, ch)), x)
  {
    assert Agrees(r, q.route, x);
    if q.pc.ReadTurn? {
      StoredAt(r.turns, x.number);
    }
  }

  lemma ReplayKept(r: Rows, r': Rows, q: Request, x: Canonical)
    requires RowsEvolve(r, r') && SettledKey(r, q, x) && Replaying(r, q, x)
    ensures SettledKey(r', q, x) && Replaying(r', q, x)
  {
  }

  lemma ReplayAct(c: Cell, id: RequestId, x: Canonical, ch: Choice)
    requires RowsOk(c.rows) && ClaimsOk(c.rows) && id in c.requests && Running(c.requests[id].pc)
    requires SettledKey(c.rows, c.requests[id], x) && Replaying(c.rows, c.requests[id], x)
    ensures var d := Act(c, id, ch);
      && d.rows == c.rows && Replaying(d.rows, d.requests[id], x)
      && ClaimKey(d.requests[id]) == ClaimKey(c.requests[id]) && d.requests[id].body == c.requests[id].body
  {
    var q := c.requests[id];
    if !q.pc.Acquire? && !q.pc.Unlock? {
      ReplayMove(c.rows, q, x, ch);
    }
  }

  lemma ReplayStep(c: Cell, e: Event, id: RequestId, x: Canonical)
    requires Inv(c) && Enabled(c, e) && Punctual(c, e)
    requires id in c.requests && SettledKey(c.rows, c.requests[id], x) && Replaying(c.rows, c.requests[id], x)
    ensures var d := Step(c, e);
      id in d.requests && SettledKey(d.rows, d.requests[id], x) && Replaying(d.rows, d.requests[id], x)
  {
    if e.Advance? && e.id == id {
      ReplayAct(c, id, x, e.choice);
    } else {
      assert RowsEvolve(c.rows, Step(c, e).rows) by {
        StepGood(c, e);
      }
      ReplayWaits(c, e, id, x);
    }
  }

  lemma ReplayWaits(c: Cell, e: Event, id: RequestId, x: Canonical)
    requires Enabled(c, e) && !(e.Advance? && e.id == id) && RowsEvolve(c.rows, Step(c, e).rows)
    requires id in c.requests && SettledKey(c.rows, c.requests[id], x) && Replaying(c.rows, c.requests[id], x)
    ensures var d := Step(c, e);
      id in d.requests && SettledKey(d.rows, d.requests[id], x) && Replaying(d.rows, d.requests[id], x)
  {
    ReplayKept(c.rows, Step(c, e).rows, c.requests[id], x);
  }

  lemma {:induction false} ReplayRun(c: Cell, es: seq<Event>, id: RequestId, x: Canonical)
    requires Inv(c) && Possible(c, es) && AllPunctual(c, es)
    requires id in c.requests && SettledKey(c.rows, c.requests[id], x) && Replaying(c.rows, c.requests[id], x)
    ensures var d := Run(c, es); id in d.requests && Replaying(d.rows, d.requests[id], x)
    decreases |es|
  {
    if es != [] {
      ReplayStep(c, es[0], id, x);
      StepGood(c, es[0]);
      ReplayRun(Step(c, es[0]), es[1..], id, x);
    }
  }

  /** Once a key is settled, every later request that repeats it with the same
      body is answered from the stored response or told the session is locked;
      it is never refused as read-only and never runs the turn again. */
  lemma SettledKeyAlwaysReplays(c: Cell, es: seq<Event>, id: RequestId, route: Route, key: nat, body: Body,
                                x: Canonical, fs: seq<Event>)
    requires NewSession(c) && Possible(c, es + ([Arrive(id, route, key, body)] + fs))
    requires AllPunctual(c, es + ([Arrive(id, route, key, body)] + fs))
    requires Possible(c, es) && Lookup(Run(c, es).rows.claims, (route, key)) == Some(Claim(body, Some(x)))
    ensures var d := Run(c, es + ([Arrive(id, route, key, body)] + fs));
      id in d.requests && Replaying(d.rows, d.requests[id], x)
  {
    var arrive := Arrive(id, route, key, body);
    NewSessionInv(c);
    RunTail(c, es, [arrive] + fs);
    RunGood(c, es);
    var d := Run(c, es);
    RunTail(d, [arrive], fs);
    assert [arrive][1..] == [];
    StepGood(d, arrive);
    ReplayRun(Step(d, arrive), fs, id, x);
  }

  // -- completion ------------------------------------------------------------------------------------

  /** A completed session holds exactly one report for each requested format, of
      that format's kind, all rendered from its stored final review; and every
      answer that carries reports carries these. */
  lemma CompletedReports(c: Cell, es: seq<Event>)
    requires NewSession(c) && Possible(c, es) && AllPunctual(c, es)
    requires Run(c, es).rows.session.state.Completed?
    ensures var d := Run(c, es); var s := d.rows.session;
      && s.finalReview.Some? && s.finalReview.value in d.stores.saved
      && Distinct(s.formats) && |s.reports| == |s.formats|
      && (forall i :: 0 <= i < |s.formats| ==>
            && s.formats[i] in d.stores.pins && d.stores.pins[s.formats[i]] == Pin(s.reports[i], s.finalReview.value)
            && s.reports[i].kind == ReportKind(s.formats[i]))
      && (forall id :: id in d.requests && d.requests[id].pc.Done? && d.requests[id].pc.reply.ReportOk? ==>
            d.requests[id].pc.reply.reports == s.reports)
  {
    ReachedInv(c, es);
    FormatsKept(c, es);
    ReportsOfCompleted(Run(c, es).rows, Run(c, es).stores);
    ReportAnswers(Run(c, es));
  }

  lemma ReportsOfCompleted(r: Rows, s: Stores)
    requires ClosedOk(r, s) && StoresOk(s) && r.session.state.Completed? && |r.session.formats| > 0
    ensures var t := r.session;
      && t.finalReview.Some? && t.finalReview.value in s.saved && Distinct(t.formats) && |t.reports| == |t.formats|
      && (forall i :: 0 <= i < |t.formats| ==>
            && t.formats[i] in s.pins && s.pins[t.formats[i]] == Pin(t.reports[i], t.finalReview.value)
            && t.reports[i].kind == ReportKind(t.formats[i]))
  {
    assert s.pins[r.session.formats[0]].review in s.saved;
  }

  lemma ReportAnswers(c: Cell)
    requires Inv(c)
    ensures forall id :: id in c.requests && c.requests[id].pc.Done? && c.requests[id].pc.reply.ReportOk? ==>
              c.requests[id].pc.reply.reports == c.rows.session.reports
  {
    forall id | id in c.requests && c.requests[id].pc.Done? && c.requests[id].pc.reply.ReportOk?
      ensures c.requests[id].pc.reply.reports == c.rows.session.reports
    {
      assert RequestOk(c, id);
    }
  }

  lemma FormatsKept(c: Cell, es: seq<Event>)
    requires NewSession(c) && Possible(c, es) && AllPunctual(c, es)
    ensures Run(c, es).rows.session.formats == c.rows.session.formats && |c.rows.session.formats| > 0
  {
    NewSessionInv(c);
    RunGood(c, es);
  }

  // -- internal assertions ---------------------------------------------------------------------------

  predicate Asserted(pc: Pc) {
    (pc.Unlock? || pc.Done?) && pc.reply.AssertionFailed?
  }

  /** It read the session as finalizing, and since then the session was rolled
      back and another turn was recorded. */
  predicate Overtaken(r: Rows, pc: Pc)
    requires r.turns != []
  {
    pc.ListTurns? && pc.seen.Some? && pc.seen.value.state.Finalizing? && !Last(r.turns).outcome.Finalize?
  }

  lemma TurnReadAsserts(r: Rows, s: Stores, q: Request)
    requires RowsOk(r) && ClaimsOk(r) && StoresOk(s) && StableOk(r, s, q) && q.pc.ReadTurn?
    ensures !Asserted(OnReadTurn(r, q.pc.canonical))
  {
    ReadTurnOk(r, s, q);
  }

  lemma ListingAssertsIff(r: Rows, s: Stores, q: Request)
    requires RowsOk(r) && StableOk(r, s, q) && q.pc.ListTurns?
    ensures Asserted(OnListTurns(r.turns, q.pc.seen, q.body)) <==> Overtaken(r, q.pc)
    ensures Overtaken(r, q.pc) ==> OnListTurns(r.turns, q.pc.seen, q.body) == Unlock(AssertionFailed(NotAFinalizeTurn))
  {
  }

  lemma OtherReadsAssertNothing(r: Rows, q: Request, ch: Choice)
    requires Running(q.pc) && !IsWrite(q.pc) && !IsStore(q.pc) && !q.pc.Acquire? && !q.pc.Unlock?
    requires !q.pc.ReadTurn? && !q.pc.ListTurns?
    ensures !Asserted(Reading(r, q, ch))
  {
    if q.pc.Consult? {
      ConsultMeaning(q.pc.count, q.pc.turns, q.pc.message, ch);
    }
  }

  lemma ReadingAssertsIff(r: Rows, s: Stores, q: Request, ch: Choice)
    requires RowsOk(r) && ClaimsOk(r) && StoresOk(s) && StableOk(r, s, q)
    requires Running(q.pc) && !IsWrite(q.pc) && !IsStore(q.pc) && !q.pc.Acquire? && !q.pc.Unlock?
    ensures Asserted(Reading(r, q, ch)) <==> Overtaken(r, q.pc)
    ensures Overtaken(r, q.pc) ==> Reading(r, q, ch) == Unlock(AssertionFailed(NotAFinalizeTurn))
  {
    match q.pc {
      case ReadTurn(_) => TurnReadAsserts(r, s, q);
      case ListTurns(_) => ListingAssertsIff(r, s, q);
      case _ => OtherReadsAssertNothing(r, q, ch);
    }
  }

  /** In every state the invariant allows, with or without the lease, a step
      fails an assertion exactly when it lists the turns for a session that it
      read as finalizing and that another request has since rolled back and
      carried on; then the session is not finalizing and the lease is lost. */
  lemma AssertsIff(c: Cell, id: RequestId, ch: Choice)
    requires Inv(c) && id in c.requests && Running(c.requests[id].pc) && !Asserted(c.requests[id].pc)
    ensures Asserted(Act(c, id, ch).requests[id].pc) <==> Overtaken(c.rows, c.requests[id].pc)
    ensures Overtaken(c.rows, c.requests[id].pc) ==>
              Act(c, id, ch).requests[id].pc.reply.which.NotAFinalizeTurn? && !c.rows.session.state.Finalizing?
              && !Holds(c, id)
  {
    var q := c.requests[id];
    assert RequestOk(c, id);
    if IsWrite(q.pc) {
      WritingNeverAsserts(c.rows, q);
    } else if IsStore(q.pc) {
      StoringNeverAsserts(c.rows, c.stores, q, ch);
    } else if !q.pc.Acquire? && !q.pc.Unlock? {
      ReadingAssertsIff(c.rows, c.stores, q, ch);
    }
  }

  lemma WritingNeverAsserts(r: Rows, q: Request)
    requires IsWrite(q.pc)
    ensures !Asserted(Writing(r, q).1)
  {
  }

  lemma StoringNeverAsserts(r: Rows, s: Stores, q: Request, ch: Choice)
    requires IsStore(q.pc)
    ensures !Asserted(Storing(r, s, q, ch).1)
  {
    if q.pc.SaveReview? {
      SaveMeaning(s, q.key, q.pc.job, ch);
    }
  }

  /** No step taken under the lease fails an assertion. */
  lemma HolderNeverAsserts(c: Cell, id: RequestId, ch: Choice)
    requires Inv(c) && id in c.requests && Running(c.requests[id].pc) && !Asserted(c.requests[id].pc) && Holds(c, id)
    ensures !Asserted(Act(c, id, ch).requests[id].pc)
  {
    AssertsIff(c, id, ch);
  }

  predicate AssertedAlone(pc: Pc) { Asserted(pc) && !pc.reply.which.NotAFinalizeTurn? }

  ghost predicate Unasserted(c: Cell) { forall id :: id in c.requests ==> !AssertedAlone(c.requests[id].pc) }

  lemma UnassertedAct(c: Cell, id: RequestId, ch: Choice)
    requires Inv(c) && id in c.requests && Running(c.requests[id].pc) && !AssertedAlone(c.requests[id].pc)
    ensures !AssertedAlone(Act(c, id, ch).requests[id].pc)
  {
    if Asserted(c.requests[id].pc) {
      ActUnlocks(c, id, ch);
    } else {
      AssertsIff(c, id, ch);
    }
  }

  lemma OtherKept(c: Cell, actor: RequestId, ch: Choice, id: RequestId)
    requires actor in c.requests && Running(c.requests[actor].pc) && id != actor
    ensures var d := Act(c, actor, ch);
      d.requests.Keys == c.requests.Keys && (id in c.requests ==> d.requests[id] == c.requests[id])
  {
    var pc := c.requests[actor].pc;
    if pc.Acquire? {
      ActAcquires(c, actor, ch);
    } else if pc.Unlock? {
      ActUnlocks(c, actor, ch);
    } else if IsWrite(pc) {
      ActWrites(c, actor, ch);
    } else if IsStore(pc) {
      ActCalls(c, actor, ch);
    } else {
      ActReads(c, actor, ch);
    }
  }

  /** Only the acting request moves, unless one arrives or dies. */
  lemma OthersStay(c: Cell, e: Event, id: RequestId)
    requires Enabled(c, e) && id in Step(c, e).requests
    ensures var pc := Step(c, e).requests[id].pc;
      || (id in c.requests && pc == c.requests[id].pc)
      || (e.Advance? && e.id == id && pc == Act(c, id, e.choice).requests[id].pc)
      || pc.Crashed? || pc.OuterRead? || pc.Acquire?
  {
    if e.Advance? && e.id != id {
      OtherKept(c, e.id, e.choice, id);
    }
  }

  lemma UnassertedStep(c: Cell, e: Event)
    requires Inv(c) && Enabled(c, e) && Unasserted(c)
    ensures Unasserted(Step(c, e))
  {
    forall id | id in Step(c, e).requests ensures !AssertedAlone(Step(c, e).requests[id].pc) {
      OthersStay(c, e, id);
      if e.Advance? && e.id == id {
        UnassertedAct(c, id, e.choice);
      }
    }
  }

  /** The asserts that do not compare two moments are unreachable: there is
      always a turn, a completed claim always has its record, and the count
      never passes the park turn. */
  lemma {:induction false} NoAssertionFails(c: Cell, es: seq<Event>)
    requires Inv(c) && Possible(c, es) && AllPunctual(c, es) && Unasserted(c)
    ensures Unasserted(Run(c, es))
    decreases |es|
  {
    if es != [] {
      UnassertedStep(c, es[0]);
      StepGood(c, es[0]);
      NoAssertionFails(Step(c, es[0]), es[1..]);
    }
  }

  // -- the finalization flow meets the write-once stores ---------------------------------------------------

  /** One undisturbed attempt at the finalization flow from the review save on:
      every store call is answered, the i-th new reference is `made[i]`. */
  function Attempt(r: Rows, s: Stores, q: Request, made: seq<Reference>): Pc
    decreases |made|
  {
    if made == [] || !IsStore(q.pc) then q.pc
    else
      var (s', pc) := Storing(r, s, q, Fine(made[0]));
      Attempt(r, s', q.(pc := pc), made[1..])
  }

  predicate AnyPinned(s: Stores, formats: seq<Format>) {
    exists i :: 0 <= i < |formats| && formats[i] in s.pins
  }

  lemma {:induction false} RenderingAttempt(r: Rows, s: Stores, q: Request, made: seq<Reference>)
    requires q.pc.Render? && |q.pc.done| <= |r.session.formats| && |made| == |r.session.formats| - |q.pc.done| + 1
    requires Distinct(r.session.formats)
    requires forall f :: f in s.pins && s.pins[f].review == q.pc.review ==> f in r.session.formats[..|q.pc.done|]
    ensures var pc := Attempt(r, s, q, made);
      if AnyPinned(s, r.session.formats[|q.pc.done|..]) then pc == Rollback else pc.Stamp? && pc.review == q.pc.review
    decreases |made|
  {
    var formats, n := r.session.formats, |q.pc.done|;
    var rest := formats[n..];
    var (s', pc) := Storing(r, s, q, Fine(made[0]));
    if n < |formats| {
      assert rest[0] == formats[n];
      if formats[n] in s.pins {
        assert AnyPinned(s, rest);
        assert Attempt(r, s', q.(pc := pc), made[1..]) == Rollback;
      } else {
        var q' := q.(pc := pc);
        assert formats[..n + 1] == formats[..n] + [formats[n]];
        RenderingAttempt(r, s', q', made[1..]);
        assert AnyPinned(s', formats[n + 1..]) <==> AnyPinned(s, rest) by {
          var later := formats[n + 1..];
          forall i | 0 <= i < |later| ensures later[i] == rest[i + 1] && (later[i] in s'.pins <==> later[i] in s.pins) {
            assert formats[n + 1 + i] != formats[n];
          }
        }
      }
    } else {
      assert made[1..] == [];
    }
  }

  /** An undisturbed attempt reaches the stamp exactly when the final validator
      accepts its turns, this key saved no final review before and no requested
      format is pinned; otherwise the session is rolled back to active. */
  lemma AttemptSucceedsIff(r: Rows, s: Stores, q: Request, made: seq<Reference>)
    requires StoresOk(s) && Distinct(r.session.formats) && q.pc.SaveReview? && q.pc.job.turns != []
    requires |made| == |r.session.formats| + 2 && made[0] !in s.saved
    ensures Attempt(r, s, q, made).Stamp? <==>
            Accepts(q.pc.job) && q.key !in s.reviews && !AnyPinned(s, r.session.formats)
    ensures !Attempt(r, s, q, made).Stamp? ==> Attempt(r, s, q, made) == Rollback
  {
    var (s', pc) := Storing(r, s, q, Fine(made[0]));
    if pc == Rollback {
      assert Attempt(r, s', q.(pc := pc), made[1..]) == Rollback;
    } else {
      assert s' == Remembered(s, q.key, made[0]) && pc == Render(q.pc.job, made[0], []);
      assert r.session.formats[0..] == r.session.formats;
      RenderingAttempt(r, s', q.(pc := pc), made[1..]);
    }
  }

  /** The lease holder does not carry this final review. */
  ghost predicate Orphaned(c: Cell, review: Reference) {
    review in c.stores.saved && forall id :: id in c.requests && Holds(c, id) ==> !Carries(c.requests[id].pc, review)
  }

  predicate Carries(pc: Pc, review: Reference) {
    (pc.Render? || pc.Stamp? || pc.Close?) && pc.review == review
  }

  predicate Blocked(c: Cell, f: Format, review: Reference) {
    f in c.rows.session.formats && f in c.stores.pins && c.stores.pins[f].review == review
    && !c.rows.session.state.Completed?
  }

  lemma OrphanMoves(r: Rows, s: Stores, q: Request, ch: Choice, review: Reference)
    requires review in s.saved && Running(q.pc) && !Carries(q.pc, review)
    ensures IsWrite(q.pc) ==> !Carries(Writing(r, q).1, review)
    ensures IsStore(q.pc) ==> !Carries(Storing(r, s, q, ch).1, review)
    ensures !IsWrite(q.pc) && !IsStore(q.pc) && !q.pc.Acquire? && !q.pc.Unlock? ==> !Carries(Reading(r, q, ch), review)
  {
    if q.pc.SaveReview? {
      SaveMeaning(s, q.key, q.pc.job, ch);
    } else if q.pc.Consult? {
      ConsultMeaning(q.pc.count, q.pc.turns, q.pc.message, ch);
    }
  }

  /** Acting keeps the lease, gives it to the actor, or gives it up. */
  lemma LeaseAfter(c: Cell, actor: RequestId, ch: Choice)
    requires actor in c.requests && Running(c.requests[actor].pc)
    ensures var d := Act(c, actor, ch);
      && d.now == c.now
      && (d.lease == c.lease || d.lease.None?
          || (d.lease.value.token == actor
              && (d.requests[actor].pc.ReadSession? || d.requests[actor].pc.ClaimInsert?)))
  {
    var pc := c.requests[actor].pc;
    if pc.Acquire? {
      ActAcquires(c, actor, ch);
    } else if pc.Unlock? {
      ActUnlocks(c, actor, ch);
    } else if IsWrite(pc) {
      ActWrites(c, actor, ch);
    } else if IsStore(pc) {
      ActCalls(c, actor, ch);
    } else {
      ActReads(c, actor, ch);
    }
  }

  /** Who holds the lease after a step held it before, or has just acquired it. */
  lemma HolderAfter(c: Cell, e: Event, id: RequestId)
    requires Inv(c) && Enabled(c, e) && id in Step(c, e).requests && Holds(Step(c, e), id)
    ensures id in c.requests
    ensures var pc := Step(c, e).requests[id].pc;
      || (Holds(c, id) && (pc == c.requests[id].pc || pc.Crashed?))
      || (Holds(c, id) && e.Advance? && e.id == id && pc == Act(c, id, e.choice).requests[id].pc)
      || (e.Advance? && e.id == id && (pc.ReadSession? || pc.ClaimInsert?))
  {
    if e.Advance? {
      LeaseAfter(c, e.id, e.choice);
      if e.id != id {
        OtherKept(c, e.id, e.choice, id);
      }
    }
  }

  lemma OrphanAct(c: Cell, id: RequestId, ch: Choice, review: Reference)
    requires id in c.requests && Running(c.requests[id].pc) && review in c.stores.saved
    requires !Carries(c.requests[id].pc, review)
    ensures !Carries(Act(c, id, ch).requests[id].pc, review)
  {
    OrphanMoves(c.rows, c.stores, c.requests[id], ch, review);
  }

  lemma OrphanAt(c: Cell, e: Event, id: RequestId, review: Reference)
    requires Inv(c) && Enabled(c, e) && Orphaned(c, review) && id in Step(c, e).requests && Holds(Step(c, e), id)
    ensures !Carries(Step(c, e).requests[id].pc, review)
  {
    HolderAfter(c, e, id);
    if e.Advance? && e.id == id && Holds(c, id) {
      OrphanAct(c, id, e.choice, review);
    }
  }

  lemma OrphanStep(c: Cell, e: Event, review: Reference)
    requires Inv(c) && Enabled(c, e) && Orphaned(c, review)
    ensures forall id :: id in Step(c, e).requests && Holds(Step(c, e), id) ==>
              !Carries(Step(c, e).requests[id].pc, review)
  {
    forall id | id in Step(c, e).requests && Holds(Step(c, e), id)
      ensures !Carries(Step(c, e).requests[id].pc, review)
    {
      OrphanAt(c, e, id, review);
    }
  }

  lemma BlockedRows(c: Cell, e: Event, f: Format, review: Reference)
    requires Inv(c) && Enabled(c, e) && Punctual(c, e) && Orphaned(c, review) && Blocked(c, f, review)
    ensures !Step(c, e).rows.session.state.Completed?
  {
    if e.Advance? && IsWrite(c.requests[e.id].pc) {
      assert RequestOk(c, e.id);
      ActWrites(c, e.id, e.choice);
      OnlyClosingCompletes(c.rows, c.requests[e.id]);
    } else {
      OtherStepsTouchNothing(c, e);
    }
  }

  lemma OnlyClosingCompletes(r: Rows, q: Request)
    requires IsWrite(q.pc) && !q.pc.Close? && !r.session.state.Completed?
    ensures !Writing(r, q).0.session.state.Completed?
  {
  }

  lemma BlockedStep(c: Cell, e: Event, f: Format, review: Reference)
    requires Inv(c) && Enabled(c, e) && Punctual(c, e) && Orphaned(c, review) && Blocked(c, f, review)
    ensures Orphaned(Step(c, e), review) && Blocked(Step(c, e), f, review)
  {
    BlockedRows(c, e, f, review);
    OrphanStep(c, e, review);
    assert Evolves(c, Step(c, e)) by {
      StepGood(c, e);
    }
  }

  /** A report left behind by an attempt that died or lost its lease pins its
      format for good: the session can then never complete, however often it is
      retried. */
  lemma {:induction false} AbandonedReportBlocksCompletion(c: Cell, es: seq<Event>, f: Format, review: Reference)
    requires Inv(c) && Possible(c, es) && AllPunctual(c, es) && Orphaned(c, review) && Blocked(c, f, review)
    ensures !Run(c, es).rows.session.state.Completed?
    decreases |es|
  {
    if es != [] {
      StepGood(c, es[0]);
      BlockedStep(c, es[0], f, review);
      AbandonedReportBlocksCompletion(Step(c, es[0]), es[1..], f, review);
    }
  }
}
