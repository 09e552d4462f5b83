/** Every step of every request preserves the lifecycle invariant. */
module LifecycleSteps {
  import opened Artifacts
  import opened Common
  import opened Idempotency
  import opened Records
  import opened Turns
  import opened Lifecycle
  import opened LifecycleInvariant
  import Lease

  // -- reads ------------------------------------------------------------------------------

  lemma OuterReadOk(r: Rows, s: Stores, q: Request)
    requires RowsOk(r) && StoresOk(s) && q.pc.OuterRead?
    ensures MoveOk(r, s, q, s, OnOuterRead(r.session))
  {
  }

  lemma ReplayOk(r: Rows, s: Stores, q: Request, x: Canonical)
    requires RowsOk(r) && StoresOk(s) && Lookup(r.claims, ClaimKey(q)) == Some(Claim(q.body, Some(x)))
    requires Agrees(r, q.route, x)
    ensures MoveOk(r, s, q, s, OnReplay(q.route, x))
  {
  }

  lemma UnsettledOk(r: Rows, s: Stores, q: Request)
    requires RowsOk(r) && StoresOk(s) && q.pc.ClaimRead?
    requires ClaimKey(q) in r.claims && r.claims[ClaimKey(q)].fingerprint == q.body ==>
            r.claims[ClaimKey(q)].response.None?
    ensures MoveOk(r, s, q, s, OnClaimRead(r, q))
  {
  }

  lemma ClaimReadOk(r: Rows, s: Stores, q: Request)
    requires RowsOk(r) && ClaimsOk(r) && StoresOk(s) && q.pc.ClaimRead?
    ensures MoveOk(r, s, q, s, OnClaimRead(r, q))
  {
    var k := ClaimKey(q);
    if k in r.claims && r.claims[k].fingerprint == q.body && r.claims[k].response.Some? {
      assert Agrees(r, k.0, r.claims[k].response.value);
      ReplayOk(r, s, q, r.claims[k].response.value);
    } else {
      UnsettledOk(r, s, q);
    }
  }

  lemma ReadTurnOk(r: Rows, s: Stores, q: Request)
    requires RowsOk(r) && ClaimsOk(r) && StoresOk(s) && q.pc.ReadTurn? && StableOk(r, s, q)
    ensures MoveOk(r, s, q, s, OnReadTurn(r, q.pc.canonical))
    ensures OnReadTurn(r, q.pc.canonical) != Unlock(AssertionFailed(NoTurnRecord))
  {
    var x := q.pc.canonical;
    assert Agrees(r, TurnRoute, r.claims[ClaimKey(q)].response.value);
    StoredAt(r.turns, x.number);
  }

  lemma ReadSessionOk(r: Rows, s: Stores, q: Request)
    requires RowsOk(r) && StoresOk(s) && q.pc.ReadSession?
    ensures MoveOk(r, s, q, s, OnReadSession(r.session, q.route, q.pc.resuming))
  {
  }

  lemma ListTurnsOk(r: Rows, s: Stores, q: Request)
    requires RowsOk(r) && StoresOk(s) && q.pc.ListTurns?
    requires StableOk(r, s, q)
    ensures MoveOk(r, s, q, s, OnListTurns(r.turns, q.pc.seen, q.body))
  {
  }

  /** What a consultation may lead to: a turn to insert, or a failure. */
  predicate Consulted(count: nat, turns: seq<TurnRecord>, pc: Pc) {
    || (pc.Unlock? && (pc.reply.Failed? || pc.reply.ServerError?))
    || (pc.InsertTurn? && pc.row.number == NextNumber(turns) && pc.row.reply.Some? && pc.dialogue.Some?
        && pc.dialogue.value.count == count
        && RecordOk(pc.row) && (pc.row.outcome.Park? <==> count >= PARK_TURN) && !TooManyDecisions(DecisionsOf(turns)))
  }

  lemma ConsultMeaning(count: nat, turns: seq<TurnRecord>, message: string, ch: Choice)
    ensures Consulted(count, turns, OnConsult(count, turns, message, ch))
  {
  }

  lemma ConsultOk(r: Rows, s: Stores, q: Request, pc: Pc)
    requires RowsOk(r) && StoresOk(s) && q.pc.Consult? && Consulted(q.pc.count, q.pc.turns, pc)
    ensures MoveOk(r, s, q, s, pc)
  {
  }

  lemma RelistOk(r: Rows, s: Stores, q: Request)
    requires RowsOk(r) && StoresOk(s) && q.pc.Relist?
    ensures MoveOk(r, s, q, s, OnRelist(r.turns, q.pc.turn, q.pc.dialogue))
  {
  }

  lemma LatestSynthesisOk(r: Rows, s: Stores, q: Request, ch: Choice)
    requires RowsOk(r) && StoresOk(s) && q.pc.LatestSynthesis?
    ensures MoveOk(r, s, q, s, OnLatestSynthesis(q.pc.owner, q.pc.turns, ch))
  {
  }

  lemma ReadingOk(r: Rows, s: Stores, q: Request, ch: Choice)
    requires RowsOk(r) && ClaimsOk(r) && StoresOk(s) && StableOk(r, s, q)
    requires !IsWrite(q.pc) && !IsStore(q.pc) && Running(q.pc) && !q.pc.Acquire? && !q.pc.Unlock?
    ensures MoveOk(r, s, q, s, Reading(r, q, ch))
  {
    match q.pc {
      case OuterRead => OuterReadOk(r, s, q);
      case ClaimRead => ClaimReadOk(r, s, q);
      case ReadTurn(_) => ReadTurnOk(r, s, q);
      case ReadSession(_) => ReadSessionOk(r, s, q);
      case ListTurns(_) => ListTurnsOk(r, s, q);
      case Consult(count, turns, message) =>
        ConsultMeaning(count, turns, message, ch);
        ConsultOk(r, s, q, OnConsult(count, turns, message, ch));
      case Relist(_, _) => RelistOk(r, s, q);
      case LatestSynthesis(_, _) => LatestSynthesisOk(r, s, q, ch);
    }
  }

  // -- the two stores -----------------------------------------------------------------------

  /** What saving the review may lead to: a new review under a new key, or the
      stores as they were. */
  predicate SavedOr(s: Stores, key: nat, job: Job, s': Stores, pc: Pc) {
    && (s' == s || (key !in s.reviews && key in s'.reviews && s'.reviews[key] !in s.saved
        && s' == Remembered(s, key, s'.reviews[key])))
    && (pc.Rollback? || (pc.Unlock? && (pc.reply.Failed? || pc.reply.ServerError?))
        || (pc.Render? && s' != s && pc == Render(job, s'.reviews[key], [])))
  }

  lemma SaveMeaning(s: Stores, key: nat, job: Job, ch: Choice)
    ensures var (s', pc) := OnSave(s, key, job, ch); SavedOr(s, key, job, s', pc)
  {
    if (ch.Fine? || ch.LostReply? || ch.Spoiled?) && key !in s.reviews {
      assert key in Remembered(s, key, ch.reference).reviews;
    }
  }

  lemma RememberedOk(s: Stores, key: nat, r: Reference)
    requires StoresOk(s) && key !in s.reviews && r !in s.saved
    ensures StoresOk(Remembered(s, key, r)) && StoresGrow(s, Remembered(s, key, r))
  {
  }

  /** The call ends the request or rolls the session back. */
  lemma FailedOk(r: Rows, s: Stores, q: Request, s': Stores, pc: Pc)
    requires RowsOk(r) && StoresOk(s') && StoresGrow(s, s') && (q.pc.SaveReview? || q.pc.Render?)
    requires pc.Rollback? || (pc.Unlock? && (pc.reply.Failed? || pc.reply.ServerError?))
    ensures MoveOk(r, s, q, s', pc)
  {
  }

  lemma SavedOk(r: Rows, s: Stores, q: Request, s': Stores, review: Reference)
    requires RowsOk(r) && StoresOk(s') && StoresGrow(s, s') && q.pc.SaveReview?
    requires Lookup(s'.reviews, q.key) == Some(review)
    ensures MoveOk(r, s, q, s', Render(q.pc.job, review, []))
  {
  }

  lemma SaveReviewOk(r: Rows, s: Stores, q: Request, s': Stores, pc: Pc)
    requires RowsOk(r) && StoresOk(s) && q.pc.SaveReview? && SavedOr(s, q.key, q.pc.job, s', pc)
    ensures MoveOk(r, s, q, s', pc)
  {
    if s' != s {
      RememberedOk(s, q.key, s'.reviews[q.key]);
    }
    if pc.Render? {
      SavedOk(r, s, q, s', s'.reviews[q.key]);
    } else {
      FailedOk(r, s, q, s', pc);
    }
  }

  lemma PinnedGrows(s: Stores, f: Format, report: Reference, review: Reference)
    requires StoresOk(s) && review in s.saved
    ensures var t := s.(pins := Pinned(s.pins, f, report, review)); StoresOk(t) && StoresGrow(s, t) && f in t.pins
  {
  }

  lemma RenderOk(r: Rows, s: Stores, q: Request, ch: Choice)
    requires RowsOk(r) && StoresOk(s) && q.pc.Render? && StableOk(r, s, q)
    ensures var (s', pc) := OnRender(s, r.session.formats, q.pc.job, q.pc.review, q.pc.done, ch);
      MoveOk(r, s, q, s', pc)
  {
    var review, done, formats := q.pc.review, q.pc.done, r.session.formats;
    if |done| >= |formats| {
      AllRenderedOk(r, s, q);
    } else if ch.Fine? || ch.LostReply? || ch.Spoiled? {
      assert review in s.saved by {
        assert s.reviews[q.key] == review;
      }
      PinnedGrows(s, formats[|done|], ch.reference, review);
      PinOk(r, s, q, s.(pins := Pinned(s.pins, formats[|done|], ch.reference, review)), ch);
    } else {
      FailedOk(r, s, q, s, if ch.Broken? then Rollback else Unlock(Failed(true)));
    }
  }

  lemma AllRenderedOk(r: Rows, s: Stores, q: Request)
    requires RowsOk(r) && StoresOk(s) && q.pc.Render? && StableOk(r, s, q) && |q.pc.done| >= |r.session.formats|
    ensures MoveOk(r, s, q, s, Stamp(q.pc.job, q.pc.review, q.pc.done))
  {
  }

  /** The call was carried out: the format is pinned now. */
  lemma PinOk(r: Rows, s: Stores, q: Request, s': Stores, ch: Choice)
    requires RowsOk(r) && StoresOk(s) && StoresOk(s') && StoresGrow(s, s') && q.pc.Render? && StableOk(r, s, q)
    requires |q.pc.done| < |r.session.formats| && r.session.formats[|q.pc.done|] in s'.pins
    requires ch.Fine? || ch.LostReply? || ch.Spoiled?
    requires s' == s.(pins := Pinned(s.pins, r.session.formats[|q.pc.done|], ch.reference, q.pc.review))
    ensures var (t, pc) := OnRender(s, r.session.formats, q.pc.job, q.pc.review, q.pc.done, ch); MoveOk(r, s, q, t, pc)
  {
    var f := r.session.formats[|q.pc.done|];
    if ch.Fine? && s'.pins[f].review == q.pc.review {
      RenderedOk(r, s, q, s', f);
    } else {
      var (t, pc) := OnRender(s, r.session.formats, q.pc.job, q.pc.review, q.pc.done, ch);
      assert StoresOk(t) && StoresGrow(s, t);
      FailedOk(r, s, q, t, pc);
    }
  }

  /** One more report in hand, pinned to the review that is being rendered. */
  lemma RenderedOk(r: Rows, s: Stores, q: Request, s': Stores, f: Format)
    requires RowsOk(r) && StoresOk(s') && StoresGrow(s, s') && q.pc.Render? && StableOk(r, s, q)
    requires |q.pc.done| < |r.session.formats| && f == r.session.formats[|q.pc.done|] && f in s'.pins
    requires s'.pins[f].review == q.pc.review
    ensures MoveOk(r, s, q, s', Render(q.pc.job, q.pc.review, q.pc.done + [s'.pins[f].report]))
  {
    DonePinnedGrows(r.session.formats, s, s', q.pc.review, q.pc.done);
    var next := q.(pc := Render(q.pc.job, q.pc.review, q.pc.done + [s'.pins[f].report]));
    assert StableOk(r, s', next);
  }

  lemma DonePinnedGrows(formats: seq<Format>, s: Stores, s': Stores, review: Reference, done: seq<Reference>)
    requires StoresGrow(s, s') && DonePinned(formats, s, review, done) && |done| < |formats|
    requires formats[|done|] in s'.pins && s'.pins[formats[|done|]].review == review
    ensures DonePinned(formats, s', review, done + [s'.pins[formats[|done|]].report])
  {
  }

  lemma StoringOk(r: Rows, s: Stores, q: Request, ch: Choice)
    requires RowsOk(r) && StoresOk(s) && IsStore(q.pc) && StableOk(r, s, q)
    ensures var (s', pc) := Storing(r, s, q, ch); MoveOk(r, s, q, s', pc)
  {
    if q.pc.SaveReview? {
      var (s', pc) := OnSave(s, q.key, q.pc.job, ch);
      SaveMeaning(s, q.key, q.pc.job, ch);
      SaveReviewOk(r, s, q, s', pc);
    } else {
      RenderOk(r, s, q, ch);
    }
  }

  // -- row writes -------------------------------------------------------------------------------

  /** What a writer may use. */
  ghost predicate Ready(r: Rows, s: Stores, q: Request) {
    RowsOk(r) && ClaimsOk(r) && ClosedOk(r, s) && StableOk(r, s, q) && LocalOk(r, q)
  }

  lemma ClaimInsertWrote(r: Rows, s: Stores, q: Request)
    requires Ready(r, s, q) && q.pc.ClaimInsert?
    ensures Wrote(r, s, OnClaimInsert(r, q).0)
  {
  }

  lemma ClaimInsertOnward(r: Rows, s: Stores, q: Request)
    requires Ready(r, s, q) && q.pc.ClaimInsert? && OnClaimInsert(r, q).0.turns != []
    ensures var (r', pc) := OnClaimInsert(r, q); Onward(r', s, q.(pc := pc))
  {
  }

  lemma DropClaimWrote(r: Rows, s: Stores, q: Request)
    requires Ready(r, s, q) && q.pc.DropClaim?
    ensures Wrote(r, s, OnDropClaim(r, q).0)
  {
  }

  lemma DropClaimOnward(r: Rows, s: Stores, q: Request)
    requires Ready(r, s, q) && q.pc.DropClaim? && OnDropClaim(r, q).0.turns != []
    ensures var (r', pc) := OnDropClaim(r, q); Onward(r', s, q.(pc := pc))
  {
  }

  lemma InsertTurnWrote(r: Rows, s: Stores, q: Request)
    requires Ready(r, s, q) && q.pc.InsertTurn?
    ensures Wrote(r, s, OnInsertTurn(r, q.pc.row, q.pc.dialogue).0)
  {
    InsertAppends(r.turns, q.pc.row);
    assert (r.turns + [q.pc.row])[..|r.turns|] == r.turns;
  }

  lemma InsertTurnOnward(r: Rows, s: Stores, q: Request)
    requires Ready(r, s, q) && q.pc.InsertTurn? && OnInsertTurn(r, q.pc.row, q.pc.dialogue).0.turns != []
    ensures var (r', pc) := OnInsertTurn(r, q.pc.row, q.pc.dialogue); Onward(r', s, q.(pc := pc))
  {
    InsertAppends(r.turns, q.pc.row);
    assert (r.turns + [q.pc.row])[..|r.turns|] == r.turns;
  }

  lemma WriteCountWrote(r: Rows, s: Stores, q: Request)
    requires Ready(r, s, q) && q.pc.WriteCount?
    ensures Wrote(r, s, OnWriteCount(r, q.pc.turn, q.pc.counted).0)
  {
  }

  lemma WriteCountOnward(r: Rows, s: Stores, q: Request)
    requires Ready(r, s, q) && q.pc.WriteCount? && OnWriteCount(r, q.pc.turn, q.pc.counted).0.turns != []
    ensures var (r', pc) := OnWriteCount(r, q.pc.turn, q.pc.counted); Onward(r', s, q.(pc := pc))
  {
  }

  lemma SettleWrote(r: Rows, s: Stores, q: Request)
    requires Ready(r, s, q) && q.pc.Settle?
    ensures Wrote(r, s, OnSettle(r, q, q.pc.turn, q.pc.outcome, q.pc.counted).0)
  {
  }

  lemma SettleOnward(r: Rows, s: Stores, q: Request)
    requires Ready(r, s, q) && q.pc.Settle? && OnSettle(r, q, q.pc.turn, q.pc.outcome, q.pc.counted).0.turns != []
    ensures var (r', pc) := OnSettle(r, q, q.pc.turn, q.pc.outcome, q.pc.counted); Onward(r', s, q.(pc := pc))
  {
  }

  lemma ParkNowRows(r: Rows, s: Stores, q: Request)
    requires Ready(r, s, q) && q.pc.ParkNow?
    ensures var r' := OnParkNow(r, q).0; RowsOk(r') && RowsEvolve(r, r') && ClosedOk(r', s)
  {
  }

  lemma ParkNowClaims(r: Rows, s: Stores, q: Request)
    requires Ready(r, s, q) && q.pc.ParkNow?
    ensures var r' := OnParkNow(r, q).0;
      forall k :: k in r'.claims && r'.claims[k].response.Some? ==>
        (k in r.claims && r'.claims[k] == r.claims[k]) || Agrees(r', k.0, r'.claims[k].response.value)
  {
  }

  lemma ParkNowWrote(r: Rows, s: Stores, q: Request)
    requires Ready(r, s, q) && q.pc.ParkNow?
    ensures Wrote(r, s, OnParkNow(r, q).0)
  {
    ParkNowRows(r, s, q);
    ParkNowClaims(r, s, q);
  }

  lemma ParkNowOnward(r: Rows, s: Stores, q: Request)
    requires Ready(r, s, q) && q.pc.ParkNow? && OnParkNow(r, q).0.turns != []
    ensures var (r', pc) := OnParkNow(r, q); Onward(r', s, q.(pc := pc))
  {
  }

  lemma MarkWrote(r: Rows, s: Stores, q: Request)
    requires Ready(r, s, q) && q.pc.Mark?
    ensures Wrote(r, s, OnMark(r, q.pc.job).0)
  {
  }

  lemma MarkOnward(r: Rows, s: Stores, q: Request)
    requires Ready(r, s, q) && q.pc.Mark? && OnMark(r, q.pc.job).0.turns != []
    ensures var (r', pc) := OnMark(r, q.pc.job); Onward(r', s, q.(pc := pc))
  {
  }

  lemma RollbackWrote(r: Rows, s: Stores, q: Request)
    requires Ready(r, s, q) && q.pc.Rollback?
    ensures Wrote(r, s, OnRollback(r).0)
  {
  }

  lemma RollbackOnward(r: Rows, s: Stores, q: Request)
    requires Ready(r, s, q) && q.pc.Rollback? && OnRollback(r).0.turns != []
    ensures var (r', pc) := OnRollback(r); Onward(r', s, q.(pc := pc))
  {
  }

  lemma {:induction false} StampKeepsCount(turns: seq<TurnRecord>, refs: seq<Reference>)
    ensures FacilitatorTurns(StampTurn(turns, refs)) == FacilitatorTurns(turns)
  {
    if turns != [] {
      var init, last := turns[..|turns| - 1], turns[|turns| - 1];
      StampKeepsCount(init, refs);
      if last.outcome.Finalize? {
        assert (init + [Restamped(last, refs)])[..|init|] == init;
      } else {
        assert (StampTurn(init, refs) + [last])[..|init|] == StampTurn(init, refs);
      }
    }
  }

  lemma StampedRowsOk(r: Rows, refs: seq<Reference>)
    requires RowsOk(r) && r.session.state.Finalizing?
    ensures var r' := r.(turns := StampTurn(r.turns, refs)); RowsOk(r') && RowsEvolve(r, r')
  {
    var turns := StampTurn(r.turns, refs);
    StampKeepsCount(r.turns, refs);
    forall i | 0 <= i < |turns| ensures RecordOk(turns[i]) {
      assert SameTurn(r.turns[i], turns[i]) && RecordOk(r.turns[i]);
      StampParses(r.turns, refs, i);
    }
    OpeningUnstamped(r.turns, refs);
  }

  /** The stamp only ever takes a synthesis version away. */
  lemma {:induction false} StampParses(turns: seq<TurnRecord>, refs: seq<Reference>, i: nat)
    requires i < |turns|
    ensures var t := StampTurn(turns, refs)[i];
      t.synthesis == turns[i].synthesis || (t.synthesis.None? && turns[i].outcome.Finalize?)
  {
    var init, last := turns[..|turns| - 1], turns[|turns| - 1];
    if !last.outcome.Finalize? && i < |init| {
      StampParses(init, refs, i);
    }
  }

  lemma OpeningUnstamped(turns: seq<TurnRecord>, refs: seq<Reference>)
    requires turns != [] && Opened(turns)
    ensures Opened(StampTurn(turns, refs))
  {
    StampParses(turns, refs, 0);
  }

  lemma StampWrote(r: Rows, s: Stores, q: Request)
    requires Ready(r, s, q) && q.pc.Stamp?
    ensures Wrote(r, s, OnStamp(r, q.pc.job, q.pc.review, q.pc.reports).0)
  {
    StampedRowsOk(r, [q.pc.review] + q.pc.reports);
  }

  lemma StampOnward(r: Rows, s: Stores, q: Request)
    requires Ready(r, s, q) && q.pc.Stamp? && OnStamp(r, q.pc.job, q.pc.review, q.pc.reports).0.turns != []
    ensures var (r', pc) := OnStamp(r, q.pc.job, q.pc.review, q.pc.reports); Onward(r', s, q.(pc := pc))
  {
  }

  lemma CloseRows(r: Rows, s: Stores, q: Request)
    requires Ready(r, s, q) && q.pc.Close?
    ensures var r' := OnClose(r, q, q.pc.job, q.pc.review, q.pc.reports).0;
      RowsOk(r') && RowsEvolve(r, r') && ClosedOk(r', s)
  {
  }

  lemma CloseClaims(r: Rows, s: Stores, q: Request)
    requires Ready(r, s, q) && q.pc.Close?
    ensures var r' := OnClose(r, q, q.pc.job, q.pc.review, q.pc.reports).0;
      forall k :: k in r'.claims && r'.claims[k].response.Some? ==>
        (k in r.claims && r'.claims[k] == r.claims[k]) || Agrees(r', k.0, r'.claims[k].response.value)
  {
  }

  lemma CloseWrote(r: Rows, s: Stores, q: Request)
    requires Ready(r, s, q) && q.pc.Close?
    ensures Wrote(r, s, OnClose(r, q, q.pc.job, q.pc.review, q.pc.reports).0)
  {
    CloseRows(r, s, q);
    CloseClaims(r, s, q);
  }

  lemma ClosedClaim(r: Rows, q: Request)
    requires q.pc.Close? && Mine(r, q)
    ensures var r' := OnClose(r, q, q.pc.job, q.pc.review, q.pc.reports).0;
      Lookup(r'.claims, ClaimKey(q)) == Some(Claim(q.body, Some(ClosingResult(q.pc.job, q.pc.reports))))
  {
  }

  lemma CloseOnward(r: Rows, s: Stores, q: Request)
    requires Ready(r, s, q) && q.pc.Close? && OnClose(r, q, q.pc.job, q.pc.review, q.pc.reports).0.turns != []
    ensures var (r', pc) := OnClose(r, q, q.pc.job, q.pc.review, q.pc.reports); Onward(r', s, q.(pc := pc))
  {
    ClosedClaim(r, q);
    var (r', pc) := OnClose(r, q, q.pc.job, q.pc.review, q.pc.reports);
    assert r'.turns == r.turns && r'.session.state.Completed? && r'.session.reports == q.pc.reports;
    if q.pc.job.turn.Some? {
      assert IsLast(r, q.pc.job.turn.value);
    }
  }

  lemma WritingWrote(r: Rows, s: Stores, q: Request)
    requires Ready(r, s, q) && IsWrite(q.pc)
    ensures Wrote(r, s, Writing(r, q).0)
  {
    match q.pc {
      case ClaimInsert => ClaimInsertWrote(r, s, q);
      case DropClaim => DropClaimWrote(r, s, q);
      case InsertTurn(_, _) => InsertTurnWrote(r, s, q);
      case WriteCount(_, _) => WriteCountWrote(r, s, q);
      case Mark(_) => MarkWrote(r, s, q);
      case Rollback => RollbackWrote(r, s, q);
      case Stamp(_, _, _) => StampWrote(r, s, q);
      case Close(_, _, _) => CloseWrote(r, s, q);
      case Settle(_, _, _) => SettleWrote(r, s, q);
      case ParkNow => ParkNowWrote(r, s, q);
    }
  }

  lemma WritingOnward(r: Rows, s: Stores, q: Request)
    requires Ready(r, s, q) && IsWrite(q.pc) && Writing(r, q).0.turns != []
    ensures var (r', pc) := Writing(r, q); Onward(r', s, q.(pc := pc))
  {
    match q.pc {
      case ClaimInsert => ClaimInsertOnward(r, s, q);
      case DropClaim => DropClaimOnward(r, s, q);
      case InsertTurn(_, _) => InsertTurnOnward(r, s, q);
      case WriteCount(_, _) => WriteCountOnward(r, s, q);
      case Mark(_) => MarkOnward(r, s, q);
      case Rollback => RollbackOnward(r, s, q);
      case Stamp(_, _, _) => StampOnward(r, s, q);
      case Close(_, _, _) => CloseOnward(r, s, q);
      case Settle(_, _, _) => SettleOnward(r, s, q);
      case ParkNow => ParkNowOnward(r, s, q);
    }
  }

  // -- the whole cell --------------------------------------------------------------------------------

  ghost predicate Good(c: Cell, d: Cell) {
    Inv(d) && Evolves(c, d)
  }

  /** The other requests: none of them can hold the lease after a step unless
      it held it before, and then the rows have not changed. */
  lemma OthersOk(c: Cell, d: Cell, id: RequestId)
    requires Inv(c) && Evolves(c, d) && id in d.requests
    requires d.requests.Keys == c.requests.Keys + {id}
    requires forall i :: i in c.requests && i != id ==> d.requests[i] == c.requests[i]
    requires forall i :: i in c.requests && i != id && Holds(d, i) ==> Holds(c, i) && d.rows == c.rows
    requires RequestOk(d, id)
    ensures forall i :: i in d.requests ==> RequestOk(d, i)
  {
    forall i | i in d.requests ensures RequestOk(d, i) {
      if i != id {
        assert RequestOk(c, i);
        StableKept(c.rows, c.stores, d.rows, d.stores, c.requests[i]);
      }
    }
  }

  lemma ClaimsKept(r: Rows, s: Stores, r': Rows)
    requires ClaimsOk(r) && Wrote(r, s, r')
    ensures ClaimsOk(r')
  {
    forall k | k in r'.claims && r'.claims[k].response.Some? ensures Agrees(r', k.0, r'.claims[k].response.value) {
      if k in r.claims && r'.claims[k] == r.claims[k] {
        AgreesKept(r, r', k.0, r'.claims[k].response.value);
      }
    }
  }

  // -- what acting is, kind by kind ---------------------------------------------------------------------

  /** Where a request is after its own step. */
  function NextPc(c: Cell, id: RequestId, ch: Choice): Pc
    requires id in c.requests && Running(c.requests[id].pc)
  {
    Act(c, id, ch).requests[id].pc
  }

  lemma ActWrites(c: Cell, id: RequestId, ch: Choice)
    requires id in c.requests && IsWrite(c.requests[id].pc)
    ensures var (r', pc) := Writing(c.rows, c.requests[id]); Act(c, id, ch) == Goto(c.(rows := r'), id, pc)
  {
  }

  lemma ActCalls(c: Cell, id: RequestId, ch: Choice)
    requires id in c.requests && IsStore(c.requests[id].pc)
    ensures var (s, pc) := Storing(c.rows, c.stores, c.requests[id], ch);
      Act(c, id, ch) == Goto(c.(stores := s), id, pc)
  {
  }

  lemma ActReads(c: Cell, id: RequestId, ch: Choice)
    requires id in c.requests && Running(c.requests[id].pc)
    requires var pc := c.requests[id].pc; !IsWrite(pc) && !IsStore(pc) && !pc.Acquire? && !pc.Unlock?
    ensures Act(c, id, ch) == Goto(c, id, Reading(c.rows, c.requests[id], ch))
  {
  }

  function Acquired(c: Cell, id: RequestId): Cell
    requires id in c.requests
  {
    if Lease.Free(c.lease, c.now) then
      var next := if c.requests[id].route.FinalizeRoute? then ReadSession(false) else ClaimInsert;
      Goto(c.(lease := Lease.Taken(c.lease, c.now, id)), id, next)
    else Goto(c, id, Done(SessionLocked))
  }

  lemma ActAcquires(c: Cell, id: RequestId, ch: Choice)
    requires id in c.requests && c.requests[id].pc.Acquire?
    ensures Act(c, id, ch) == Acquired(c, id)
  {
  }

  lemma ActUnlocks(c: Cell, id: RequestId, ch: Choice)
    requires id in c.requests && c.requests[id].pc.Unlock?
    ensures Act(c, id, ch) == Goto(c.(lease := Lease.Released(c.lease, id)), id, Done(c.requests[id].pc.reply))
  {
  }

  lemma WriteGood(c: Cell, id: RequestId, ch: Choice)
    requires Inv(c) && id in c.requests && IsWrite(c.requests[id].pc) && Holds(c, id)
    ensures Good(c, Act(c, id, ch))
  {
    var q := c.requests[id];
    assert Ready(c.rows, c.stores, q) by {
      assert RequestOk(c, id);
    }
    var (r', pc) := Writing(c.rows, q);
    WritingWrote(c.rows, c.stores, q);
    WritingOnward(c.rows, c.stores, q);
    ActWrites(c, id, ch);
    WrittenGood(c, id, r', pc);
  }

  lemma WrittenGood(c: Cell, id: RequestId, r': Rows, pc: Pc)
    requires Inv(c) && id in c.requests && Holds(c, id)
    requires Wrote(c.rows, c.stores, r') && Onward(r', c.stores, c.requests[id].(pc := pc))
    ensures Good(c, Goto(c.(rows := r'), id, pc))
  {
    var d := Goto(c.(rows := r'), id, pc);
    ClaimsKept(c.rows, c.stores, r');
    assert Evolves(c, d) && RequestOk(d, id);
    OthersOk(c, d, id);
  }

  /** A step that leaves the rows alone. */
  lemma QuietGood(c: Cell, d: Cell, id: RequestId)
    requires Inv(c) && id in d.requests && c.rows == d.rows && c.now == d.now
    requires StoresOk(d.stores) && StoresGrow(c.stores, d.stores)
    requires d.requests.Keys == c.requests.Keys + {id}
    requires forall i :: i in c.requests && i != id ==> d.requests[i] == c.requests[i]
    requires d.lease == c.lease || d.lease.None? || d.lease.value.token == id
    requires RequestOk(d, id)
    ensures Good(c, d)
  {
    ClosedKept(c.rows, c.stores, d.stores);
    OthersOk(c, d, id);
  }

  lemma ReadGood(c: Cell, id: RequestId, ch: Choice)
    requires Inv(c) && id in c.requests && Running(c.requests[id].pc)
    requires var pc := c.requests[id].pc; !IsWrite(pc) && !IsStore(pc) && !pc.Acquire? && !pc.Unlock?
    ensures Good(c, Act(c, id, ch))
  {
    var q := c.requests[id];
    var pc := Reading(c.rows, q, ch);
    assert MoveOk(c.rows, c.stores, q, c.stores, pc) by {
      assert RequestOk(c, id);
      ReadingOk(c.rows, c.stores, q, ch);
    }
    ActReads(c, id, ch);
    MovedGood(c, id, c.stores, pc);
  }

  lemma StoreGood(c: Cell, id: RequestId, ch: Choice)
    requires Inv(c) && id in c.requests && IsStore(c.requests[id].pc)
    ensures Good(c, Act(c, id, ch))
  {
    var q := c.requests[id];
    var (stores, pc) := Storing(c.rows, c.stores, q, ch);
    assert MoveOk(c.rows, c.stores, q, stores, pc) by {
      assert RequestOk(c, id);
      StoringOk(c.rows, c.stores, q, ch);
    }
    ActCalls(c, id, ch);
    MovedGood(c, id, stores, pc);
  }

  lemma MovedGood(c: Cell, id: RequestId, s: Stores, pc: Pc)
    requires Inv(c) && id in c.requests && MoveOk(c.rows, c.stores, c.requests[id], s, pc)
    ensures Good(c, Goto(c.(stores := s), id, pc))
  {
    var d := Goto(c.(stores := s), id, pc);
    assert RequestOk(d, id) by {
      assert RequestOk(c, id);
    }
    QuietGood(c, d, id);
  }

  lemma GrantedGood(c: Cell, id: RequestId, pc: Pc)
    requires Inv(c) && id in c.requests && Lease.Free(c.lease, c.now)
    requires pc == if c.requests[id].route.FinalizeRoute? then ReadSession(false) else ClaimInsert
    ensures Good(c, Goto(c.(lease := Lease.Taken(c.lease, c.now, id)), id, pc))
  {
    var d := Goto(c.(lease := Lease.Taken(c.lease, c.now, id)), id, pc);
    assert RequestOk(d, id);
    QuietGood(c, d, id);
  }

  lemma LockedGood(c: Cell, id: RequestId)
    requires Inv(c) && id in c.requests
    ensures Good(c, Goto(c, id, Done(SessionLocked)))
  {
    var d := Goto(c, id, Done(SessionLocked));
    assert RequestOk(d, id);
    QuietGood(c, d, id);
  }

  lemma AcquiredGood(c: Cell, id: RequestId)
    requires Inv(c) && id in c.requests && c.requests[id].pc.Acquire?
    ensures Good(c, Acquired(c, id))
  {
    if Lease.Free(c.lease, c.now) {
      GrantedGood(c, id, if c.requests[id].route.FinalizeRoute? then ReadSession(false) else ClaimInsert);
    } else {
      LockedGood(c, id);
    }
  }

  lemma UnlockedGood(c: Cell, id: RequestId)
    requires Inv(c) && id in c.requests && c.requests[id].pc.Unlock?
    ensures Good(c, Goto(c.(lease := Lease.Released(c.lease, id)), id, Done(c.requests[id].pc.reply)))
  {
    var d := Goto(c.(lease := Lease.Released(c.lease, id)), id, Done(c.requests[id].pc.reply));
    assert RequestOk(d, id) by {
      assert RequestOk(c, id);
    }
    QuietGood(c, d, id);
  }

  lemma ActGood(c: Cell, id: RequestId, ch: Choice)
    requires Inv(c) && id in c.requests && Running(c.requests[id].pc) && (IsWrite(c.requests[id].pc) ==> Holds(c, id))
    ensures Good(c, Act(c, id, ch))
  {
    var pc := c.requests[id].pc;
    if pc.Acquire? {
      ActAcquires(c, id, ch);
      AcquiredGood(c, id);
    } else if pc.Unlock? {
      ActUnlocks(c, id, ch);
      UnlockedGood(c, id);
    } else if IsStore(pc) {
      StoreGood(c, id, ch);
    } else if IsWrite(pc) {
      WriteGood(c, id, ch);
    } else {
      ReadGood(c, id, ch);
    }
  }

  lemma ArriveGood(c: Cell, id: RequestId, q: Request)
    requires Inv(c) && id !in c.requests && (q.pc.OuterRead? || q.pc.Acquire?)
    ensures Good(c, c.(requests := c.requests[id := q]))
  {
    OthersOk(c, c.(requests := c.requests[id := q]), id);
  }

  lemma TickGood(c: Cell, seconds: real)
    requires Inv(c) && seconds >= 0.0
    ensures Good(c, c.(now := c.now + seconds))
  {
    var d := c.(now := c.now + seconds);
    forall i | i in d.requests ensures RequestOk(d, i) {
      assert RequestOk(c, i);
    }
  }

  lemma CrashGood(c: Cell, id: RequestId)
    requires Inv(c) && id in c.requests
    ensures Good(c, Goto(c, id, Crashed))
  {
    OthersOk(c, Goto(c, id, Crashed), id);
  }

  lemma StepGood(c: Cell, e: Event)
    requires Inv(c) && Enabled(c, e) && Punctual(c, e)
    ensures Good(c, Step(c, e))
  {
    match e {
      case Arrive(id, route, key, body) =>
        ArriveGood(c, id, Request(route, key, body, if route.FinalizeRoute? then OuterRead else Acquire));
      case Tick(seconds) => TickGood(c, seconds);
      case Crash(id) => CrashGood(c, id);
      case Advance(id, ch) => ActGood(c, id, ch);
    }
  }

  lemma NewSessionInv(c: Cell)
    requires NewSession(c)
    ensures Inv(c)
  {
    assert c.rows.turns[..0] == [];
    assert FacilitatorTurns(c.rows.turns) == FacilitatorTurns([]) + 1;
  }
}
