/** Session creation as the sequence of statements it is (flows.py), over the
    rows of one idempotency key; an undisturbed call does what `Steps` says. */
module CreateSessionFlow {
  import opened Common
  import opened Artifacts
  import opened Records
  import opened Idempotency
  import opened CreateSession
  import Store = ArtifactStore

  /** After k steps from `start` the rows are `db` and the next step is `pc`. */
  ghost predicate At(w: World, start: Db, stamps: seq<Stamp>, k: nat, db: Db, pc: Pc) {
    |stamps| == 4 && WellFormed(pc) && Steps(w, start, Claiming, stamps, k) == (db, pc)
  }

  lemma {:induction false} StepsThen(w: World, db: Db, pc: Pc, stamps: seq<Stamp>, k: nat, n: nat)
    requires WellFormed(pc) && |stamps| == 4
    ensures WellFormed(Steps(w, db, pc, stamps, k).1)
    ensures var (d, p) := Steps(w, db, pc, stamps, k); Steps(w, db, pc, stamps, k + n) == Steps(w, d, p, stamps, n)
    decreases k
  {
    if k > 0 {
      var (d, p) := Step(w, db, pc, stamps);
      StepsThen(w, d, p, stamps, k - 1, n);
    }
  }

  lemma Advances(w: World, start: Db, stamps: seq<Stamp>, k: nat, db: Db, pc: Pc, d: Db, p: Pc)
    requires At(w, start, stamps, k, db, pc) && Step(w, db, pc, stamps) == (d, p)
    ensures At(w, start, stamps, k + 1, d, p)
  {
    StepsThen(w, start, Claiming, stamps, k, 1);
    assert Steps(w, db, pc, stamps, 1) == Steps(w, d, p, stamps, 0) == (d, p);
  }

  lemma Ends(w: World, start: Db, stamps: seq<Stamp>, k: nat, db: Db, a: Answer, n: nat)
    requires At(w, start, stamps, k, db, Returned(a)) && k <= n
    ensures Steps(w, start, Claiming, stamps, n) == (db, Returned(a))
  {
    StepsThen(w, start, Claiming, stamps, k, n - k);
    StaysReturned(w, db, Returned(a), stamps, n - k);
  }

  /** What an answered creation has stored, whatever was cut off before. */
  lemma CreatedMeaning(w: World, start: Db, stamps: seq<Stamp>, k: nat, d: Db, a: Answer)
    requires At(w, start, stamps, k, d, Returned(a))
    ensures Kept(w, start, Claiming, stamps) && a.Created? ==>
              Opens(w, d, a.response, d.folder.records)
  {
    if Kept(w, start, Claiming, stamps) && a.Created? {
      StepsKeep(w, start, Claiming, stamps, k);
      CompleteMeaning(w, d);
    }
  }

  class SessionCreation {
    const world: World
    var claim: Option<Claim<nat, Response>>
    var run: Option<SessionState>
    var session: Option<SessionState>
    var keys: map<(Kind, nat), nat>
    var records: seq<Reference>
    var turns: seq<TurnRecord>
    var agentRuns: map<Agent, AgentRun>

    ghost function Rows(): Db
      reads this
    {
      Db(claim, run, session, Store.Folder(keys, records), turns, agentRuns)
    }

    constructor (w: World)
      ensures world == w && Rows() == NOTHING
    {
      world := w;
      claim, run, session := None, None, None;
      keys, records, turns, agentRuns := map[], [], [], map[];
    }

    method ClaimRequest() returns (early: Option<Answer>)
      modifies this`claim
      ensures (Rows(), if early.Some? then Returned(early.value) else CreatingRun) == OnClaim(world, old(Rows()))
    {
      if claim.None? {
        claim := Some(Claim(world.body, None));
        return None;
      }
      match Found(claim.value, world.body) {
        case Replay(response) => return Some(Created(response));
        case KeyReused => return Some(RefusedKey);
        case _ => return None;
      }
    }

    method OpenSession(stamps: seq<Stamp>) returns (active: bool)
      requires |stamps| == 4
      modifies this`run, this`session
      ensures var (d, p) := Step(world, old(Rows()), CreatingRun, stamps);
        p == CreatingSession && Step(world, d, p, stamps) == (Rows(), if active then Saving([]) else Releasing)
    {
      if run.None? {
        run := Some(Active);
      }
      if session.None? {
        session := Some(Active);
      }
      active := session.value.Active?;
    }

    method SaveArtifact(refs: seq<Reference>, stamp: Stamp) returns (reference: Option<Reference>)
      requires |refs| < 4
      modifies this`keys, this`records
      ensures (Rows(), if reference.Some? then AfterSave(refs + [reference.value]) else Parking(SaveRejected))
           == OnSave(world, old(Rows()), refs, stamp)
    {
      var q := SaveRequest(world, refs);
      var service := new Store.ArtifactService();
      service.keys, service.records := keys, records;
      var a := service.SaveArtifact(q, stamp.id, stamp.now);
      keys, records := service.keys, service.records;
      reference := if a.Saved? then Some(a.reference) else None;
    }

    method RecordRun(agent: Agent, refs: seq<Reference>)
      requires Reaches(agent, refs)
      modifies this`agentRuns
      ensures Rows() == WithRun(old(Rows()), agent, RunOf(agent, refs))
    {
      if agent !in agentRuns {
        agentRuns := agentRuns[agent := RunOf(agent, refs)];
      }
    }

    /** Parks after a terminal failure, in one transaction with the claim. */
    method ParkFailed()
      modifies this`session, this`run, this`claim
      ensures Rows() == old(Rows()).(session := Some(Parked), run := Some(Parked), claim := Dropped(old(claim)))
    {
      session, run := Some(Parked), Some(Parked);
      if claim.Some? && claim.value.response.None? {
        claim := None;
      }
    }

    /** The audit rows after the second review, and after the synthesis. */
    method RecordSaved(refs: seq<Reference>, ghost stamps: seq<Stamp>, ghost start: Db, ghost k: nat)
      returns (ghost steps: nat)
      requires 1 <= |refs| <= 4 && At(world, start, stamps, k, Rows(), AfterSave(refs))
      modifies this`agentRuns
      ensures k <= steps <= k + 2 && (|refs| < 3 ==> steps == k) && (|refs| == 4 ==> steps <= k + 1)
      ensures At(world, start, stamps, steps, Rows(), if |refs| == 4 then InsertingTurn(refs) else Saving(refs))
    {
      steps := k;
      if |refs| == 3 {
        steps := RecordAndGo(BusinessReviewer, refs, stamps, start, steps);
        steps := RecordAndGo(EngineeringReviewer, refs, stamps, start, steps);
      } else if |refs| == 4 {
        steps := RecordAndGo(Synthesizer, refs, stamps, start, steps);
      }
    }

    /** The four artifacts and the audit rows between them. */
    method SaveAll(stamps: seq<Stamp>, ghost start: Db, ghost k: nat)
      returns (refs: seq<Reference>, rejected: bool, ghost steps: nat)
      requires At(world, start, stamps, k, Rows(), Saving([]))
      modifies this`keys, this`records, this`agentRuns
      ensures k <= steps <= k + 7
      ensures At(world, start, stamps, steps, Rows(), if rejected then Parking(SaveRejected) else InsertingTurn(refs))
    {
      refs, rejected, steps := [], true, k;
      while |refs| < 4
        invariant |refs| <= 4 && k + |refs| <= steps <= k + |refs| + if |refs| == 4 then 3 else if |refs| == 3 then 2
                else 0
        invariant At(world, start, stamps, steps, Rows(), if |refs| == 4 then InsertingTurn(refs) else Saving(refs))
      {
        ghost var before := Rows();
        var saved := SaveArtifact(refs, stamps[|refs|]);
        if saved.None? {
          Advances(world, start, stamps, steps, before, Saving(refs), Rows(), Parking(SaveRejected));
          steps := steps + 1;
          return;
        }
        Advances(world, start, stamps, steps, before, Saving(refs), Rows(), AfterSave(refs + [saved.value]));
        refs, steps := refs + [saved.value], steps + 1;
        steps := RecordSaved(refs, stamps, start, steps);
      }
      rejected := false;
    }

    method RecordAndGo(agent: Agent, refs: seq<Reference>, ghost stamps: seq<Stamp>, ghost start: Db, ghost k: nat)
      returns (ghost steps: nat)
      requires WellFormed(Recording(agent, refs)) && At(world, start, stamps, k, Rows(), Recording(agent, refs))
      modifies this`agentRuns
      ensures steps == k + 1 && At(world, start, stamps, steps, Rows(), AfterRecording(agent, refs))
    {
      ghost var before := Rows();
      RecordRun(agent, refs);
      Advances(world, start, stamps, k, before, Recording(agent, refs), Rows(), AfterRecording(agent, refs));
      steps := k + 1;
    }

    /** The opening turn, its audit row and the stored answer. */
    method AnswerOpening(refs: seq<Reference>, ghost stamps: seq<Stamp>, ghost start: Db, ghost k: nat)
      returns (a: Option<Answer>, ghost steps: nat)
      requires |refs| == 4 && At(world, start, stamps, k, Rows(), InsertingTurn(refs))
      modifies this`turns, this`agentRuns, this`claim
      ensures k < steps <= k + 3
      ensures At(world, start, stamps, steps, Rows(), if a.Some? then Returned(a.value) else Parking(OpeningInvalid))
    {
      ghost var before := Rows();
      if !OpeningValid(world, refs) {
        Advances(world, start, stamps, k, before, InsertingTurn(refs), before, Parking(OpeningInvalid));
        return None, k + 1;
      }
      var first := FirstTurn(world, refs);
      var turn := OrElse(Stored(turns, 1), first);
      turns := Records.InsertTurn(turns, first);
      ghost var inserted := Rows();
      Advances(world, start, stamps, k, before, InsertingTurn(refs), inserted, RecordingFacilitator(refs, turn));
      RecordRun(FacilitatorAgent, refs);
      ghost var recorded := Rows();
      Advances(world, start, stamps, k + 1, inserted, RecordingFacilitator(refs, turn), recorded,
          Completing(refs, turn));
      var response := ResponseOf(turn, refs);
      claim := Fulfilled(claim, response);
      Advances(world, start, stamps, k + 2, recorded, Completing(refs, turn), Rows(), Returned(Created(response)));
      return Some(Created(response)), k + 3;
    }

    method RunPipeline(stamps: seq<Stamp>, ghost start: Db) returns (a: Answer, ghost steps: nat)
      requires At(world, start, stamps, 3, Rows(), Saving([]))
      modifies this
      ensures steps <= ALL && At(world, start, stamps, steps, Rows(), Returned(a))
      ensures Kept(world, start, Claiming, stamps) && a.Created? ==>
                Opens(world, Rows(), a.response, records)
    {
      var refs, rejected;
      refs, rejected, steps := SaveAll(stamps, start, 3);
      var failure := SaveRejected;
      if !rejected {
        var answered;
        answered, steps := AnswerOpening(refs, stamps, start, steps);
        if answered.Some? {
          CreatedMeaning(world, start, stamps, steps, Rows(), answered.value);
          return answered.value, steps;
        }
        failure := OpeningInvalid;
      }
      ghost var before := Rows();
      ParkFailed();
      Advances(world, start, stamps, steps, before, Parking(failure), Rows(), Returned(failure));
      return failure, steps + 1;
    }

    /** One undisturbed call. */
    method RunCreateSession(stamps: seq<Stamp>) returns (a: Answer)
      requires |stamps| == 4
      modifies this
      ensures forall n: nat :: n >= ALL ==> Steps(world, old(Rows()), Claiming, stamps, n) == (Rows(), Returned(a))
      ensures Kept(world, old(Rows()), Claiming, stamps) && a.Created? ==>
                Opens(world, Rows(), a.response, records)
    {
      ghost var start, steps := Rows(), 1;
      var early := ClaimRequest();
      ghost var claimed := Rows();
      assert At(world, start, stamps, 0, start, Claiming);
      Advances(world, start, stamps, 0, start, Claiming, claimed, if early.Some? then Returned(early.value)
          else CreatingRun);
      if early.Some? {
        a := early.value;
      } else {
        ghost var begun := Step(world, claimed, CreatingRun, stamps).0;
        var active := OpenSession(stamps);
        Advances(world, start, stamps, 1, claimed, CreatingRun, begun, CreatingSession);
        Advances(world, start, stamps, 2, begun, CreatingSession, Rows(), if active then Saving([]) else Releasing);
        if active {
          a, steps := RunPipeline(stamps, start);
        } else {
          ghost var before := Rows();
          claim := Dropped(claim);
          Advances(world, start, stamps, 3, before, Releasing, Rows(), Returned(RefusedKey));
          a, steps := RefusedKey, 4;
        }
      }
      forall n: nat | n >= ALL ensures Steps(world, start, Claiming, stamps, n) == (Rows(), Returned(a)) {
        Ends(world, start, stamps, steps, Rows(), a, n);
      }
      CreatedMeaning(world, start, stamps, steps, Rows(), a);
    }
  }
}
