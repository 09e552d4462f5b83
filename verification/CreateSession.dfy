/** Session creation (flows.py, flow 1) under one idempotency key: attempts that
    are cut off anywhere, also inside an artifact save, and the retry that
    finishes. Agents and the story are functions of their inputs, and no other
    route touches the session before creation returns. */
module CreateSession {
  import opened Common
  import opened Artifacts
  import opened Facilitator
  import opened Records
  import opened Turns
  import opened TurnRules
  import opened Idempotency
  import Store = ArtifactStore

  type Content = nat

  /** One request: its key and body, the story, and the agents as functions.
      Contents are known by their canonical checksums. */
  datatype World = World(
    key: nat,
    body: nat,
    story: Content,
    business: Content -> Content,
    engineering: Content -> Content,
    synthesis: (Content, Reference, Content, Reference) -> SynthesisReport,
    checksum: SynthesisReport -> Content,
    facilitator: (SynthesisReport, seq<Reference>) -> TurnOutput)

  datatype Agent = BusinessReviewer | EngineeringReviewer | Synthesizer | FacilitatorAgent
  datatype AgentRun = AgentRun(inputs: seq<Reference>, outputs: seq<Reference>)

  datatype Response = Response(reply: string, issues: seq<IssueId>, delegation: Option<Delegation>,
      artifacts: seq<Reference>)

  /** The rows this key derives its ids for, and the run's artifact folder. */
  datatype Db = Db(
    claim: Option<Claim<nat, Response>>,
    run: Option<SessionState>,
    session: Option<SessionState>,
    folder: Store.Folder,
    turns: seq<TurnRecord>,
    agentRuns: map<Agent, AgentRun>)

  const NOTHING := Db(None, None, None, Store.EMPTY, [], map[])

  datatype Answer = Created(response: Response) | RefusedKey | OpeningInvalid | SaveRejected

  datatype Pc =
    | Claiming
    | CreatingRun
    | CreatingSession
    | Saving(refs: seq<Reference>)
    | Recording(agent: Agent, refs: seq<Reference>)
    | InsertingTurn(refs: seq<Reference>)
    | RecordingFacilitator(refs: seq<Reference>, turn: TurnRecord)
    | Completing(refs: seq<Reference>, turn: TurnRecord)
    | Parking(failure: Answer)
    | Releasing
    | Returned(answer: Answer)

  // -- what the pipeline computes ---------------------------------------------------------

  /** The artifacts in the order they are saved. */
  const KINDS := [Kind.Story, ReviewBusiness, ReviewEngineering, Kind.Synthesis]

  function Synthesized(w: World, refs: seq<Reference>): SynthesisReport
    requires |refs| >= 3
  {
    w.synthesis(w.business(w.story), refs[1], w.engineering(w.story), refs[2])
  }

  function ContentAt(w: World, refs: seq<Reference>): Content
    requires |refs| < 4
  {
    match |refs|
    case 0 => w.story
    case 1 => w.business(w.story)
    case 2 => w.engineering(w.story)
    case _ => w.checksum(Synthesized(w, refs))
  }

  function SaveRequest(w: World, refs: seq<Reference>): Store.Request
    requires |refs| < 4
  {
    Store.Request(KINDS[|refs|], w.key, ContentAt(w, refs))
  }

  function OpeningOutput(w: World, refs: seq<Reference>): TurnOutput
    requires |refs| == 4
  {
    w.facilitator(Synthesized(w, refs), refs)
  }

  predicate OpeningValid(w: World, refs: seq<Reference>)
    requires |refs| == 4
  {
    ValidateOpening(OpeningOutput(w, refs), Synthesized(w, refs)).Valid?
  }

  function FirstTurn(w: World, refs: seq<Reference>): TurnRecord
    requires |refs| == 4
  {
    OpeningTurn(OpeningOutput(w, refs), [refs[1], refs[2], refs[3]], Synthesized(w, refs))
  }

  predicate Reaches(agent: Agent, refs: seq<Reference>) {
    |refs| >= if agent.Synthesizer? || agent.FacilitatorAgent? then 4 else 3
  }

  function RunOf(agent: Agent, refs: seq<Reference>): AgentRun
    requires Reaches(agent, refs)
  {
    match agent
    case BusinessReviewer => AgentRun([refs[0]], [refs[1]])
    case EngineeringReviewer => AgentRun([refs[0]], [refs[2]])
    case Synthesizer => AgentRun([refs[1], refs[2]], [refs[3]])
    case FacilitatorAgent => AgentRun([refs[3], refs[0], refs[1], refs[2]], [refs[3]])
  }

  function ResponseOf(turn: TurnRecord, refs: seq<Reference>): Response {
    var issues := if turn.delegation.Some? then turn.delegation.value.openIssues else [];
    Response(OrElse(turn.reply, ""), issues, turn.delegation, refs)
  }

  // -- one step --------------------------------------------------------------------------------

  /** An artifact id and a clock reading, drawn for one save. */
  datatype Stamp = Stamp(id: nat, now: nat)

  predicate WellFormed(pc: Pc) {
    match pc
    case Saving(refs) => |refs| < 4
    case Recording(agent, refs) => !agent.FacilitatorAgent? && |refs| == (if agent.Synthesizer? then 4 else 3)
    case InsertingTurn(refs) => |refs| == 4
    case RecordingFacilitator(refs, _) => |refs| == 4
    case Completing(refs, _) => |refs| == 4
    case _ => true
  }

  function AfterSave(refs: seq<Reference>): Pc {
    match |refs|
    case 3 => Recording(BusinessReviewer, refs)
    case 4 => Recording(Synthesizer, refs)
    case _ => Saving(refs)
  }

  function AfterRecording(agent: Agent, refs: seq<Reference>): Pc {
    match agent
    case BusinessReviewer => Recording(EngineeringReviewer, refs)
    case EngineeringReviewer => Saving(refs)
    case _ => InsertingTurn(refs)
  }

  function OrInsert<T>(row: Option<T>, default: T): Option<T> { if row.Some? then row else Some(default) }

  function WithRun(db: Db, agent: Agent, run: AgentRun): Db {
    if agent in db.agentRuns then db else db.(agentRuns := db.agentRuns[agent := run])
  }

  function OnClaim(w: World, db: Db): (Db, Pc) {
    if db.claim.None? then (db.(claim := Inserted(None, w.body)), CreatingRun)
    else
      match Found(db.claim.value, w.body)
      case Replay(response) => (db, Returned(Created(response)))
      case KeyReused => (db, Returned(RefusedKey))
      case _ => (db, CreatingRun)
  }

  function OnSave(w: World, db: Db, refs: seq<Reference>, stamp: Stamp): (Db, Pc)
    requires |refs| < 4
  {
    var (folder, a) := Store.Save(db.folder, SaveRequest(w, refs), stamp.id, stamp.now, Store.Finishes);
    (db.(folder := folder), if a.Saved? then AfterSave(refs + [a.reference]) else Parking(SaveRejected))
  }

  function OnInsertTurn(w: World, db: Db, refs: seq<Reference>): (Db, Pc)
    requires |refs| == 4
  {
    if !OpeningValid(w, refs) then (db, Parking(OpeningInvalid))
    else
      var turns := Records.InsertTurn(db.turns, FirstTurn(w, refs));
      (db.(turns := turns), RecordingFacilitator(refs, OrElse(Stored(db.turns, 1), FirstTurn(w, refs))))
  }

  function Step(w: World, db: Db, pc: Pc, stamps: seq<Stamp>): (r: (Db, Pc))
    requires WellFormed(pc) && |stamps| == 4
    ensures WellFormed(r.1)
  {
    match pc
    case Claiming => OnClaim(w, db)
    case CreatingRun => (db.(run := OrInsert(db.run, Active)), CreatingSession)
    case CreatingSession =>
      var session := OrInsert(db.session, Active);
      (db.(session := session), if session.value.Active? then Saving([]) else Releasing)
    case Saving(refs) => OnSave(w, db, refs, stamps[|refs|])
    case Recording(agent, refs) => (WithRun(db, agent, RunOf(agent, refs)), AfterRecording(agent, refs))
    case InsertingTurn(refs) => OnInsertTurn(w, db, refs)
    case RecordingFacilitator(refs, turn) =>
        (WithRun(db, FacilitatorAgent, RunOf(FacilitatorAgent, refs)), Completing(refs, turn))
    case Completing(refs, turn) =>
      var response := ResponseOf(turn, refs);
      (db.(claim := Fulfilled(db.claim, response)), Returned(Created(response)))
    case Parking(failure) =>
        (db.(session := Some(Parked), run := Some(Parked), claim := Dropped(db.claim)), Returned(failure))
    case Releasing => (db.(claim := Dropped(db.claim)), Returned(RefusedKey))
    case Returned(_) => (db, pc)
  }

  function Steps(w: World, db: Db, pc: Pc, stamps: seq<Stamp>, n: nat): (Db, Pc)
    requires WellFormed(pc) && |stamps| == 4
    decreases n
  {
    if n == 0 then (db, pc)
    else
      var (d, p) := Step(w, db, pc, stamps);
      Steps(w, d, p, stamps, n - 1)
  }

  /** No attempt takes more steps. */
  const ALL := 14

  // -- attempts that are cut off -------------------------------------------------------------------

  /** An attempt stops before its n-th step; if that step is an artifact save it
      may stop inside, after the key claim. A retryable failure stops it too. */
  datatype Cut = Cut(stamps: seq<Stamp>, steps: nat, insideSave: bool)

  function Attempted(w: World, db: Db, cut: Cut): Db
    requires |cut.stamps| == 4
  {
    var (d, pc) := Steps(w, db, Claiming, cut.stamps, cut.steps);
    StepsWellFormed(w, db, Claiming, cut.stamps, cut.steps);
    if cut.insideSave && pc.Saving? then Orphaned(w, d, pc.refs, cut.stamps[|pc.refs|]) else d
  }

  function Orphaned(w: World, db: Db, refs: seq<Reference>, stamp: Stamp): Db
    requires |refs| < 4
  {
    db.(folder := Store.Save(db.folder, SaveRequest(w, refs), stamp.id, stamp.now, Store.DiesAfterClaim).0)
  }

  lemma {:induction false} StepsWellFormed(w: World, db: Db, pc: Pc, stamps: seq<Stamp>, n: nat)
    requires WellFormed(pc) && |stamps| == 4
    ensures WellFormed(Steps(w, db, pc, stamps, n).1)
    decreases n
  {
    if n > 0 {
      var (d, p) := Step(w, db, pc, stamps);
      StepsWellFormed(w, d, p, stamps, n - 1);
    }
  }

  function AfterCuts(w: World, cuts: seq<Cut>): Db
    requires forall i :: 0 <= i < |cuts| ==> |cuts[i].stamps| == 4
  {
    if cuts == [] then NOTHING else Attempted(w, AfterCuts(w, cuts[..|cuts| - 1]), cuts[|cuts| - 1])
  }

  // -- what every cut leaves behind ----------------------------------------------------------------

  function Name(w: World, i: nat): (Kind, nat)
    requires i < 4
  {
    (KINDS[i], w.key)
  }

  /** The i-th record is the i-th artifact, computed from the ones before it. */
  predicate RecordFits(w: World, records: seq<Reference>, i: nat)
    requires i < |records| && i < 4
  {
    records[i] == Reference(records[i].artifactId, KINDS[i], 1, ContentAt(w, records[..i]), records[i].createdAt)
  }

  ghost predicate FolderOk(w: World, f: Store.Folder) {
    && |f.records| <= 4
    && (forall i :: 0 <= i < |f.records| ==> RecordFits(w, f.records, i))
    && (forall i :: 0 <= i < |f.records| ==> Name(w, i) in f.keys && f.keys[Name(w, i)] == f.records[i].artifactId)
    && (forall k :: k in f.keys ==> exists i :: 0 <= i < 4 && i <= |f.records| && k == Name(w, i))
    && (forall k, l :: k in f.keys && l in f.keys && f.keys[k] == f.keys[l] ==> k == l)
  }

  /** The audit rows say what the agents consumed and produced. */
  ghost predicate RunsOk(records: seq<Reference>, runs: map<Agent, AgentRun>) {
    forall a :: a in runs ==> Reaches(a, records) && runs[a] == RunOf(a, records)
  }

  /** Everything session creation stores, given its four artifacts. */
  function Complete(w: World, refs: seq<Reference>): Db
    requires |refs| == 4
  {
    Db(
      Some(Claim(w.body, Some(ResponseOf(FirstTurn(w, refs), refs)))), Some(Active), Some(Active),
      Store.Folder(map[Name(w, 0) := refs[0].artifactId, Name(w, 1) := refs[1].artifactId,
                       Name(w, 2) := refs[2].artifactId, Name(w, 3) := refs[3].artifactId], refs),
      [FirstTurn(w, refs)],
      map[BusinessReviewer := RunOf(BusinessReviewer, refs), EngineeringReviewer := RunOf(EngineeringReviewer, refs),
          Synthesizer := RunOf(Synthesizer, refs), FacilitatorAgent := RunOf(FacilitatorAgent, refs)])
  }

  ghost predicate TurnsOk(w: World, records: seq<Reference>, turns: seq<TurnRecord>) {
    turns == [] || (|records| == 4 && OpeningValid(w, records) && turns == [FirstTurn(w, records)])
  }

  /** The session and its run move together; parked means a bad opening turn. */
  ghost predicate StatesOk(w: World, records: seq<Reference>, turns: seq<TurnRecord>, session: Option<SessionState>,
                           run: Option<SessionState>) {
    && (session.None? ==> run.None? || run == Some(Active))
    && (session.Some? ==> run == session && (session == Some(Active) || session == Some(Parked)))
    && (session == Some(Parked) ==> |records| == 4 && !OpeningValid(w, records) && turns == [])
  }

  predicate IsComplete(w: World, db: Db) {
    |db.folder.records| == 4 && OpeningValid(w, db.folder.records) && db == Complete(w, db.folder.records)
  }

  ghost predicate DbOk(w: World, db: Db) {
    && FolderOk(w, db.folder) && RunsOk(db.folder.records, db.agentRuns) && TurnsOk(w, db.folder.records, db.turns)
    && StatesOk(w, db.folder.records, db.turns, db.session, db.run)
    && (db.claim.Some? ==>
        db.claim.value.fingerprint == w.body && (db.claim.value.response.Some? ==> IsComplete(w, db)))
  }

  /** In progress, with the session open. */
  predicate Going(w: World, db: Db) {
    db.claim == Some(Claim(w.body, None)) && db.session == Some(Active)
  }

  function RunsBefore(pc: Pc): set<Agent> {
    match pc
    case Saving(refs) => if |refs| == 3 then {BusinessReviewer, EngineeringReviewer} else {}
    case Recording(agent, _) =>
      (match agent
       case EngineeringReviewer => {BusinessReviewer}
       case Synthesizer => {BusinessReviewer, EngineeringReviewer}
       case _ => {})
    case InsertingTurn(_) => {BusinessReviewer, EngineeringReviewer, Synthesizer}
    case RecordingFacilitator(_, _) => {BusinessReviewer, EngineeringReviewer, Synthesizer}
    case Completing(_, _) => {BusinessReviewer, EngineeringReviewer, Synthesizer, FacilitatorAgent}
    case _ => {}
  }

  ghost predicate PcOk(w: World, db: Db, pc: Pc) {
    && WellFormed(pc) && RunsBefore(pc) <= db.agentRuns.Keys
    && match pc
       case Claiming => true
       case CreatingRun => db.claim == Some(Claim(w.body, None))
       case CreatingSession => db.claim == Some(Claim(w.body, None)) && db.run.Some?
       case Saving(refs) => Going(w, db) && refs <= db.folder.records
       case Recording(_, refs) => Going(w, db) && refs <= db.folder.records
       case InsertingTurn(refs) => Going(w, db) && refs == db.folder.records
       case RecordingFacilitator(refs, turn) => Going(w, db) && refs == db.folder.records
           && turn == FirstTurn(w, refs) && db.turns == [turn]
       case Completing(refs, turn) => Going(w, db) && refs == db.folder.records && turn == FirstTurn(w, refs)
           && db.turns == [turn]
       case Parking(failure) =>
         Going(w, db) && failure.OpeningInvalid? && |db.folder.records| == 4 && !OpeningValid(w, db.folder.records)
       case Releasing => db.claim == Some(Claim(w.body, None)) && db.session == Some(Parked)
       case Returned(Created(response)) =>
         IsComplete(w, db) && response == ResponseOf(FirstTurn(w, db.folder.records), db.folder.records)
       case Returned(answer) =>
         (answer.RefusedKey? || answer.OpeningInvalid?) && db.session == Some(Parked) && db.claim.None?
  }

  /** How many of the attempt's ids are used up. */
  function Used(pc: Pc): nat {
    match pc
    case Saving(refs) => |refs|
    case Recording(agent, _) => if agent.Synthesizer? then 4 else 3
    case InsertingTurn(_) => 4
    case RecordingFacilitator(_, _) => 4
    case Completing(_, _) => 4
    case Parking(_) => 4
    case Returned(_) => 4
    case _ => 0
  }

  /** The ids still to be used are distinct and name no artifact yet. */
  ghost predicate Unused(f: Store.Folder, stamps: seq<Stamp>, n: nat) {
    && |stamps| == 4
    && (forall i, j :: 0 <= i < j < 4 ==> stamps[i].id != stamps[j].id)
    && (forall i, k :: n <= i < 4 && k in f.keys ==> f.keys[k] != stamps[i].id)
  }

  // -- one save --------------------------------------------------------------------------------------

  lemma {:induction false} RecordAt(records: seq<Reference>, i: nat)
    requires i < |records|
    requires forall j, k :: 0 <= j < k < |records| ==> records[j].artifactId != records[k].artifactId
    ensures Store.RecordOf(records, records[i].artifactId) == Some(records[i])
  {
    if i > 0 {
      RecordAt(records[1..], i - 1);
    }
  }

  lemma DistinctIds(w: World, f: Store.Folder)
    requires FolderOk(w, f)
    ensures forall j, k :: 0 <= j < k < |f.records| ==> f.records[j].artifactId != f.records[k].artifactId
  {
    forall j, k | 0 <= j < k < |f.records| ensures f.records[j].artifactId != f.records[k].artifactId {
      assert Name(w, j) != Name(w, k);
    }
  }

  /** A save of an artifact that is already there returns it. */
  lemma SaveAgain(w: World, f: Store.Folder, n: nat, stamp: Stamp, fate: Store.Fate)
    requires FolderOk(w, f) && n < |f.records| && !fate.DiesAfterWrite?
    ensures Store.Save(f, SaveRequest(w, f.records[..n]), stamp.id, stamp.now, fate)
         == (f, if fate.Finishes? then Store.Saved(f.records[n], false) else Store.Lost)
  {
    DistinctIds(w, f);
    RecordAt(f.records, n);
    assert RecordFits(w, f.records, n);
    assert Store.Name(SaveRequest(w, f.records[..n])) == Name(w, n);
  }

  lemma RecordHasOtherId(w: World, f: Store.Folder, stamp: Stamp, i: nat)
    requires FolderOk(w, f) && i < |f.records| < 4
    requires forall k :: k in f.keys ==> f.keys[k] != stamp.id
    ensures var name := Name(w, |f.records|);
      f.records[i].artifactId != if name in f.keys then f.keys[name] else stamp.id
  {
    assert Name(w, i) != Name(w, |f.records|);
    assert Name(w, i) in f.keys && f.keys[Name(w, i)] == f.records[i].artifactId;
  }

  lemma OrphanHasNoRecord(w: World, f: Store.Folder, stamp: Stamp)
    requires FolderOk(w, f) && |f.records| < 4
    requires forall k :: k in f.keys ==> f.keys[k] != stamp.id
    ensures var name := Name(w, |f.records|);
      Store.RecordOf(f.records, if name in f.keys then f.keys[name] else stamp.id).None?
  {
    var name := Name(w, |f.records|);
    var found := Store.RecordOf(f.records, if name in f.keys then f.keys[name] else stamp.id);
    if found.Some? {
      var i :| 0 <= i < |f.records| && f.records[i] == found.value;
      RecordHasOtherId(w, f, stamp, i);
      assert false;
    }
  }

  lemma NoVersionYet(w: World, f: Store.Folder)
    requires FolderOk(w, f) && |f.records| < 4
    ensures Store.HighestVersion(f.records, KINDS[|f.records|]) == 0
  {
    forall r | r in f.records ensures r.kind != KINDS[|f.records|] {
      var i :| 0 <= i < |f.records| && f.records[i] == r;
      assert RecordFits(w, f.records, i);
    }
  }

  /** The next artifact is claimed, and written unless the attempt dies. */
  lemma SaveNext(w: World, f: Store.Folder, stamp: Stamp)
    requires FolderOk(w, f) && |f.records| < 4
    requires forall k :: k in f.keys ==> f.keys[k] != stamp.id
    ensures var n := |f.records|; var q := SaveRequest(w, f.records);
      var orphan := Store.Save(f, q, stamp.id, stamp.now, Store.DiesAfterClaim).0;
      && FolderOk(w, orphan) && orphan.records == f.records
      && var (g, a) := Store.Save(f, q, stamp.id, stamp.now, Store.Finishes);
         && a.Saved? && g == Store.Folder(orphan.keys, f.records + [a.reference])
         && (forall k :: k in g.keys ==> g.keys[k] == stamp.id || (k in f.keys && g.keys[k] == f.keys[k]))
         && a.reference == Reference(orphan.keys[Name(w, n)], KINDS[n], 1, ContentAt(w, f.records), stamp.now)
  {
    OrphanHasNoRecord(w, f, stamp);
    NoVersionYet(w, f);
    var n := |f.records|;
    var orphan := Store.Save(f, SaveRequest(w, f.records), stamp.id, stamp.now, Store.DiesAfterClaim).0;
    assert orphan.keys == if Name(w, n) in f.keys then f.keys else f.keys[Name(w, n) := stamp.id];
  }

  lemma NextRecordOk(w: World, f: Store.Folder, r: Reference)
    requires FolderOk(w, f) && |f.records| < 4 && Name(w, |f.records|) in f.keys
    requires r == Reference(f.keys[Name(w, |f.records|)], KINDS[|f.records|], 1, ContentAt(w, f.records), r.createdAt)
    ensures FolderOk(w, f.(records := f.records + [r]))
  {
    var g := f.(records := f.records + [r]);
    forall i | 0 <= i < |g.records| ensures RecordFits(w, g.records, i) {
      assert g.records[..i] == f.records[..i];
      if i == |f.records| {
        assert f.records[..i] == f.records;
      } else {
        assert RecordFits(w, f.records, i);
      }
    }
  }

  // -- every step keeps it ------------------------------------------------------------------------------

  ghost predicate Kept(w: World, db: Db, pc: Pc, stamps: seq<Stamp>) {
    DbOk(w, db) && PcOk(w, db, pc) && Unused(db.folder, stamps, Used(pc))
  }

  lemma RunsKept(a: seq<Reference>, b: seq<Reference>, runs: map<Agent, AgentRun>)
    requires RunsOk(a, runs) && a <= b
    ensures RunsOk(b, runs)
  {
  }

  /** What a save of artifact |refs| does to the folder. */
  lemma SaveNew(w: World, f: Store.Folder, stamps: seq<Stamp>)
    requires FolderOk(w, f) && |f.records| < 4 && Unused(f, stamps, |f.records|)
    ensures var n := |f.records|;
      var (g, a) := Store.Save(f, SaveRequest(w, f.records), stamps[n].id, stamps[n].now, Store.Finishes);
      a.Saved? && FolderOk(w, g) && g.records == f.records + [a.reference] && Unused(g, stamps, n + 1)
  {
    var n := |f.records|;
    SaveNext(w, f, stamps[n]);
    var orphan := Store.Save(f, SaveRequest(w, f.records), stamps[n].id, stamps[n].now, Store.DiesAfterClaim).0;
    var (_, a) := Store.Save(f, SaveRequest(w, f.records), stamps[n].id, stamps[n].now, Store.Finishes);
    NextRecordOk(w, orphan, a.reference);
  }

  lemma SaveMeaning(w: World, f: Store.Folder, refs: seq<Reference>, stamps: seq<Stamp>)
    requires FolderOk(w, f) && refs <= f.records && |refs| < 4 && Unused(f, stamps, |refs|)
    ensures var (g, a) := Store.Save(f, SaveRequest(w, refs), stamps[|refs|].id, stamps[|refs|].now, Store.Finishes);
      a.Saved? && FolderOk(w, g) && f.records <= g.records && refs + [a.reference] <= g.records
      && Unused(g, stamps, |refs| + 1)
  {
    if |refs| < |f.records| {
      assert refs == f.records[..|refs|];
      SaveAgain(w, f, |refs|, stamps[|refs|], Store.Finishes);
    } else {
      assert refs == f.records;
      SaveNew(w, f, stamps);
    }
  }

  lemma FolderGrown(w: World, db: Db, g: Store.Folder)
    requires DbOk(w, db) && Going(w, db) && FolderOk(w, g) && db.folder.records <= g.records
    ensures DbOk(w, db.(folder := g)) && Going(w, db.(folder := g))
  {
    RunsKept(db.folder.records, g.records, db.agentRuns);
    if |db.folder.records| == 4 {
      assert g.records == db.folder.records;
    }
  }

  lemma SavedNext(w: World, d: Db, refs: seq<Reference>)
    requires Going(w, d) && 1 <= |refs| <= 4 && refs <= d.folder.records
    requires RunsBefore(Saving(refs[..|refs| - 1])) <= d.agentRuns.Keys
    ensures PcOk(w, d, AfterSave(refs)) && Used(AfterSave(refs)) == |refs|
  {
  }

  lemma SaveKeeps(w: World, db: Db, refs: seq<Reference>, stamps: seq<Stamp>)
    requires Kept(w, db, Saving(refs), stamps)
    ensures var (d, p) := OnSave(w, db, refs, stamps[|refs|]);
      Kept(w, d, p, stamps) && db.folder.records <= d.folder.records
  {
    var (g, a) := Store.Save(db.folder, SaveRequest(w, refs), stamps[|refs|].id, stamps[|refs|].now, Store.Finishes);
    SaveMeaning(w, db.folder, refs, stamps);
    FolderGrown(w, db, g);
    var more := refs + [a.reference];
    assert more[..|more| - 1] == refs;
    SavedNext(w, db.(folder := g), more);
  }

  lemma RunRecorded(records: seq<Reference>, runs: map<Agent, AgentRun>, agent: Agent, refs: seq<Reference>)
    requires RunsOk(records, runs) && refs <= records && Reaches(agent, refs)
    ensures RunsOk(records, if agent in runs then runs else runs[agent := RunOf(agent, refs)])
  {
  }

  lemma RecordingKeeps(w: World, db: Db, agent: Agent, refs: seq<Reference>, stamps: seq<Stamp>)
    requires Kept(w, db, Recording(agent, refs), stamps)
    ensures Kept(w, WithRun(db, agent, RunOf(agent, refs)), AfterRecording(agent, refs), stamps)
  {
    RunStored(w, db, agent, refs);
    NextRecording(agent, refs);
    assert agent.Synthesizer? ==> refs == db.folder.records;
  }

  lemma NextRecording(agent: Agent, refs: seq<Reference>)
    requires WellFormed(Recording(agent, refs))
    ensures var p := AfterRecording(agent, refs);
      WellFormed(p) && RunsBefore(p) <= RunsBefore(Recording(agent, refs)) + {agent}
      && Used(p) == Used(Recording(agent, refs))
  {
  }

  lemma RunStored(w: World, db: Db, agent: Agent, refs: seq<Reference>)
    requires DbOk(w, db) && Going(w, db) && refs <= db.folder.records && Reaches(agent, refs)
    ensures var d := WithRun(db, agent, RunOf(agent, refs));
      DbOk(w, d) && Going(w, d) && d.agentRuns.Keys == db.agentRuns.Keys + {agent}
  {
    RunRecorded(db.folder.records, db.agentRuns, agent, refs);
  }

  lemma InsertKeeps(w: World, db: Db, refs: seq<Reference>, stamps: seq<Stamp>)
    requires Kept(w, db, InsertingTurn(refs), stamps)
    ensures var (d, p) := OnInsertTurn(w, db, refs); Kept(w, d, p, stamps) && d.folder == db.folder
  {
  }

  lemma FacilitatorKeeps(w: World, db: Db, refs: seq<Reference>, turn: TurnRecord, stamps: seq<Stamp>)
    requires Kept(w, db, RecordingFacilitator(refs, turn), stamps)
    ensures Kept(w, WithRun(db, FacilitatorAgent, RunOf(FacilitatorAgent, refs)), Completing(refs, turn), stamps)
  {
    RunStored(w, db, FacilitatorAgent, refs);
  }

  /** Four records fill the folder: its keys are determined. */
  function NamesOf(w: World, records: seq<Reference>): map<(Kind, nat), nat>
    requires |records| == 4
  {
    map[Name(w, 0) := records[0].artifactId, Name(w, 1) := records[1].artifactId,
        Name(w, 2) := records[2].artifactId, Name(w, 3) := records[3].artifactId]
  }

  lemma NamesAt(w: World, records: seq<Reference>, i: nat)
    requires |records| == 4 && i < 4
    ensures Name(w, i) in NamesOf(w, records) && NamesOf(w, records)[Name(w, i)] == records[i].artifactId
  {
  }

  lemma FullFolder(w: World, f: Store.Folder)
    requires FolderOk(w, f) && |f.records| == 4
    ensures f == Store.Folder(NamesOf(w, f.records), f.records)
  {
    var all := NamesOf(w, f.records);
    forall k | k in f.keys ensures k in all && all[k] == f.keys[k] {
      var i :| 0 <= i < 4 && k == Name(w, i);
      NamesAt(w, f.records, i);
    }
    forall k | k in all ensures k in f.keys {
      var i :| 0 <= i < 4 && k == Name(w, i);
    }
    assert f.keys == all;
  }

  lemma FullRuns(w: World, records: seq<Reference>, runs: map<Agent, AgentRun>)
    requires RunsOk(records, runs) && |records| == 4
    requires {BusinessReviewer, EngineeringReviewer, Synthesizer, FacilitatorAgent} <= runs.Keys
    ensures runs == Complete(w, records).agentRuns
  {
    var all := Complete(w, records).agentRuns;
    forall a: Agent ensures a in runs && a in all {
      match a {
        case BusinessReviewer => assert BusinessReviewer in runs.Keys;
        case EngineeringReviewer => assert EngineeringReviewer in runs.Keys;
        case Synthesizer => assert Synthesizer in runs.Keys;
        case FacilitatorAgent => assert FacilitatorAgent in runs.Keys;
      }
    }
    assert forall a :: a in runs ==> runs[a] == all[a];
  }

  lemma CompletingKeeps(w: World, db: Db, refs: seq<Reference>, turn: TurnRecord, stamps: seq<Stamp>)
    requires Kept(w, db, Completing(refs, turn), stamps)
    ensures var d := db.(claim := Fulfilled(db.claim, ResponseOf(turn, refs)));
      Kept(w, d, Returned(Created(ResponseOf(turn, refs))), stamps)
  {
    var d := db.(claim := Fulfilled(db.claim, ResponseOf(turn, refs)));
    FullFolder(w, db.folder);
    FullRuns(w, refs, db.agentRuns);
    assert IsComplete(w, d);
  }

  lemma OpenKeeps(w: World, db: Db, pc: Pc, stamps: seq<Stamp>)
    requires Kept(w, db, pc, stamps) && (pc.CreatingRun? || pc.CreatingSession?)
    ensures var (d, p) := Step(w, db, pc, stamps); Kept(w, d, p, stamps) && d.folder == db.folder
  {
    var (d, p) := Step(w, db, pc, stamps);
    assert DbOk(w, d);
  }

  lemma EndKeeps(w: World, db: Db, pc: Pc, stamps: seq<Stamp>)
    requires Kept(w, db, pc, stamps) && (pc.Parking? || pc.Releasing? || pc.Returned?)
    ensures var (d, p) := Step(w, db, pc, stamps); Kept(w, d, p, stamps) && d.folder == db.folder
  {
    var (d, p) := Step(w, db, pc, stamps);
    assert DbOk(w, d);
  }

  lemma ClaimInserted(w: World, db: Db)
    requires DbOk(w, db) && db.claim.None?
    ensures DbOk(w, db.(claim := Some(Claim(w.body, None))))
  {
  }

  lemma ClaimMet(w: World, db: Db)
    requires DbOk(w, db) && db.claim.Some?
    ensures var (d, p) := OnClaim(w, db); d == db && PcOk(w, db, p) && (p.CreatingRun? || p.Returned?)
  {
  }

  lemma ClaimKeeps(w: World, db: Db, stamps: seq<Stamp>)
    requires Kept(w, db, Claiming, stamps)
    ensures var (d, p) := OnClaim(w, db); Kept(w, d, p, stamps) && d.folder == db.folder
  {
    if db.claim.None? {
      ClaimInserted(w, db);
    } else {
      ClaimMet(w, db);
    }
  }

  lemma StepKeeps(w: World, db: Db, pc: Pc, stamps: seq<Stamp>)
    requires Kept(w, db, pc, stamps)
    ensures var (d, p) := Step(w, db, pc, stamps); Kept(w, d, p, stamps) && db.folder.records <= d.folder.records
  {
    match pc {
      case Saving(refs) => SaveKeeps(w, db, refs, stamps);
      case Recording(agent, refs) => RecordingKeeps(w, db, agent, refs, stamps);
      case InsertingTurn(refs) => InsertKeeps(w, db, refs, stamps);
      case RecordingFacilitator(refs, turn) => FacilitatorKeeps(w, db, refs, turn, stamps);
      case Completing(refs, turn) => CompletingKeeps(w, db, refs, turn, stamps);
      case Claiming => ClaimKeeps(w, db, stamps);
      case CreatingRun => OpenKeeps(w, db, pc, stamps);
      case CreatingSession => OpenKeeps(w, db, pc, stamps);
      case _ => EndKeeps(w, db, pc, stamps);
    }
  }

  lemma {:induction false} StepsKeep(w: World, db: Db, pc: Pc, stamps: seq<Stamp>, n: nat)
    requires Kept(w, db, pc, stamps)
    ensures var (d, p) := Steps(w, db, pc, stamps, n); Kept(w, d, p, stamps) && db.folder.records <= d.folder.records
    decreases n
  {
    if n > 0 {
      var (d, p) := Step(w, db, pc, stamps);
      StepKeeps(w, db, pc, stamps);
      StepsKeep(w, d, p, stamps, n - 1);
    }
  }

  function ToGo(pc: Pc): nat {
    match pc
    case Claiming => 14
    case CreatingRun => 13
    case CreatingSession => 12
    case Saving(refs) => if |refs| < 3 then 11 - |refs| else 6
    case Recording(agent, _) => (match agent case BusinessReviewer => 8 case EngineeringReviewer => 7 case _ => 5)
    case InsertingTurn(_) => 4
    case RecordingFacilitator(_, _) => 3
    case Completing(_, _) => 2
    case Parking(_) => 1
    case Releasing => 1
    case Returned(_) => 0
  }

  lemma StepAdvances(w: World, db: Db, pc: Pc, stamps: seq<Stamp>)
    requires WellFormed(pc) && |stamps| == 4 && !pc.Returned?
    ensures ToGo(Step(w, db, pc, stamps).1) < ToGo(pc)
  {
  }

  lemma {:induction false} StepsReturn(w: World, db: Db, pc: Pc, stamps: seq<Stamp>, n: nat)
    requires WellFormed(pc) && |stamps| == 4 && ToGo(pc) <= n
    ensures Steps(w, db, pc, stamps, n).1.Returned?
    decreases n
  {
    if n > 0 {
      var (d, p) := Step(w, db, pc, stamps);
      if !pc.Returned? {
        StepAdvances(w, db, pc, stamps);
      }
      StepsReturn(w, d, p, stamps, n - 1);
    }
  }

  // -- convergence ---------------------------------------------------------------------------------------

  /** Every attempt draws ids that name no artifact of the run yet. */
  ghost predicate FreshIds(w: World, cuts: seq<Cut>) {
    && (forall i :: 0 <= i < |cuts| ==> |cuts[i].stamps| == 4)
    && (forall i :: 0 <= i < |cuts| ==> Unused(AfterCuts(w, cuts[..i]).folder, cuts[i].stamps, 0))
  }

  lemma CutKeeps(w: World, db: Db, cut: Cut)
    requires DbOk(w, db) && Unused(db.folder, cut.stamps, 0)
    ensures DbOk(w, Attempted(w, db, cut))
  {
    var (d, pc) := Steps(w, db, Claiming, cut.stamps, cut.steps);
    StepsKeep(w, db, Claiming, cut.stamps, cut.steps);
    if cut.insideSave && pc.Saving? {
      var n, stamp := |pc.refs|, cut.stamps[|pc.refs|];
      var o := Orphaned(w, d, pc.refs, stamp);
      if n < |d.folder.records| {
        assert pc.refs == d.folder.records[..n];
        SaveAgain(w, d.folder, n, stamp, Store.DiesAfterClaim);
      } else {
        assert pc.refs == d.folder.records;
        SaveNext(w, d.folder, stamp);
      }
    }
  }

  lemma {:induction false} CutsKeep(w: World, cuts: seq<Cut>)
    requires FreshIds(w, cuts)
    ensures DbOk(w, AfterCuts(w, cuts))
  {
    if cuts != [] {
      var n := |cuts| - 1;
      forall i | 0 <= i < n ensures Unused(AfterCuts(w, cuts[..n][..i]).folder, cuts[..n][i].stamps, 0) {
        assert cuts[..n][..i] == cuts[..i];
      }
      CutsKeep(w, cuts[..n]);
      CutKeeps(w, AfterCuts(w, cuts[..n]), cuts[n]);
    }
  }

  /** The four artifacts by kind: the story, each reviewer's report of it, and
      the synthesis of the two, all under the request's key. */
  predicate Stores(w: World, f: Store.Folder, story: Reference, business: Reference, engineering: Reference,
                   synthesis: Reference) {
    var report := w.synthesis(w.business(w.story), business, w.engineering(w.story), engineering);
    && f.records == [story, business, engineering, synthesis]
    && story == Reference(story.artifactId, Kind.Story, 1, w.story, story.createdAt)
    && business == Reference(business.artifactId, ReviewBusiness, 1, w.business(w.story), business.createdAt)
    && engineering ==
       Reference(engineering.artifactId, ReviewEngineering, 1, w.engineering(w.story), engineering.createdAt)
    && synthesis == Reference(synthesis.artifactId, Kind.Synthesis, 1, w.checksum(report), synthesis.createdAt)
    && f.keys == map[(Kind.Story, w.key) := story.artifactId,
                     (ReviewBusiness, w.key) := business.artifactId,
                     (ReviewEngineering, w.key) := engineering.artifactId,
                     (Kind.Synthesis, w.key) := synthesis.artifactId]
  }

  /** The facilitator's opening output on that synthesis passes the turn rules. */
  predicate OpensWell(w: World, story: Reference, business: Reference, engineering: Reference, synthesis: Reference) {
    var report := w.synthesis(w.business(w.story), business, w.engineering(w.story), engineering);
    ValidateOpening(w.facilitator(report, [story, business, engineering, synthesis]), report).Valid?
  }

  /** The audit rows, the opening turn and the answer of a creation. */
  predicate Answers(w: World, d: Db, a: Response, story: Reference, business: Reference, engineering: Reference,
                    synthesis: Reference) {
    var report := w.synthesis(w.business(w.story), business, w.engineering(w.story), engineering);
    var out := w.facilitator(report, [story, business, engineering, synthesis]);
    && d.agentRuns == map[BusinessReviewer := AgentRun([story], [business]),
                          EngineeringReviewer := AgentRun([story], [engineering]),
                          Synthesizer := AgentRun([business, engineering], [synthesis]),
                          FacilitatorAgent := AgentRun([synthesis, story, business, engineering], [synthesis])]
    && d.turns == [TurnRecord(1, None, false, Some(out.reply), None, Some(out.delegation), [], [], Continue,
                              [business, engineering, synthesis], Some(report))]
    && a == Response(out.reply, out.delegation.openIssues, Some(out.delegation),
                     [story, business, engineering, synthesis])
    && d.claim == Some(Claim(w.body, Some(a))) && d.run == Some(Active) && d.session == Some(Active)
  }

  predicate Opens(w: World, d: Db, a: Response, refs: seq<Reference>) {
    && |refs| == 4 && Stores(w, d.folder, refs[0], refs[1], refs[2], refs[3])
    && OpensWell(w, refs[0], refs[1], refs[2], refs[3]) && Answers(w, d, a, refs[0], refs[1], refs[2], refs[3])
  }

  lemma RecordsMeaning(w: World, f: Store.Folder)
    requires FolderOk(w, f) && |f.records| == 4
    ensures Stores(w, f, f.records[0], f.records[1], f.records[2], f.records[3])
  {
    var refs := f.records;
    assert refs == [refs[0], refs[1], refs[2], refs[3]];
    assert RecordFits(w, refs, 0) && RecordFits(w, refs, 1) && RecordFits(w, refs, 2) && RecordFits(w, refs, 3);
    assert refs[..3][1] == refs[1] && refs[..3][2] == refs[2];
    FullFolder(w, f);
  }

  lemma OpeningIsJudged(w: World, refs: seq<Reference>)
    requires |refs| == 4
    ensures OpeningValid(w, refs) <==> OpensWell(w, refs[0], refs[1], refs[2], refs[3])
  {
    assert refs == [refs[0], refs[1], refs[2], refs[3]];
  }

  lemma AnswersFour(w: World, story: Reference, business: Reference, engineering: Reference, synthesis: Reference)
    ensures var refs := [story, business, engineering, synthesis];
      Answers(w, Complete(w, refs), ResponseOf(FirstTurn(w, refs), refs), story, business, engineering, synthesis)
  {
  }

  lemma CompleteMeaning(w: World, d: Db)
    requires FolderOk(w, d.folder) && IsComplete(w, d)
    ensures Opens(w, d, ResponseOf(FirstTurn(w, d.folder.records), d.folder.records), d.folder.records)
  {
    var refs := d.folder.records;
    RecordsMeaning(w, d.folder);
    OpeningIsJudged(w, refs);
    AnswersFour(w, refs[0], refs[1], refs[2], refs[3]);
  }

  /** How a finished attempt leaves the rows: by the artifacts either with exactly
      what their creation stores, answered in full, or with the session and its
      run parked, no claim and no turn. */
  ghost predicate Concluded(w: World, d: Db, p: Pc) {
    var refs := d.folder.records;
    && p.Returned? && |refs| == 4 && Stores(w, d.folder, refs[0], refs[1], refs[2], refs[3])
    && (p.answer.Created? <==> OpensWell(w, refs[0], refs[1], refs[2], refs[3]))
    && (p.answer.Created? ==> IsComplete(w, d) && p.answer.response == ResponseOf(FirstTurn(w, refs), refs))
    && (!p.answer.Created? ==>
          d.session == Some(Parked) && d.run == Some(Parked) && d.claim.None? && d.turns == [])
  }

  lemma ReturnedConcludes(w: World, d: Db, p: Pc)
    requires DbOk(w, d) && PcOk(w, d, p) && p.Returned?
    ensures Concluded(w, d, p)
  {
    assert |d.folder.records| == 4;
    RecordsMeaning(w, d.folder);
    OpeningIsJudged(w, d.folder.records);
  }

  /** Not refused for its key, and not about to be. */
  predicate Welcome(db: Db, pc: Pc) {
    match pc
    case Releasing => false
    case Returned(answer) => !answer.RefusedKey?
    case _ => db.session != Some(Parked)
  }

  lemma WelcomeStep(w: World, db: Db, pc: Pc, stamps: seq<Stamp>)
    requires WellFormed(pc) && |stamps| == 4 && Welcome(db, pc)
    requires pc.Claiming? && db.claim.Some? ==> db.claim.value.fingerprint == w.body
    requires pc.CreatingSession? && db.session.Some? ==> db.session == Some(Active)
    requires pc.Parking? ==> !pc.failure.RefusedKey?
    ensures var (d, p) := Step(w, db, pc, stamps); Welcome(d, p)
  {
    if pc.Saving? {
      SaveIsWelcome(w, db, pc.refs, stamps[|pc.refs|]);
    }
  }

  lemma SaveIsWelcome(w: World, db: Db, refs: seq<Reference>, stamp: Stamp)
    requires |refs| < 4 && db.session != Some(Parked)
    ensures var (d, p) := OnSave(w, db, refs, stamp); Welcome(d, p)
  {
  }

  lemma {:induction false} StaysWelcome(w: World, db: Db, pc: Pc, stamps: seq<Stamp>, n: nat)
    requires Kept(w, db, pc, stamps) && Welcome(db, pc)
    ensures var (d, p) := Steps(w, db, pc, stamps, n); Welcome(d, p)
    decreases n
  {
    if n > 0 {
      var (d, p) := Step(w, db, pc, stamps);
      WelcomeStep(w, db, pc, stamps);
      StepKeeps(w, db, pc, stamps);
      StaysWelcome(w, d, p, stamps, n - 1);
    }
  }

  lemma OneStep(w: World, db: Db, pc: Pc, d: Db, p: Pc, stamps: seq<Stamp>, n: nat)
    requires WellFormed(pc) && |stamps| == 4 && n > 0 && Step(w, db, pc, stamps) == (d, p)
    ensures WellFormed(p) && Steps(w, db, pc, stamps, n) == Steps(w, d, p, stamps, n - 1)
  {
  }

  /** The session of this key was parked: the claim is released, and no more. */
  lemma ParkedIsRefused(w: World, db: Db, stamps: seq<Stamp>, n: nat)
    requires DbOk(w, db) && db.session == Some(Parked) && |stamps| == 4 && n >= 4
    ensures Steps(w, db, Claiming, stamps, n) == (db.(claim := None), Returned(RefusedKey))
  {
    var claimed := db.(claim := Some(Claim(w.body, None)));
    OneStep(w, db, Claiming, claimed, CreatingRun, stamps, n);
    OneStep(w, claimed, CreatingRun, claimed, CreatingSession, stamps, n - 1);
    OneStep(w, claimed, CreatingSession, claimed, Releasing, stamps, n - 2);
    OneStep(w, claimed, Releasing, db.(claim := None), Returned(RefusedKey), stamps, n - 3);
    StaysReturned(w, db.(claim := None), Returned(RefusedKey), stamps, n - 4);
  }

  /** A key is refused exactly when it was used for another body, or when its
      session was parked by an earlier attempt. */
  lemma RefusedIff(w: World, db: Db, stamps: seq<Stamp>, n: nat)
    requires n >= ALL && |stamps| == 4
    requires (db.claim.Some? && db.claim.value.fingerprint != w.body) || Kept(w, db, Claiming, stamps)
    ensures var (d, p) := Steps(w, db, Claiming, stamps, n);
      p == Returned(RefusedKey) <==>
        (db.claim.Some? && db.claim.value.fingerprint != w.body) || db.session == Some(Parked)
  {
    if db.claim.Some? && db.claim.value.fingerprint != w.body {
      assert Step(w, db, Claiming, stamps) == (db, Returned(RefusedKey));
      StaysReturned(w, db, Returned(RefusedKey), stamps, n - 1);
    } else if db.session == Some(Parked) {
      ParkedIsRefused(w, db, stamps, n);
    } else {
      StaysWelcome(w, db, Claiming, stamps, n);
    }
  }

  /** Whatever was cut off before, the attempt that finishes ends with the four
      artifacts, the ones already stored among them, and is concluded: either it
      is answered in full, or, when the opening turn they lead to is invalid,
      session and run are parked. */
  lemma RetryConverges(w: World, cuts: seq<Cut>, stamps: seq<Stamp>, n: nat)
    requires n >= ALL
    requires FreshIds(w, cuts) && Unused(AfterCuts(w, cuts).folder, stamps, 0)
    ensures var (d, p) := Steps(w, AfterCuts(w, cuts), Claiming, stamps, n);
      && AfterCuts(w, cuts).folder.records <= d.folder.records && Concluded(w, d, p)
      && (p.answer.Created? ==> Opens(w, d, p.answer.response, d.folder.records))
  {
    var db := AfterCuts(w, cuts);
    CutsKeep(w, cuts);
    StepsKeep(w, db, Claiming, stamps, n);
    StepsReturn(w, db, Claiming, stamps, n);
    var (d, p) := Steps(w, db, Claiming, stamps, n);
    ReturnedConcludes(w, d, p);
    if p.answer.Created? {
      CompleteMeaning(w, d);
    }
  }

  /** The draws of an uncrashed attempt that would produce these artifacts. */
  function DrawsOf(refs: seq<Reference>): (s: seq<Stamp>)
    requires |refs| == 4
  {
    [Stamp(refs[0].artifactId, refs[0].createdAt), Stamp(refs[1].artifactId, refs[1].createdAt),
     Stamp(refs[2].artifactId, refs[2].createdAt), Stamp(refs[3].artifactId, refs[3].createdAt)]
  }

  // -- the same as an attempt that was never cut off ------------------------------------------------------

  /** Every record carries the stamp drawn for it, and no key is an orphan. */
  ghost predicate Drawn(w: World, f: Store.Folder, stamps: seq<Stamp>) {
    && |stamps| == 4 && |f.records| <= 4
    && (forall i :: 0 <= i < |f.records| ==> Stamp(f.records[i].artifactId, f.records[i].createdAt) == stamps[i])
    && (forall k :: k in f.keys ==> exists i :: 0 <= i < |f.records| && k == Name(w, i))
  }

  /** The attempt is where the records end. */
  predicate AtFront(records: seq<Reference>, pc: Pc) {
    match pc
    case Saving(refs) => refs == records
    case Recording(_, refs) => refs == records
    case Claiming => records == []
    case CreatingRun => records == []
    case CreatingSession => records == []
    case _ => |records| == 4
  }

  lemma SaveAtFront(w: World, f: Store.Folder, stamps: seq<Stamp>)
    requires FolderOk(w, f) && |f.records| < 4 && Drawn(w, f, stamps) && Unused(f, stamps, |f.records|)
    ensures var n := |f.records|;
      var (g, a) := Store.Save(f, SaveRequest(w, f.records), stamps[n].id, stamps[n].now, Store.Finishes);
      a.Saved? && g.records == f.records + [a.reference] && Drawn(w, g, stamps)
  {
    var n := |f.records|;
    NotYetNamed(w, f, stamps);
    SaveUnclaimed(w, f, stamps[n]);
    var (_, a) := Store.Save(f, SaveRequest(w, f.records), stamps[n].id, stamps[n].now, Store.Finishes);
    DrawnNext(w, f, stamps, a.reference);
  }

  lemma NotYetNamed(w: World, f: Store.Folder, stamps: seq<Stamp>)
    requires |f.records| < 4 && Drawn(w, f, stamps)
    ensures Name(w, |f.records|) !in f.keys
  {
  }

  lemma SaveUnclaimed(w: World, f: Store.Folder, stamp: Stamp)
    requires |f.records| < 4 && Name(w, |f.records|) !in f.keys
    ensures var n := |f.records|;
      var (g, a) := Store.Save(f, SaveRequest(w, f.records), stamp.id, stamp.now, Store.Finishes);
      a.Saved? && g == Store.Folder(f.keys[Name(w, n) := a.reference.artifactId], f.records + [a.reference])
      && a.reference.artifactId == stamp.id && a.reference.createdAt == stamp.now
  {
  }

  lemma DrawnNext(w: World, f: Store.Folder, stamps: seq<Stamp>, r: Reference)
    requires |f.records| < 4 && Drawn(w, f, stamps) && Stamp(r.artifactId, r.createdAt) == stamps[|f.records|]
    ensures Drawn(w, Store.Folder(f.keys[Name(w, |f.records|) := r.artifactId], f.records + [r]), stamps)
  {
    var n := |f.records|;
    var g := Store.Folder(f.keys[Name(w, n) := r.artifactId], f.records + [r]);
    forall k | k in g.keys ensures exists i :: 0 <= i < |g.records| && k == Name(w, i) {
      if k == Name(w, n) {
        assert n < |g.records|;
      } else {
        var i :| 0 <= i < |f.records| && k == Name(w, i);
      }
    }
  }

  lemma StepDraws(w: World, db: Db, pc: Pc, stamps: seq<Stamp>)
    requires WellFormed(pc) && FolderOk(w, db.folder) && Unused(db.folder, stamps, Used(pc))
    requires Drawn(w, db.folder, stamps) && AtFront(db.folder.records, pc)
    requires pc.Claiming? ==> db.claim.None?
    requires pc.CreatingSession? ==> db.session.None? || db.session == Some(Active)
    requires pc.Releasing? ==> db.session == Some(Parked)
    requires db.session != Some(Parked) || pc.Returned?
    ensures var (d, p) := Step(w, db, pc, stamps);
      Drawn(w, d.folder, stamps) && AtFront(d.folder.records, p) && !p.Claiming?
    ensures var (d, p) := Step(w, db, pc, stamps); d.session != Some(Parked) || p.Returned?
  {
    if pc.Saving? {
      SavingDraws(w, db, stamps);
    } else {
      OthersDrawNothing(w, db, pc, stamps);
    }
  }

  lemma OthersDrawNothing(w: World, db: Db, pc: Pc, stamps: seq<Stamp>)
    requires WellFormed(pc) && |stamps| == 4 && !pc.Saving? && AtFront(db.folder.records, pc)
    requires pc.Claiming? ==> db.claim.None?
    requires pc.CreatingSession? ==> db.session.None? || db.session == Some(Active)
    requires pc.Releasing? ==> db.session == Some(Parked)
    requires db.session != Some(Parked) || pc.Returned?
    ensures var (d, p) := Step(w, db, pc, stamps);
      d.folder == db.folder && AtFront(db.folder.records, p) && !p.Claiming?
      && (d.session != Some(Parked) || p.Returned?)
  {
  }

  lemma SavingDraws(w: World, db: Db, stamps: seq<Stamp>)
    requires |db.folder.records| < 4 && FolderOk(w, db.folder) && Unused(db.folder, stamps, |db.folder.records|)
    requires Drawn(w, db.folder, stamps)
    ensures var (d, p) := OnSave(w, db, db.folder.records, stamps[|db.folder.records|]);
      && Drawn(w, d.folder, stamps) && AtFront(d.folder.records, p) && !p.Claiming? && d.session == db.session
      && (p.Saving? || p.Recording?)
  {
    SaveAtFront(w, db.folder, stamps);
  }

  /** Still ahead of its artifacts' records: nothing was cut off before. */
  ghost predicate Ahead(w: World, db: Db, pc: Pc, stamps: seq<Stamp>) {
    && Drawn(w, db.folder, stamps) && AtFront(db.folder.records, pc) && (pc.Claiming? ==> db.claim.None?)
    && (db.session != Some(Parked) || pc.Returned?)
  }

  lemma AheadStep(w: World, db: Db, pc: Pc, stamps: seq<Stamp>)
    requires Kept(w, db, pc, stamps) && Ahead(w, db, pc, stamps)
    ensures var (d, p) := Step(w, db, pc, stamps); Ahead(w, d, p, stamps)
  {
    StepDraws(w, db, pc, stamps);
  }

  lemma {:induction false} StepsDraw(w: World, db: Db, pc: Pc, stamps: seq<Stamp>, n: nat)
    requires Kept(w, db, pc, stamps) && Ahead(w, db, pc, stamps)
    ensures Drawn(w, Steps(w, db, pc, stamps, n).0.folder, stamps)
    decreases n
  {
    if n > 0 {
      var (d, p) := Step(w, db, pc, stamps);
      AheadStep(w, db, pc, stamps);
      StepKeeps(w, db, pc, stamps);
      StepsDraw(w, d, p, stamps, n - 1);
    }
  }

  /** Artifacts are determined by the stamps drawn for them. */
  lemma {:induction false} SameStampsSameArtifacts(w: World, a: seq<Reference>, b: seq<Reference>)
    requires |a| == |b| <= 4
    requires forall i :: 0 <= i < |a| ==> RecordFits(w, a, i) && RecordFits(w, b, i)
    requires forall i :: 0 <= i < |a| ==> a[i].artifactId == b[i].artifactId && a[i].createdAt == b[i].createdAt
    ensures a == b
  {
    if a != [] {
      var n := |a| - 1;
      PrefixFits(w, a, n);
      PrefixFits(w, b, n);
      SameStampsSameArtifacts(w, a[..n], b[..n]);
      assert RecordFits(w, a, n) && RecordFits(w, b, n);
      assert a == a[..n] + [a[n]] && b == b[..n] + [b[n]];
    }
  }

  lemma PrefixFits(w: World, a: seq<Reference>, n: nat)
    requires n <= |a| <= 4 && forall i :: 0 <= i < |a| ==> RecordFits(w, a, i)
    ensures forall i :: 0 <= i < n ==> RecordFits(w, a[..n], i)
  {
    forall i | 0 <= i < n ensures RecordFits(w, a[..n], i) {
      assert RecordFits(w, a, i) && a[..n][..i] == a[..i];
    }
  }

  lemma NothingKept(w: World, stamps: seq<Stamp>)
    requires Unused(Store.EMPTY, stamps, 0)
    ensures Kept(w, NOTHING, Claiming, stamps) && Drawn(w, NOTHING.folder, stamps)
  {
  }

  lemma DrawsUnused(w: World, f: Store.Folder)
    requires FolderOk(w, f) && |f.records| == 4
    ensures Unused(Store.EMPTY, DrawsOf(f.records), 0)
  {
    DistinctIds(w, f);
  }

  lemma DrawnIsDetermined(w: World, a: seq<Reference>, b: seq<Reference>)
    requires |a| == |b| == 4
    requires forall i :: 0 <= i < 4 ==> RecordFits(w, a, i) && RecordFits(w, b, i)
    requires forall i :: 0 <= i < 4 ==> Stamp(b[i].artifactId, b[i].createdAt) == DrawsOf(a)[i]
    ensures b == a
  {
    forall i | 0 <= i < 4 ensures b[i].artifactId == a[i].artifactId && b[i].createdAt == a[i].createdAt {
      assert DrawsOf(a)[i] == Stamp(a[i].artifactId, a[i].createdAt);
    }
    SameStampsSameArtifacts(w, b, a);
  }

  /** An undisturbed attempt that draws the stamps of these artifacts writes them. */
  lemma UncrashedWrites(w: World, f: Store.Folder, n: nat)
    requires n >= ALL
    requires FolderOk(w, f) && |f.records| == 4
    ensures Steps(w, NOTHING, Claiming, DrawsOf(f.records), n).0.folder.records == f.records
  {
    var draws := DrawsOf(f.records);
    DrawsUnused(w, f);
    NothingKept(w, draws);
    var d := Steps(w, NOTHING, Claiming, draws, n).0;
    assert |d.folder.records| == 4 by {
      RetryConverges(w, [], draws, n);
    }
    assert Drawn(w, d.folder, draws) by {
      StepsDraw(w, NOTHING, Claiming, draws, n);
    }
    assert FolderOk(w, d.folder) by {
      StepsKeep(w, NOTHING, Claiming, draws, n);
    }
    DrawnIsDetermined(w, f.records, d.folder.records);
  }

  /** A creation that succeeded after any number of cut-off attempts stored and
      answered exactly what one undisturbed attempt would have, had it drawn the
      ids and clock readings that the artifacts carry. */
  lemma SameAsUncrashed(w: World, cuts: seq<Cut>, stamps: seq<Stamp>, n: nat)
    requires n >= ALL
    requires FreshIds(w, cuts) && Unused(AfterCuts(w, cuts).folder, stamps, 0)
    requires var end := Steps(w, AfterCuts(w, cuts), Claiming, stamps, n); end.1.Returned? && end.1.answer.Created?
    ensures var end := Steps(w, AfterCuts(w, cuts), Claiming, stamps, n);
      |end.0.folder.records| == 4 && Steps(w, NOTHING, Claiming, DrawsOf(end.0.folder.records), n) == end
  {
    var (d, p) := Steps(w, AfterCuts(w, cuts), Claiming, stamps, n);
    assert |d.folder.records| == 4 && IsComplete(w, d)
        && p == Returned(Created(ResponseOf(FirstTurn(w, d.folder.records), d.folder.records))) by {
      RetryConverges(w, cuts, stamps, n);
    }
    assert FolderOk(w, d.folder) by {
      CutsKeep(w, cuts);
      StepsKeep(w, AfterCuts(w, cuts), Claiming, stamps, n);
    }
    UncrashedAnswers(w, d.folder, n);
  }

  lemma UncrashedAnswers(w: World, f: Store.Folder, n: nat)
    requires n >= ALL
    requires FolderOk(w, f) && |f.records| == 4 && OpeningValid(w, f.records)
    ensures Steps(w, NOTHING, Claiming, DrawsOf(f.records), n)
         == (Complete(w, f.records), Returned(Created(ResponseOf(FirstTurn(w, f.records), f.records))))
  {
    DrawsUnused(w, f);
    UncrashedWrites(w, f, n);
    RetryConverges(w, [], DrawsOf(f.records), n);
  }

  /** Once creation has been answered, every later attempt replays the answer
      and changes nothing. */
  lemma CreatedReplays(w: World, cuts: seq<Cut>, stamps: seq<Stamp>, again: seq<Stamp>, n: nat)
    requires n >= ALL
    requires FreshIds(w, cuts) && Unused(AfterCuts(w, cuts).folder, stamps, 0) && |again| == 4
    requires var end := Steps(w, AfterCuts(w, cuts), Claiming, stamps, n); end.1.Returned? && end.1.answer.Created?
    ensures var end := Steps(w, AfterCuts(w, cuts), Claiming, stamps, n); Steps(w, end.0, Claiming, again, n) == end
  {
    var (d, p) := Steps(w, AfterCuts(w, cuts), Claiming, stamps, n);
    assert d.claim == Some(Claim(w.body, Some(p.answer.response))) by {
      RetryConverges(w, cuts, stamps, n);
      assert IsComplete(w, d);
    }
    ReplaysAtOnce(w, d, p.answer.response, again, n);
  }

  lemma ReplaysAtOnce(w: World, d: Db, response: Response, again: seq<Stamp>, n: nat)
    requires d.claim == Some(Claim(w.body, Some(response))) && |again| == 4 && n >= 1
    ensures Steps(w, d, Claiming, again, n) == (d, Returned(Created(response)))
  {
    assert OnClaim(w, d) == (d, Returned(Created(response)));
    StaysReturned(w, d, Returned(Created(response)), again, n - 1);
  }

  lemma {:induction false} StaysReturned(w: World, db: Db, pc: Pc, stamps: seq<Stamp>, n: nat)
    requires pc.Returned? && |stamps| == 4
    ensures Steps(w, db, pc, stamps, n) == (db, pc)
    decreases n
  {
    if n > 0 {
      StaysReturned(w, db, pc, stamps, n - 1);
    }
  }
}
