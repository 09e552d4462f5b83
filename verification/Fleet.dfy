/** All sessions together: story runs, the one-active-run index, and session
    creation, which holds no lease but owns its session until it returns. */
module Fleet {
  import opened Records
  import opened Lifecycle
  import opened LifecycleInvariant
  import opened LifecycleSteps
  import opened LifecycleTheorems

  type RunId = nat

  /** Where one story run and its only session are. */
  datatype Slot =
    | Opened          // the run row alone
    | Creating        // run and session rows, session creation in flight
    | CreationFailed  // parked by a failed session creation
    | Ready(cell: Cell)

  datatype Entry = Entry(story: nat, user: nat, slot: Slot)
  type Fleet = map<RunId, Entry>

  function RunState(s: Slot): SessionState {
    match s
    case Opened => Active
    case Creating => Active
    case CreationFailed => Parked
    case Ready(c) => c.rows.run
  }

  predicate SessionLive(s: Slot) {
    s.Creating? || (s.Ready? && Live(s.cell.rows.session.state))
  }

  function RunTable(f: Fleet): map<RunId, RunRow> {
    map r | r in f :: RunRow(f[r].story, f[r].user, RunState(f[r].slot))
  }

  datatype Action =
    | Open(run: RunId, story: nat, user: nat)
    | CreateSession(run: RunId)
    | Finish(run: RunId, cell: Cell)
    | Fail(run: RunId)
    | Inside(run: RunId, event: Event)

  ghost predicate Allowed(f: Fleet, a: Action) {
    match a
    case Open(_, _, _) => true
    case CreateSession(run) => run in f && f[run].slot.Opened?
    case Finish(run, cell) => run in f && f[run].slot.Creating? && NewSession(cell)
    case Fail(run) => run in f && f[run].slot.Creating?
    case Inside(run, e) =>
      run in f && f[run].slot.Ready? && Enabled(f[run].slot.cell, e) && Punctual(f[run].slot.cell, e)
  }

  /** Opening a run inserts a row unless the id exists or the index refuses. */
  ghost function Do(f: Fleet, a: Action): Fleet
    requires Allowed(f, a)
  {
    match a
    case Open(run, story, user) =>
      if run in f || Clashes(RunTable(f), RunRow(story, user, Active)) then f else f[run := Entry(story, user, Opened)]
    case CreateSession(run) => f[run := f[run].(slot := Creating)]
    case Finish(run, cell) => f[run := f[run].(slot := Ready(cell))]
    case Fail(run) => f[run := f[run].(slot := CreationFailed)]
    case Inside(run, e) => f[run := f[run].(slot := Ready(Step(f[run].slot.cell, e)))]
  }

  ghost predicate AllAllowed(f: Fleet, actions: seq<Action>)
    decreases |actions|
  {
    actions == [] || (Allowed(f, actions[0]) && AllAllowed(Do(f, actions[0]), actions[1..]))
  }

  ghost function After(f: Fleet, actions: seq<Action>): Fleet
    requires AllAllowed(f, actions)
    decreases |actions|
  {
    if actions == [] then f else After(Do(f, actions[0]), actions[1..])
  }

  ghost predicate FleetOk(f: Fleet) {
    && IndexHolds(RunTable(f))
    && forall r :: r in f && f[r].slot.Ready? ==> Inv(f[r].slot.cell)
  }

  /** A live session's run is active: the rows are in lock-step. */
  lemma LiveMeansActive(s: Slot)
    requires s.Ready? ==> Inv(s.cell)
    ensures SessionLive(s) ==> RunState(s).Active?
    ensures RunState(s).Active? ==> SessionLive(s) || s.Opened?
    ensures s.Ready? && !SessionLive(s) ==> RunState(s) == s.cell.rows.session.state && Terminal(RunState(s))
  {
  }

  /** The same runs, and none of them revived. */
  ghost predicate NoneRevived(f: Fleet, g: Fleet) {
    && g.Keys == f.Keys
    && forall r :: r in g ==>
         g[r].story == f[r].story && g[r].user == f[r].user && (Live(RunState(g[r].slot)) ==> Live(RunState(f[r].slot)))
  }

  lemma IndexKept(f: Fleet, g: Fleet)
    requires IndexHolds(RunTable(f)) && NoneRevived(f, g)
    ensures IndexHolds(RunTable(g))
  {
    var before, after := RunTable(f), RunTable(g);
    forall x, y | x in after && y in after && x != y && Live(after[x].state) && Live(after[y].state)
      ensures after[x].story != after[y].story || after[x].user != after[y].user
    {
      assert x in before && y in before;
    }
  }

  lemma InsideKeeps(c: Cell, e: Event)
    requires Inv(c) && Enabled(c, e) && Punctual(c, e)
    ensures Inv(Step(c, e)) && (Live(Step(c, e).rows.run) ==> Live(c.rows.run))
  {
    StepGood(c, e);
    StepEdge(c, e);
  }

  lemma OpenKeeps(f: Fleet, run: RunId, story: nat, user: nat)
    requires IndexHolds(RunTable(f)) && run !in f && !Clashes(RunTable(f), RunRow(story, user, Active))
    ensures IndexHolds(RunTable(f[run := Entry(story, user, Opened)]))
  {
    var before, after := RunTable(f), RunTable(f[run := Entry(story, user, Opened)]);
    forall x, y | x in after && y in after && x != y && Live(after[x].state) && Live(after[y].state)
      ensures after[x].story != after[y].story || after[x].user != after[y].user
    {
      if x in f && y in f {
        assert before[x] == after[x] && before[y] == after[y];
      } else {
        var kept := if x in f then x else y;
        assert before[kept] == after[kept];
      }
    }
  }

  /** A slot may change as long as it revives no run. */
  lemma SlotKeeps(f: Fleet, run: RunId, slot: Slot)
    requires FleetOk(f) && run in f && (Live(RunState(slot)) ==> Live(RunState(f[run].slot)))
    requires slot.Ready? ==> Inv(slot.cell)
    ensures FleetOk(f[run := f[run].(slot := slot)])
  {
    IndexKept(f, f[run := f[run].(slot := slot)]);
  }

  /** No action revives a run, so none can break the index, rollback included. */
  lemma ActionKeeps(f: Fleet, a: Action)
    requires FleetOk(f) && Allowed(f, a)
    ensures FleetOk(Do(f, a))
  {
    match a {
      case Open(run, story, user) =>
        if Do(f, a) != f {
          OpenKeeps(f, run, story, user);
        }
      case CreateSession(run) => SlotKeeps(f, run, Creating);
      case Finish(run, cell) =>
        NewSessionInv(cell);
        SlotKeeps(f, run, Ready(cell));
      case Fail(run) => SlotKeeps(f, run, CreationFailed);
      case Inside(run, e) =>
        InsideKeeps(f[run].slot.cell, e);
        SlotKeeps(f, run, Ready(Step(f[run].slot.cell, e)));
    }
  }

  lemma {:induction false} RunKeeps(f: Fleet, actions: seq<Action>)
    requires FleetOk(f) && AllAllowed(f, actions)
    ensures FleetOk(After(f, actions))
    decreases |actions|
  {
    if actions != [] {
      ActionKeeps(f, actions[0]);
      RunKeeps(Do(f, actions[0]), actions[1..]);
    }
  }

  /** At any time a user has at most one live session per story. */
  lemma OneLiveSession(actions: seq<Action>, x: RunId, y: RunId)
    requires AllAllowed(map[], actions)
    requires var f := After(map[], actions);
      x in f && y in f && SessionLive(f[x].slot) && SessionLive(f[y].slot) && f[x].story == f[y].story
      && f[x].user == f[y].user
    ensures x == y
  {
    RunKeeps(map[], actions);
    var f := After(map[], actions);
    LiveMeansActive(f[x].slot);
    LiveMeansActive(f[y].slot);
    assert RunTable(f)[x].state.Active? && RunTable(f)[y].state.Active?;
  }

  /** A new run for a story opens exactly when none of the user's runs for it is
      still open or has a live session: every terminal state frees the story. */
  lemma StoryIsFreeIff(actions: seq<Action>, run: RunId, story: nat, user: nat)
    requires AllAllowed(map[], actions) && run !in After(map[], actions)
    ensures var f := After(map[], actions);
      run in Do(f, Open(run, story, user)) <==>
      forall r :: r in f && f[r].story == story && f[r].user == user ==> !SessionLive(f[r].slot) && !f[r].slot.Opened?
  {
    RunKeeps(map[], actions);
    var f := After(map[], actions);
    forall r | r in f ensures RunTable(f)[r].state.Active? <==> SessionLive(f[r].slot) || f[r].slot.Opened? {
      LiveMeansActive(f[r].slot);
    }
    forall r | r in f ensures Live(RunTable(f)[r].state) <==> RunTable(f)[r].state.Active? {
      LiveMeansActive(f[r].slot);
    }
  }
}
