/** Retry loops under a request deadline: the agent clients (agent_clients.py,
    ae_client.py) and the MCP client (mcp_client.py). Times are reals; an attempt
    is cut at its timeout. */
module Deadlines {
  import opened Common

  const RESERVE := 5.0

  /** `Guarded` policies skip a back-off that would pass the deadline; only the
      facilitator reconciles after an ambiguous failure. */
  datatype Policy = Policy(attempts: nat, timeout: real, fixedDelay: Option<real>, guarded: bool)

  const FACILITATOR := Policy(2, 120.0, Some(5.0), true)

  datatype Outcome = Success | RetryableError | TerminalError | TransportError

  /** What the world does to one attempt: the time it would take, how it ends,
      the time reconciliation takes and whether it finds a result, the jitter. */
  datatype Try = Try(spent: real, outcome: Outcome, recovery: real, recovered: bool, jitter: real)

  predicate Sane(t: Try) { t.spent >= 0.0 && t.recovery >= 0.0 && 0.0 <= t.jitter < 1.0 }

  datatype End = Answered | CallFailure | TransportFailure | DeadlineExceeded

  /** One started attempt. */
  datatype Start = Start(at: real, timeout: real)
  datatype Trace = Trace(end: End, at: real, starts: seq<Start>)

  function Min(a: real, b: real): real { if a <= b then a else b }

  /** `_clamped_timeout`; nothing when the budget is used up. */
  function Clamped(p: Policy, now: real, deadline: real): (r: Option<real>)
    ensures r.Some? ==> r.value <= p.timeout && now + r.value <= deadline - RESERVE
    ensures r.Some? && p.timeout > 0.0 ==> r.value > 0.0
    ensures r.None? <==> now >= deadline - RESERVE
  {
    var remaining := deadline - now - RESERVE;
    if remaining <= 0.0 then None else Some(Min(p.timeout, remaining))
  }

  function Delay(p: Policy, attempt: nat, jitter: real): real {
    if p.fixedDelay.Some? then p.fixedDelay.value
    else (if attempt <= 1 then 1.0 else 2.0) * (0.5 + jitter)
  }

  function BackedOff(p: Policy, attempt: nat, jitter: real, now: real, deadline: real): real {
    if p.guarded && now + Delay(p, attempt, jitter) >= deadline then now else now + Delay(p, attempt, jitter)
  }

  /** How an attempt that may take `timeout` actually ends. */
  function Ends(t: Try, timeout: real): Outcome { if t.spent > timeout then TransportError else t.outcome }

  function Elapsed(t: Try, timeout: real): real { Min(t.spent, timeout) }

  function FailureOf(o: Outcome): End { if o.TransportError? then TransportFailure else CallFailure }

  // -- the loop as a function of what the world does ---------------------------------------

  function Calls(p: Policy, now: real, deadline: real, attempt: nat, tries: seq<Try>): Trace
    requires 1 <= attempt <= p.attempts == |tries|
    decreases p.attempts - attempt
  {
    var timeout := Clamped(p, now, deadline);
    if timeout.None? then Trace(DeadlineExceeded, now, [])
    else
      var t := tries[attempt - 1];
      var started := [Start(now, timeout.value)];
      var finished := now + Elapsed(t, timeout.value);
      match Ends(t, timeout.value)
      case Success => Trace(Answered, finished, started)
      case TerminalError => Trace(CallFailure, finished, started)
      case failure =>
        var after := finished + t.recovery;
        if t.recovered then Trace(Answered, after, started)
        else if attempt == p.attempts then Trace(FailureOf(failure), after, started)
        else
          Prepended(started, Calls(p, BackedOff(p, attempt, t.jitter, after, deadline), deadline, attempt + 1, tries))
  }

  function Prepended(starts: seq<Start>, rest: Trace): Trace { Trace(rest.end, rest.at, starts + rest.starts) }

  lemma PrependedTwice(a: seq<Start>, s: Start, rest: Trace)
    ensures Prepended(a, Prepended([s], rest)) == Prepended(a + [s], rest)
  {
    assert a + ([s] + rest.starts) == a + [s] + rest.starts;
  }

  /** The loop itself. */
  method RunLoop(p: Policy, begin: real, deadline: real, tries: seq<Try>) returns (trace: Trace)
    requires 1 <= p.attempts == |tries|
    ensures trace == Calls(p, begin, deadline, 1, tries)
  {
    var now, attempt := begin, 1;
    var starts: seq<Start> := [];
    assert Prepended([], Calls(p, begin, deadline, 1, tries)) == Calls(p, begin, deadline, 1, tries);
    while true
      invariant 1 <= attempt <= p.attempts
      invariant Calls(p, begin, deadline, 1, tries) == Prepended(starts, Calls(p, now, deadline, attempt, tries))
      decreases p.attempts - attempt
    {
      var timeout := Clamped(p, now, deadline);
      if timeout.None? {
        return Prepended(starts, Trace(DeadlineExceeded, now, []));
      }
      var t := tries[attempt - 1];
      var started := Start(now, timeout.value);
      var finished := now + Elapsed(t, timeout.value);
      var outcome := Ends(t, timeout.value);
      if outcome.Success? {
        return Prepended(starts, Trace(Answered, finished, [started]));
      }
      if outcome.TerminalError? {
        return Prepended(starts, Trace(CallFailure, finished, [started]));
      }
      finished := finished + t.recovery;
      if t.recovered {
        return Prepended(starts, Trace(Answered, finished, [started]));
      }
      if attempt == p.attempts {
        return Prepended(starts, Trace(FailureOf(outcome), finished, [started]));
      }
      var next := BackedOff(p, attempt, t.jitter, finished, deadline);
      PrependedTwice(starts, started, Calls(p, next, deadline, attempt + 1, tries));
      now, attempt, starts := next, attempt + 1, starts + [started];
    }
  }

  // -- which attempt decides, and how --------------------------------------------------------

  /** The attempt outlasted its timeout. */
  predicate TimedOut(t: Try, s: Start) { t.spent > s.timeout }

  /** It failed in a way that leaves its result unknown. */
  predicate Ambiguous(t: Try, s: Start) { TimedOut(t, s) || t.outcome.RetryableError? || t.outcome.TransportError? }

  function FinishedAt(t: Try, s: Start): real { s.at + if TimedOut(t, s) then s.timeout else t.spent }

  /** When the loop looks at its budget again: reconciled, and a fixed delay or a
      jittered one of about 1 s, later 2 s, slept; a guarded sleep that would
      reach the deadline is skipped. */
  function ResumesAt(p: Policy, deadline: real, attempt: nat, t: Try, s: Start): real {
    var pause := match p.fixedDelay
      case Some(delay) => delay
      case None => if attempt <= 1 then 0.5 + t.jitter else 1.0 + 2.0 * t.jitter;
    var reconciled := FinishedAt(t, s) + t.recovery;
    if p.guarded && reconciled + pause >= deadline then reconciled else reconciled + pause
  }

  /** An attempt starts on what the budget allows. */
  predicate Budgeted(p: Policy, deadline: real, s: Start) {
    && s.at < deadline - 5.0 && s.timeout <= p.timeout && s.at + s.timeout <= deadline - 5.0
    && (s.timeout == p.timeout || s.at + s.timeout == deadline - 5.0)
  }

  /** It had an ambiguous failure that nothing recovered, and the next look at the
      budget is then. */
  predicate PassedOn(p: Policy, deadline: real, attempt: nat, t: Try, s: Start, next: real) {
    && attempt < p.attempts && Ambiguous(t, s) && !t.recovered
    && next == ResumesAt(p, deadline, attempt, t, s)
  }

  /** The last attempt started decides, unless the budget is used up before the next. */
  predicate Decides(p: Policy, deadline: real, attempt: nat, t: Try, s: Start, end: End, at: real) {
    && (end.Answered? <==> (!TimedOut(t, s) && t.outcome.Success?) || (Ambiguous(t, s) && t.recovered))
    && (end.CallFailure? <==>
          !TimedOut(t, s)
          && (t.outcome.TerminalError? || (t.outcome.RetryableError? && !t.recovered && attempt == p.attempts)))
    && (end.TransportFailure? <==>
          (TimedOut(t, s) || t.outcome.TransportError?) && !t.recovered && attempt == p.attempts)
    && (end.DeadlineExceeded? ==> at >= deadline - 5.0 && PassedOn(p, deadline, attempt, t, s, at))
    && (!end.DeadlineExceeded? ==> at == FinishedAt(t, s) + if Ambiguous(t, s) then t.recovery else 0.0)
  }

  /** The account of a loop from this attempt on. */
  ghost predicate Explains(p: Policy, now: real, deadline: real, attempt: nat, tries: seq<Try>, trace: Trace)
    requires 1 <= attempt <= p.attempts == |tries|
  {
    var starts, k := trace.starts, |trace.starts|;
    && k <= p.attempts - attempt + 1
    && (forall i :: 0 <= i < k ==> Budgeted(p, deadline, starts[i]))
    && (forall i: nat :: i < k - 1 ==> StartedNext(p, deadline, attempt, tries, starts, i))
    && (k == 0 ==> trace.end.DeadlineExceeded? && trace.at == now && now >= deadline - 5.0)
    && (k > 0 ==> starts[0].at == now)
    && (k > 0 ==> Decides(p, deadline, attempt + k - 1, tries[attempt + k - 2], starts[k - 1], trace.end, trace.at))
  }

  /** Attempt `attempt + i` passed on to the next one started. */
  predicate StartedNext(p: Policy, deadline: real, attempt: nat, tries: seq<Try>, starts: seq<Start>, i: nat)
    requires i + 1 < |starts| && 1 <= attempt && attempt - 1 + i < |tries|
  {
    PassedOn(p, deadline, attempt + i, tries[attempt - 1 + i], starts[i], starts[i + 1].at)
  }

  lemma StartsOneMore(p: Policy, deadline: real, attempt: nat, upon: nat, tries: seq<Try>, s: Start,
                      starts: seq<Start>)
    requires 1 <= attempt && upon == attempt + 1 && attempt + |starts| <= |tries| && starts != []
    requires PassedOn(p, deadline, attempt, tries[attempt - 1], s, starts[0].at)
    requires forall i: nat :: i < |starts| - 1 ==> StartedNext(p, deadline, upon, tries, starts, i)
    ensures forall i: nat :: i < |starts| ==> StartedNext(p, deadline, attempt, tries, [s] + starts, i)
  {
    forall i: nat | i < |starts| ensures StartedNext(p, deadline, attempt, tries, [s] + starts, i) {
      if i > 0 {
        assert StartedNext(p, deadline, upon, tries, starts, i - 1);
      }
    }
  }

  lemma ExplainsOneMore(p: Policy, deadline: real, attempt: nat, tries: seq<Try>, s: Start, next: real, rest: Trace)
    requires 1 <= attempt < p.attempts == |tries| && Budgeted(p, deadline, s)
    requires PassedOn(p, deadline, attempt, tries[attempt - 1], s, next)
    requires Explains(p, next, deadline, attempt + 1, tries, rest)
    ensures Explains(p, s.at, deadline, attempt, tries, Prepended([s], rest))
  {
    if rest.starts != [] {
      StartsOneMore(p, deadline, attempt, attempt + 1, tries, s, rest.starts);
    }
  }

  lemma CallsAtOnce(p: Policy, deadline: real, attempt: nat, tries: seq<Try>, s: Start)
    requires 1 <= attempt <= p.attempts == |tries| && Clamped(p, s.at, deadline) == Some(s.timeout)
    ensures var trace := Calls(p, s.at, deadline, attempt, tries); var t := tries[attempt - 1];
      if Ambiguous(t, s) && !t.recovered && attempt < p.attempts then
        trace == Prepended([s], Calls(p, ResumesAt(p, deadline, attempt, t, s), deadline, attempt + 1, tries))
      else trace.starts == [s] && Decides(p, deadline, attempt, t, s, trace.end, trace.at)
  {
    var t := tries[attempt - 1];
    assert FinishedAt(t, s) == s.at + Elapsed(t, s.timeout);
    if attempt < p.attempts {
      assert ResumesAt(p, deadline, attempt, t, s)
          == BackedOff(p, attempt, t.jitter, FinishedAt(t, s) + t.recovery, deadline);
    }
  }

  lemma {:induction false} CallsExplained(p: Policy, now: real, deadline: real, attempt: nat, tries: seq<Try>)
    requires 1 <= attempt <= p.attempts == |tries|
    ensures Explains(p, now, deadline, attempt, tries, Calls(p, now, deadline, attempt, tries))
    decreases p.attempts - attempt
  {
    var timeout := Clamped(p, now, deadline);
    if timeout.Some? {
      var t, s := tries[attempt - 1], Start(now, timeout.value);
      CallsAtOnce(p, deadline, attempt, tries, s);
      if Ambiguous(t, s) && !t.recovered && attempt < p.attempts {
        var next := ResumesAt(p, deadline, attempt, t, s);
        CallsExplained(p, next, deadline, attempt + 1, tries);
        ExplainsOneMore(p, deadline, attempt, tries, s, next, Calls(p, next, deadline, attempt + 1, tries));
      }
    }
  }

  /** One call, with its account. */
  method Call(p: Policy, begin: real, deadline: real, tries: seq<Try>) returns (trace: Trace)
    requires 1 <= p.attempts == |tries|
    ensures trace == Calls(p, begin, deadline, 1, tries) && Explains(p, begin, deadline, 1, tries, trace)
  {
    trace := RunLoop(p, begin, deadline, tries);
    CallsExplained(p, begin, deadline, 1, tries);
  }

  lemma ExplainsOneLess(p: Policy, now: real, deadline: real, attempt: nat, tries: seq<Try>, trace: Trace)
    requires 1 <= attempt <= p.attempts == |tries| && |trace.starts| > 1
    requires Explains(p, now, deadline, attempt, tries, trace)
    ensures attempt < p.attempts
    ensures var starts := trace.starts;
      Explains(p, starts[1].at, deadline, attempt + 1, tries, Trace(trace.end, trace.at, starts[1..]))
  {
    var starts, upon := trace.starts, attempt + 1;
    forall i: nat | i < |starts| - 2 ensures StartedNext(p, deadline, upon, tries, starts[1..], i) {
      assert StartedNext(p, deadline, attempt, tries, starts, i + 1);
    }
  }

  lemma OnlyOneStarted(p: Policy, deadline: real, attempt: nat, tries: seq<Try>, s: Start, end: End, at: real)
    requires 1 <= attempt <= p.attempts == |tries| && Budgeted(p, deadline, s)
    requires Decides(p, deadline, attempt, tries[attempt - 1], s, end, at)
    ensures Trace(end, at, [s]) == Calls(p, s.at, deadline, attempt, tries)
  {
    CallsAtOnce(p, deadline, attempt, tries, s);
  }

  /** The account leaves nothing open: no other trace fits it. */
  lemma {:induction false} OnlyTheCalls(p: Policy, now: real, deadline: real, attempt: nat, tries: seq<Try>,
                                        trace: Trace)
    requires 1 <= attempt <= p.attempts == |tries| && Explains(p, now, deadline, attempt, tries, trace)
    ensures trace == Calls(p, now, deadline, attempt, tries)
    decreases p.attempts - attempt
  {
    var starts := trace.starts;
    if |starts| == 1 {
      assert starts == [starts[0]];
      OnlyOneStarted(p, deadline, attempt, tries, starts[0], trace.end, trace.at);
    } else if |starts| > 1 {
      assert StartedNext(p, deadline, attempt, tries, starts, 0);
      CallsAtOnce(p, deadline, attempt, tries, starts[0]);
      ExplainsOneLess(p, now, deadline, attempt, tries, trace);
      OnlyTheCalls(p, starts[1].at, deadline, attempt + 1, tries, Trace(trace.end, trace.at, starts[1..]));
      assert starts == [starts[0]] + starts[1..];
    }
  }

  // -- bounds ------------------------------------------------------------------------------

  /** No attempt is started without budget: each one that starts can use up its
      timeout and still leave the reserve; none starts beyond the attempt count,
      and they start one after the other. */
  lemma {:induction false} StartsWithinBudget(p: Policy, now: real, deadline: real, attempt: nat, tries: seq<Try>)
    requires 1 <= attempt <= p.attempts == |tries| && p.timeout > 0.0
    requires (forall t :: t in tries ==> Sane(t)) && (p.fixedDelay.Some? ==> p.fixedDelay.value >= 0.0)
    ensures var starts := Calls(p, now, deadline, attempt, tries).starts;
      && |starts| <= p.attempts - attempt + 1
      && (forall i :: 0 <= i < |starts| ==> now <= starts[i].at && 0.0 < starts[i].timeout <= p.timeout)
      && (forall i :: 0 <= i < |starts| ==> starts[i].at + starts[i].timeout <= deadline - RESERVE)
      && (forall i :: 0 <= i < |starts| - 1 ==> starts[i].at <= starts[i + 1].at)
    decreases p.attempts - attempt
  {
    var timeout := Clamped(p, now, deadline);
    if timeout.Some? && attempt < p.attempts {
      var t := tries[attempt - 1];
      assert t in tries;
      var after := now + Elapsed(t, timeout.value) + t.recovery;
      StartsWithinBudget(p, BackedOff(p, attempt, t.jitter, after, deadline), deadline, attempt + 1, tries);
    }
  }

  /** Unreconciled short calls, guarded or not: the loop ends before two seconds
      to the deadline. The jittered delay stays below three of the five reserved
      seconds. */
  lemma {:induction false} ShortCallsEndEarly(p: Policy, now: real, deadline: real, attempt: nat, tries: seq<Try>)
    requires 1 <= attempt <= p.attempts == |tries| && p.fixedDelay.None?
    requires forall t :: t in tries ==> Sane(t) && t.recovery == 0.0
    requires now < deadline - 2.0
    ensures Calls(p, now, deadline, attempt, tries).at < deadline - 2.0
    decreases p.attempts - attempt
  {
    var timeout := Clamped(p, now, deadline);
    if timeout.Some? {
      var t := tries[attempt - 1];
      assert t in tries;
      var after := now + Elapsed(t, timeout.value) + t.recovery;
      assert after <= deadline - RESERVE;
      if attempt < p.attempts {
        assert Delay(p, attempt, t.jitter) < 3.0;
        ShortCallsEndEarly(p, BackedOff(p, attempt, t.jitter, after, deadline), deadline, attempt + 1, tries);
      }
    }
  }

  /** The deadline guard of the agent clients' back-off never bites on short
      calls: with and without it the loop does the same. */
  lemma {:induction false} GuardNeverBites(p: Policy, now: real, deadline: real, attempt: nat, tries: seq<Try>)
    requires 1 <= attempt <= p.attempts == |tries| && p.fixedDelay.None?
    requires forall t :: t in tries ==> Sane(t) && t.recovery == 0.0
    ensures Calls(p.(guarded := true), now, deadline, attempt, tries) ==
            Calls(p.(guarded := false), now, deadline, attempt, tries)
    decreases p.attempts - attempt
  {
    var timeout := Clamped(p, now, deadline);
    if timeout.Some? && attempt < p.attempts {
      var t := tries[attempt - 1];
      assert t in tries;
      var after := now + Elapsed(t, timeout.value) + t.recovery;
      assert Delay(p, attempt, t.jitter) < 3.0;
      GuardNeverBites(p, BackedOff(p, attempt, t.jitter, after, deadline), deadline, attempt + 1, tries);
    }
  }

  /** A guarded loop whose reconciliations take at most `slow` each ends by the
      deadline, or as much later as they outlast the reserve. */
  lemma {:induction false} GuardedEndsBy(p: Policy, now: real, deadline: real, attempt: nat, tries: seq<Try>,
                                         slow: real)
    requires 1 <= attempt <= p.attempts == |tries| && p.guarded
    requires forall t :: t in tries ==> Sane(t) && t.recovery <= slow
    requires now <= deadline || now <= deadline - RESERVE + slow
    ensures var at := Calls(p, now, deadline, attempt, tries).at; at <= deadline || at <= deadline - RESERVE + slow
    decreases p.attempts - attempt
  {
    var timeout := Clamped(p, now, deadline);
    if timeout.Some? {
      var t := tries[attempt - 1];
      assert t in tries;
      if attempt < p.attempts {
        var after := now + Elapsed(t, timeout.value) + t.recovery;
        GuardedEndsBy(p, BackedOff(p, attempt, t.jitter, after, deadline), deadline, attempt + 1, tries, slow);
      }
    }
  }

  /** The facilitator loop, started in time, always ends by its deadline exactly
      when no reconciliation can outlast the reserve: its reads are not clamped. */
  lemma FacilitatorEndsByDeadlineIff(slow: real)
    requires slow >= 0.0
    ensures slow <= RESERVE <==>
      forall now, deadline, tries :: now <= deadline && |tries| == FACILITATOR.attempts
          && (forall t :: t in tries ==> Sane(t) && t.recovery <= slow)
        ==> Calls(FACILITATOR, now, deadline, 1, tries).at <= deadline
  {
    if slow <= RESERVE {
      forall now, deadline, tries | now <= deadline && |tries| == FACILITATOR.attempts
          && (forall t :: t in tries ==> Sane(t) && t.recovery <= slow)
        ensures Calls(FACILITATOR, now, deadline, 1, tries).at <= deadline
      {
        GuardedEndsBy(FACILITATOR, now, deadline, 1, tries, slow);
      }
    } else {
      SlowReconciliationIsLate(slow);
      var late := Try(60.0, TransportError, slow, true, 0.0);
      var tries := [late, late];
      assert Calls(FACILITATOR, 0.0, 60.0 + RESERVE, 1, tries).at > 60.0 + RESERVE;
    }
  }

  /** An attempt that times out on the last second of its budget, and a
      reconciliation that takes `slow`: the call ends that much after the reserve
      begins, with its answer. */
  lemma SlowReconciliationIsLate(slow: real)
    requires slow >= 0.0
    ensures var late := Try(60.0, TransportError, slow, true, 0.0);
      Calls(FACILITATOR, 0.0, 60.0 + RESERVE, 1, [late, late]) == Trace(Answered, 60.0 + slow, [Start(0.0, 60.0)])
  {
    assert Clamped(FACILITATOR, 0.0, 60.0 + RESERVE) == Some(60.0);
  }
}
