/** The output fence over review findings (reviewer_output_fence.py). Splitting a text into
    content words is any function `words`; overlaps are exact reals. */
module Fence {
  import opened Common
  import opened Facilitator

  type Words = string -> set<string>

  const MATCH_THRESHOLD := 0.35
  const CONTEXT_THRESHOLD := 0.20

  datatype Rule = ScopeSettlement | ReReviewClamp
  datatype Event = Event(rule: Rule, finding: IssueId, reference: string, similarity: real)

  /** A settling clause with its words. */
  datatype Clause = Clause(text: string, words: set<string>)

  /** The overlap coefficient; nothing overlaps an empty set. */
  function Overlap(a: set<string>, b: set<string>): (r: real)
    ensures 0.0 <= r <= 1.0
    ensures r > 0.0 <==> a * b != {}
  {
    if a == {} || b == {} then 0.0
    else
      var smaller := if |a| <= |b| then |a| else |b|;
      OverlapBound(a, b);
      |a * b| as real / smaller as real
  }

  /** The shared words are that part of the smaller set. */
  lemma OverlapMeaning(a: set<string>, b: set<string>)
    ensures |a| <= |b| ==> Overlap(a, b) * |a| as real == |a * b| as real
    ensures Overlap(a, b) == Overlap(b, a)
  {
    assert a * b == b * a;
    if a != {} && b != {} {
      QuotientTimes(|a * b| as real, |a| as real);
    }
  }

  lemma QuotientTimes(x: real, y: real)
    requires y != 0.0
    ensures x / y * y == x
  {
  }

  lemma OverlapBound(a: set<string>, b: set<string>)
    requires a != {} && b != {}
    ensures var smaller := if |a| <= |b| then |a| else |b|;
      smaller > 0 && |a * b| <= smaller && 0.0 <= |a * b| as real / smaller as real <= 1.0
    ensures |a * b| > 0 <==> a * b != {}
  {
    SubsetSize(a * b, a);
    SubsetSize(a * b, b);
  }

  lemma {:induction false} SubsetSize(a: set<string>, b: set<string>)
    requires a <= b
    ensures |a| <= |b|
  {
    if a != {} {
      var x :| x in a;
      SubsetSize(a - {x}, b - {x});
    }
  }

  function FindingWords(words: Words, f: Finding): set<string> { words(f.title + " " + f.description) }

  // -- rule 1: a settled matter -------------------------------------------------------------

  /** The first clause that the finding overlaps. */
  function Settling(words: Words, f: Finding, clauses: seq<Clause>): (r: Option<Clause>)
    ensures r.Some? ==> r.value in clauses && Overlap(FindingWords(words, f), r.value.words) >= MATCH_THRESHOLD
    ensures r.None? <==> forall c :: c in clauses ==> Overlap(FindingWords(words, f), c.words) < MATCH_THRESHOLD
  {
    if clauses == [] then None
    else if Overlap(FindingWords(words, f), clauses[0].words) >= MATCH_THRESHOLD then Some(clauses[0])
    else Settling(words, f, clauses[1..])
  }

  function Unsettled(words: Words, findings: seq<Finding>, clauses: seq<Clause>): seq<Finding> {
    if findings == [] then []
    else
      var init, f := Unsettled(words, findings[..|findings| - 1], clauses), findings[|findings| - 1];
      if Settling(words, f, clauses).None? then init + [f] else init
  }

  function SettledEvents(words: Words, findings: seq<Finding>, clauses: seq<Clause>): seq<Event> {
    if findings == [] then []
    else
      var init, f := SettledEvents(words, findings[..|findings| - 1], clauses), findings[|findings| - 1];
      var c := Settling(words, f, clauses);
      if c.None? then init
          else init + [Event(ScopeSettlement, f.id, c.value.text, Overlap(FindingWords(words, f), c.value.words))]
  }

  method ApplyScopeSettlement(words: Words, findings: seq<Finding>, clauses: seq<Clause>)
    returns (kept: seq<Finding>, events: seq<Event>)
    ensures kept == Unsettled(words, findings, clauses) && events == SettledEvents(words, findings, clauses)
  {
    kept, events := [], [];
    for i := 0 to |findings|
      invariant kept == Unsettled(words, findings[..i], clauses)
      invariant events == SettledEvents(words, findings[..i], clauses)
    {
      var f := findings[i];
      assert findings[..i + 1][..i] == findings[..i];
      var settled := false;
      var j := 0;
      while j < |clauses| && !settled
        invariant 0 <= j <= |clauses|
        invariant settled ==> Settling(words, f, clauses).Some?
        invariant !settled ==> Settling(words, f, clauses) == Settling(words, f, clauses[j..])
        invariant !settled ==>
                kept == Unsettled(words, findings[..i], clauses)
                && events == SettledEvents(words, findings[..i], clauses)
        invariant settled ==>
                kept == Unsettled(words, findings[..i], clauses)
                && events == SettledEvents(words, findings[..i + 1], clauses)
        decreases |clauses| - j, !settled
      {
        var similarity := Overlap(FindingWords(words, f), clauses[j].words);
        if similarity >= MATCH_THRESHOLD {
          events := events + [Event(ScopeSettlement, f.id, clauses[j].text, similarity)];
          settled := true;
        } else {
          j := j + 1;
        }
      }
      if !settled {
        kept := kept + [f];
      }
    }
    assert findings[..|findings|] == findings;
  }

  // -- rule 2: the re-review clamp -----------------------------------------------------------------

  datatype Review = Review(findings: seq<Finding>, context: string)

  function Similarity(words: Words, f: Finding, prev: Finding): real {
    Overlap(FindingWords(words, f), FindingWords(words, prev))
  }

  /** The first most similar previous finding at or above the threshold. */
  function Best(words: Words, f: Finding, previous: seq<Finding>): (r: Option<Finding>)
    ensures r.None? <==> forall p :: p in previous ==> Similarity(words, f, p) < MATCH_THRESHOLD
    ensures r.Some? ==> r.value in previous && Similarity(words, f, r.value) >= MATCH_THRESHOLD
                        && forall p :: p in previous ==> Similarity(words, f, p) <= Similarity(words, f, r.value)
  {
    if previous == [] then None
    else
      var n := |previous| - 1;
      var init := Best(words, f, previous[..n]);
      assert previous == previous[..n] + [previous[n]];
      if Similarity(words, f, previous[n]) >= MATCH_THRESHOLD
          && (init.None? || Similarity(words, f, previous[n]) > Similarity(words, f, init.value))
      then Some(previous[n]) else init
  }

  function Matched(words: Words, f: Finding, prior: Review): Option<Finding> {
    if Overlap(FindingWords(words, f), words(prior.context)) >= CONTEXT_THRESHOLD then Best(words, f, prior.findings)
        else None
  }

  function Below(s: Severity): Severity
    requires !s.Info?
  {
    match s
    case Blocker => Major
    case Major => Minor
    case Minor => Info
  }

  function Level(s: Severity): nat {
    match s
    case Info => 0
    case Minor => 1
    case Major => 2
    case Blocker => 3
  }

  /** What rule 2 makes of one finding. */
  function Clamp(words: Words, f: Finding, prior: Review): Option<Finding> {
    var m := Matched(words, f, prior);
    if m.None? then Some(f)
    else if m.value.severity.Info? then None
    else Some(f.(severity := Below(m.value.severity)))
  }

  function ClampedAll(words: Words, findings: seq<Finding>, prior: Review): seq<Finding> {
    if findings == [] then []
    else
      var init, f :=
          ClampedAll(words, findings[..|findings| - 1], prior), Clamp(words, findings[|findings| - 1], prior);
      if f.Some? then init + [f.value] else init
  }

  function ClampEvents(words: Words, findings: seq<Finding>, prior: Review): seq<Event> {
    if findings == [] then []
    else
      var init, f := ClampEvents(words, findings[..|findings| - 1], prior), findings[|findings| - 1];
      var m := Matched(words, f, prior);
      if m.None? then init else init + [Event(ReReviewClamp, f.id, m.value.id, Similarity(words, f, m.value))]
  }

  method ApplyReReviewClamp(words: Words, findings: seq<Finding>, prior: Review)
    returns (kept: seq<Finding>, events: seq<Event>)
    ensures kept == ClampedAll(words, findings, prior) && events == ClampEvents(words, findings, prior)
    ensures Clamps(words, findings, prior, kept, events)
  {
    kept, events := [], [];
    for i := 0 to |findings|
      invariant kept == ClampedAll(words, findings[..i], prior) && events == ClampEvents(words, findings[..i], prior)
    {
      assert findings[..i + 1][..i] == findings[..i];
      var f := findings[i];
      var m := Matched(words, f, prior);
      if m.Some? {
        events := events + [Event(ReReviewClamp, f.id, m.value.id, Similarity(words, f, m.value))];
        if !m.value.severity.Info? {
          kept := kept + [f.(severity := Below(m.value.severity))];
        }
      } else {
        kept := kept + [f];
      }
    }
    assert findings[..|findings|] == findings;
    ClampMeaning(words, findings, prior);
  }

  // -- both rules --------------------------------------------------------------------------------------

  function Fenced(words: Words, findings: seq<Finding>, clauses: seq<Clause>, prior: Option<Review>): (seq<Finding>,
                  seq<Event>) {
    var unsettled, events := Unsettled(words, findings, clauses), SettledEvents(words, findings, clauses);
    if prior.Some? && prior.value.context != ""
    then (ClampedAll(words, unsettled, prior.value), events + ClampEvents(words, unsettled, prior.value))
    else (unsettled, events)
  }

  method ApplyFence(words: Words, findings: seq<Finding>, clauses: seq<Clause>, prior: Option<Review>)
    returns (kept: seq<Finding>, events: seq<Event>)
    ensures (kept, events) == Fenced(words, findings, clauses, prior)
    ensures Fences(words, findings, clauses, prior, kept, events)
  {
    FenceMeaning(words, findings, clauses, prior);
    kept, events := ApplyScopeSettlement(words, findings, clauses);
    if prior.Some? && prior.value.context != "" {
      var more: seq<Event>;
      kept, more := ApplyReReviewClamp(words, kept, prior.value);
      events := events + more;
    }
  }

  /** What becomes of one finding, rule 1 first. */
  function Fate(words: Words, f: Finding, clauses: seq<Clause>, prior: Option<Review>): Option<Finding> {
    if Settling(words, f, clauses).Some? then None
    else if prior.Some? && prior.value.context != "" then Clamp(words, f, prior.value)
    else Some(f)
  }

  function Survivors(words: Words, findings: seq<Finding>, clauses: seq<Clause>, prior: Option<Review>): seq<Finding> {
    if findings == [] then []
    else
      var init, f :=
          Survivors(words, findings[..|findings| - 1], clauses, prior),
              Fate(words, findings[|findings| - 1], clauses, prior);
      if f.Some? then init + [f.value] else init
  }

  /** How many of the findings a rule touches. */
  function Touched(words: Words, findings: seq<Finding>, clauses: seq<Clause>, prior: Option<Review>): nat {
    if findings == [] then 0
    else
      var f := findings[|findings| - 1];
      Touched(words, findings[..|findings| - 1], clauses, prior)
      + if Settling(words, f, clauses).Some?
      || (prior.Some? && prior.value.context != "" && Matched(words, f, prior.value).Some?) then 1 else 0
  }

  /** The two passes treat each finding on its own, keep the order of what
      survives, and report one event for each finding they touch. */
  lemma {:induction false} FenceIsFindingwise(words: Words, findings: seq<Finding>, clauses: seq<Clause>,
                                              prior: Option<Review>)
    ensures Fenced(words, findings, clauses, prior).0 == Survivors(words, findings, clauses, prior)
    ensures |Fenced(words, findings, clauses, prior).1| == Touched(words, findings, clauses, prior)
  {
    if findings != [] {
      var n := |findings| - 1;
      FenceIsFindingwise(words, findings[..n], clauses, prior);
      var init := Unsettled(words, findings[..n], clauses);
      if Settling(words, findings[n], clauses).None? {
        assert (init + [findings[n]])[..|init|] == init;
      }
    }
  }

  /** A finding that survived once survives again, unchanged. */
  lemma FateIsFinal(words: Words, f: Finding, clauses: seq<Clause>, prior: Option<Review>)
    requires Fate(words, f, clauses, prior).Some?
    ensures Fate(words, Fate(words, f, clauses, prior).value, clauses, prior) == Fate(words, f, clauses, prior)
  {
    var g := Fate(words, f, clauses, prior).value;
    assert FindingWords(words, g) == FindingWords(words, f);
    SameWordsSameClause(words, f, g, clauses);
    if prior.Some? {
      SameWordsSameMatch(words, f, g, prior.value.findings);
    }
  }

  lemma {:induction false} SameWordsSameClause(words: Words, f: Finding, g: Finding, clauses: seq<Clause>)
    requires FindingWords(words, f) == FindingWords(words, g)
    ensures Settling(words, f, clauses) == Settling(words, g, clauses)
  {
    if clauses != [] {
      SameWordsSameClause(words, f, g, clauses[1..]);
    }
  }

  lemma {:induction false} SameWordsSameMatch(words: Words, f: Finding, g: Finding, previous: seq<Finding>)
    requires FindingWords(words, f) == FindingWords(words, g)
    ensures Best(words, f, previous) == Best(words, g, previous)
  {
    if previous != [] {
      SameWordsSameMatch(words, f, g, previous[..|previous| - 1]);
    }
  }

  /** Fencing a fenced report changes no finding. */
  lemma {:induction false} FenceIsIdempotent(words: Words, findings: seq<Finding>, clauses: seq<Clause>,
                                             prior: Option<Review>)
    ensures var once := Fenced(words, findings, clauses, prior).0; Fenced(words, once, clauses, prior).0 == once
  {
    FenceIsFindingwise(words, findings, clauses, prior);
    FenceIsFindingwise(words, Survivors(words, findings, clauses, prior), clauses, prior);
    SurvivorsSurvive(words, findings, clauses, prior);
  }

  lemma {:induction false} SurvivorsSurvive(words: Words, findings: seq<Finding>, clauses: seq<Clause>,
                                            prior: Option<Review>)
    ensures var once := Survivors(words, findings, clauses, prior); Survivors(words, once, clauses, prior) == once
  {
    if findings != [] {
      var n := |findings| - 1;
      var init, f := Survivors(words, findings[..n], clauses, prior), Fate(words, findings[n], clauses, prior);
      SurvivorsSurvive(words, findings[..n], clauses, prior);
      if f.Some? {
        FateIsFinal(words, findings[n], clauses, prior);
        assert (init + [f.value])[..|init|] == init;
      }
    }
  }

  /** No event means no change. */
  lemma {:induction false} NoEventNoChange(words: Words, findings: seq<Finding>, clauses: seq<Clause>,
                                           prior: Option<Review>)
    requires Touched(words, findings, clauses, prior) == 0
    ensures Survivors(words, findings, clauses, prior) == findings
  {
    if findings != [] {
      NoEventNoChange(words, findings[..|findings| - 1], clauses, prior);
      assert findings == findings[..|findings| - 1] + [findings[|findings| - 1]];
    }
  }

  // -- what the passes make of each finding, in its own words -----------------------------------------

  /** The values that are there, in order. */
  function Present<T>(s: seq<Option<T>>): seq<T> {
    if s == [] then []
    else Present(s[..|s| - 1]) + if s[|s| - 1].Some? then [s[|s| - 1].value] else []
  }

  /** How close a finding's title and description come to a text. */
  function Near(words: Words, f: Finding, text: string): real {
    Overlap(words(f.title + " " + f.description), words(text))
  }

  function Closeness(words: Words, f: Finding, previous: seq<Finding>, i: nat): real
    requires i < |previous|
  {
    Near(words, f, previous[i].title + " " + previous[i].description)
  }

  /** The b-th previous finding is close by 0.35, and the first of the closest ones. */
  ghost predicate Closest(words: Words, f: Finding, previous: seq<Finding>, b: nat) {
    && b < |previous| && Closeness(words, f, previous, b) >= 0.35
    && (forall i: nat :: i < |previous| ==> Closeness(words, f, previous, i) <= Closeness(words, f, previous, b))
    && (forall i: nat :: i < b ==> Closeness(words, f, previous, i) < Closeness(words, f, previous, b))
  }

  /** Clause j is the first that the finding overlaps by 0.35. */
  ghost predicate SettledBy(words: Words, f: Finding, clauses: seq<Clause>, j: nat) {
    && j < |clauses| && Overlap(words(f.title + " " + f.description), clauses[j].words) >= 0.35
    && forall i :: 0 <= i < j ==> Overlap(words(f.title + " " + f.description), clauses[i].words) < 0.35
  }

  ghost predicate Repeats(words: Words, f: Finding, prior: Review) {
    && Near(words, f, prior.context) >= 0.20
    && exists p :: p in prior.findings && Near(words, f, p.title + " " + p.description) >= 0.35
  }

  /** Rule 2 on one finding: what becomes of it and what is reported. */
  ghost predicate ClampDoes(words: Words, f: Finding, prior: Review, fate: Option<Finding>, report: Option<Event>) {
    if Repeats(words, f, prior) then exists b: nat :: ClampedAgainst(words, f, prior.findings, b, fate, report)
    else fate == Some(f) && report == None
  }

  /** One below the closest previous finding's severity, or gone if that is info. */
  ghost predicate ClampedAgainst(words: Words, f: Finding, previous: seq<Finding>, b: nat, fate: Option<Finding>,
                                 report: Option<Event>) {
    && Closest(words, f, previous, b)
    && report == Some(Event(ReReviewClamp, f.id, previous[b].id, Closeness(words, f, previous, b)))
    && match previous[b].severity
       case Blocker => fate == Some(f.(severity := Major))
       case Major => fate == Some(f.(severity := Minor))
       case Minor => fate == Some(f.(severity := Info))
       case Info => fate == None
  }

  /** Rule 1 on one finding: gone and reported with its first settling clause, or kept. */
  ghost predicate SettlementDoes(words: Words, f: Finding, clauses: seq<Clause>, fate: Option<Finding>,
                                 report: Option<Event>) {
    if exists c :: c in clauses && Overlap(words(f.title + " " + f.description), c.words) >= 0.35
    then fate == None && exists j: nat :: SettledAgainst(words, f, clauses, j, report)
    else fate == Some(f) && report == None
  }

  ghost predicate SettledAgainst(words: Words, f: Finding, clauses: seq<Clause>, j: nat, report: Option<Event>) {
    && SettledBy(words, f, clauses, j)
    && report == Some(Event(ScopeSettlement, f.id, clauses[j].text,
                            Overlap(words(f.title + " " + f.description), clauses[j].words)))
  }

  lemma {:induction false} SettlingIsFirst(words: Words, f: Finding, clauses: seq<Clause>) returns (j: nat)
    requires Settling(words, f, clauses).Some?
    ensures SettledBy(words, f, clauses, j) && Settling(words, f, clauses).value == clauses[j]
  {
    if Overlap(FindingWords(words, f), clauses[0].words) >= MATCH_THRESHOLD {
      j := 0;
    } else {
      j := SettlingIsFirst(words, f, clauses[1..]);
      j := j + 1;
    }
  }

  /** The place of the match, which nothing before it reaches. */
  lemma {:induction false} BestIsFirst(words: Words, f: Finding, previous: seq<Finding>) returns (b: nat)
    requires Best(words, f, previous).Some?
    ensures b < |previous| && Best(words, f, previous).value == previous[b]
    ensures forall i :: 0 <= i < b ==> Similarity(words, f, previous[i]) < Similarity(words, f, previous[b])
  {
    var n := |previous| - 1;
    var init := previous[..n];
    var before := Best(words, f, init);
    if Similarity(words, f, previous[n]) >= MATCH_THRESHOLD
        && (before.None? || Similarity(words, f, previous[n]) > Similarity(words, f, before.value)) {
      b := n;
      assert forall i :: 0 <= i < n ==> init[i] in init;
    } else {
      b := BestIsFirst(words, f, init);
      assert forall i :: 0 <= i <= b ==> init[i] == previous[i];
    }
  }

  lemma BestIsClosest(words: Words, f: Finding, previous: seq<Finding>) returns (b: nat)
    requires Best(words, f, previous).Some?
    ensures Closest(words, f, previous, b) && Best(words, f, previous).value == previous[b]
  {
    b := BestIsFirst(words, f, previous);
    forall i: nat | i < |previous|
        ensures Closeness(words, f, previous, i) <= Closeness(words, f, previous, b)
        ensures i < b ==> Closeness(words, f, previous, i) < Closeness(words, f, previous, b) {
      assert previous[i] in previous && Closeness(words, f, previous, i) == Similarity(words, f, previous[i]);
    }
  }

  function Unless(gone: bool, f: Finding): Option<Finding> { if gone then None else Some(f) }

  function ClampReport(words: Words, f: Finding, prior: Review): Option<Event> {
    var m := Matched(words, f, prior);
    if m.None? then None else Some(Event(ReReviewClamp, f.id, m.value.id, Similarity(words, f, m.value)))
  }

  function SettlementReport(words: Words, f: Finding, clauses: seq<Clause>): Option<Event> {
    var c := Settling(words, f, clauses);
    if c.None? then None
        else Some(Event(ScopeSettlement, f.id, c.value.text, Overlap(FindingWords(words, f), c.value.words)))
  }

  lemma ClampOne(words: Words, f: Finding, prior: Review)
    ensures ClampDoes(words, f, prior, Clamp(words, f, prior), ClampReport(words, f, prior))
  {
    assert forall p: Finding :: Near(words, f, p.title + " " + p.description) == Similarity(words, f, p);
    if Matched(words, f, prior).Some? {
      var b := BestIsClosest(words, f, prior.findings);
      assert ClampedAgainst(words, f, prior.findings, b, Clamp(words, f, prior), ClampReport(words, f, prior));
    }
  }

  lemma SettlementOne(words: Words, f: Finding, clauses: seq<Clause>)
    ensures SettlementDoes(words, f, clauses, Unless(Settling(words, f, clauses).Some?, f),
                           SettlementReport(words, f, clauses))
  {
    if Settling(words, f, clauses).Some? {
      var j := SettlingIsFirst(words, f, clauses);
      assert SettledAgainst(words, f, clauses, j, SettlementReport(words, f, clauses));
    }
  }

  /** What f makes of each element, where it makes something of it. */
  function Picked<T, U>(s: seq<T>, f: T -> Option<U>): seq<U> {
    if s == [] then []
    else Picked(s[..|s| - 1], f) + if f(s[|s| - 1]).Some? then [f(s[|s| - 1]).value] else []
  }

  function Each<T, U>(s: seq<T>, f: T -> U): (r: seq<U>)
    ensures |r| == |s| && forall i :: 0 <= i < |s| ==> r[i] == f(s[i])
  {
    seq(|s|, i requires 0 <= i < |s| => f(s[i]))
  }

  lemma {:induction false} PickedIsPresent<T, U>(s: seq<T>, f: T -> Option<U>)
    ensures Picked(s, f) == Present(Each(s, f))
  {
    if s != [] {
      PickedIsPresent(s[..|s| - 1], f);
      assert Each(s, f)[..|s| - 1] == Each(s[..|s| - 1], f);
    }
  }

  function Clamping(words: Words, prior: Review): Finding -> Option<Finding> {
    (f: Finding) => Clamp(words, f, prior)
  }

  function ClampReporting(words: Words, prior: Review): Finding -> Option<Event> {
    (f: Finding) => ClampReport(words, f, prior)
  }

  function Settlement(words: Words, clauses: seq<Clause>): Finding -> Option<Finding> {
    (f: Finding) => Unless(Settling(words, f, clauses).Some?, f)
  }

  function SettlementReporting(words: Words, clauses: seq<Clause>): Finding -> Option<Event> {
    (f: Finding) => SettlementReport(words, f, clauses)
  }

  lemma {:induction false} ClampIsFindingwise(words: Words, findings: seq<Finding>, prior: Review)
    ensures ClampedAll(words, findings, prior) == Picked(findings, Clamping(words, prior))
    ensures ClampEvents(words, findings, prior) == Picked(findings, ClampReporting(words, prior))
  {
    if findings != [] {
      ClampIsFindingwise(words, findings[..|findings| - 1], prior);
    }
  }

  lemma {:induction false} SettlementIsFindingwise(words: Words, findings: seq<Finding>, clauses: seq<Clause>)
    ensures Unsettled(words, findings, clauses) == Picked(findings, Settlement(words, clauses))
    ensures SettledEvents(words, findings, clauses) == Picked(findings, SettlementReporting(words, clauses))
  {
    if findings != [] {
      SettlementIsFindingwise(words, findings[..|findings| - 1], clauses);
    }
  }

  /** Rule 2 on a whole report: what is kept and what is reported, in order. */
  ghost predicate Clamps(words: Words, findings: seq<Finding>, prior: Review, kept: seq<Finding>, events: seq<Event>) {
    exists fates: seq<Option<Finding>>, reports: seq<Option<Event>> ::
      && |fates| == |reports| == |findings| && kept == Present(fates) && events == Present(reports)
      && forall i :: 0 <= i < |findings| ==> ClampDoes(words, findings[i], prior, fates[i], reports[i])
  }

  ghost predicate Settles(words: Words, findings: seq<Finding>, clauses: seq<Clause>, kept: seq<Finding>,
                          events: seq<Event>) {
    exists fates: seq<Option<Finding>>, reports: seq<Option<Event>> ::
      && |fates| == |reports| == |findings| && kept == Present(fates) && events == Present(reports)
      && forall i :: 0 <= i < |findings| ==> SettlementDoes(words, findings[i], clauses, fates[i], reports[i])
  }

  lemma ClampMeaning(words: Words, findings: seq<Finding>, prior: Review)
    ensures Clamps(words, findings, prior, ClampedAll(words, findings, prior), ClampEvents(words, findings, prior))
  {
    var fates, reports := Each(findings, Clamping(words, prior)), Each(findings, ClampReporting(words, prior));
    ClampIsFindingwise(words, findings, prior);
    PickedIsPresent(findings, Clamping(words, prior));
    PickedIsPresent(findings, ClampReporting(words, prior));
    forall i | 0 <= i < |findings| ensures ClampDoes(words, findings[i], prior, fates[i], reports[i]) {
      ClampOne(words, findings[i], prior);
    }
  }

  lemma SettlementMeaning(words: Words, findings: seq<Finding>, clauses: seq<Clause>)
    ensures Settles(words, findings, clauses, Unsettled(words, findings, clauses),
                    SettledEvents(words, findings, clauses))
  {
    var fates := Each(findings, Settlement(words, clauses));
    var reports := Each(findings, SettlementReporting(words, clauses));
    SettlementIsFindingwise(words, findings, clauses);
    PickedIsPresent(findings, Settlement(words, clauses));
    PickedIsPresent(findings, SettlementReporting(words, clauses));
    forall i | 0 <= i < |findings| ensures SettlementDoes(words, findings[i], clauses, fates[i], reports[i]) {
      SettlementOne(words, findings[i], clauses);
    }
  }

  /** Rule 1, and rule 2 on what it kept, exactly for a re-review with extra context. */
  ghost predicate Fences(words: Words, findings: seq<Finding>, clauses: seq<Clause>, prior: Option<Review>,
                         kept: seq<Finding>, events: seq<Event>) {
    if prior.None? || |prior.value.context| == 0 then Settles(words, findings, clauses, kept, events)
    else
      exists unsettled, first, second ::
        && Settles(words, findings, clauses, unsettled, first) && Clamps(words, unsettled, prior.value, kept, second)
        && events == first + second
  }

  lemma FenceMeaning(words: Words, findings: seq<Finding>, clauses: seq<Clause>, prior: Option<Review>)
    ensures var (kept, events) := Fenced(words, findings, clauses, prior);
      Fences(words, findings, clauses, prior, kept, events)
  {
    SettlementMeaning(words, findings, clauses);
    if prior.Some? {
      ClampMeaning(words, Unsettled(words, findings, clauses), prior.value);
    }
  }

  /** The clamp is a floor as well as a ceiling: a surviving finding comes out
      above the severity it was reported with exactly when it matches a previous
      finding more than one level above it. */
  lemma ClampRaisesIff(words: Words, f: Finding, prior: Review)
    ensures (Clamp(words, f, prior).Some? && Level(Clamp(words, f, prior).value.severity) > Level(f.severity)) <==>
            (Matched(words, f, prior).Some? && Level(Matched(words, f, prior).value.severity) > Level(f.severity) + 1)
  {
  }

  /** A concrete raise: an info finding that repeats a blocker becomes major. */
  lemma ClampCanRaise(words: Words, f: Finding)
    requires f.severity.Info? && FindingWords(words, f) != {}
    ensures var prior := Review([f.(severity := Blocker)], f.title + " " + f.description);
      Clamp(words, f, prior) == Some(f.(severity := Major))
  {
    var own, blocker := FindingWords(words, f), f.(severity := Blocker);
    assert own * own == own;
    assert Overlap(own, own) == 1.0;
    assert FindingWords(words, blocker) == own;
    assert [blocker][..0] == [];
  }
}
