/** The lifecycle's report pins are the report store's claims: what the machine
    does in one rendering step is what one call to the store does. */
module ReportPins {
  import opened Artifacts
  import opened Lifecycle
  import opened LifecycleInvariant
  import ReportStore

  /** The store's request for rendering a format from this final review. */
  function RequestOf(review: Reference, f: Format): ReportStore.Request {
    ReportStore.Request(review.artifactId, review.checksum, f)
  }

  predicate Names(p: Pin, c: ReportStore.Claim, f: Format) {
    p.report.artifactId == c.artifact && p.report.kind == ReportKind(f) && p.review.artifactId == c.finalId
    && p.review.checksum == c.checksum
  }

  /** Each format is pinned exactly when it is claimed, to the same report and review. */
  ghost predicate Shows(b: ReportStore.Bucket, pins: map<Format, Pin>) {
    pins.Keys == b.claims.Keys && forall f :: f in pins ==> Names(pins[f], b.claims[f], f)
  }

  /** No two final reviews share id and checksum. */
  ghost predicate NamedOnce(saved: set<Reference>) {
    forall x, y :: x in saved && y in saved && x.artifactId == y.artifactId && x.checksum == y.checksum ==> x == y
  }

  /** The store's answer as the machine hears it. */
  function Heard(a: ReportStore.Answer, r: Reference): Choice {
    if a.Report? || a.IdempotencyConflict? then Fine(r) else Broken
  }

  lemma ClaimShows(w: ReportStore.World, b: ReportStore.Bucket, pins: map<Format, Pin>, review: Reference, f: Format,
                   artifact: nat, r: Reference, now: nat)
    requires Shows(b, pins) && ReportStore.Good(w, RequestOf(review, f)) && r.artifactId == artifact
    ensures Shows(ReportStore.Step(w, b, RequestOf(review, f), ReportStore.Claiming, artifact, now).0,
            Pinned(pins, f, r, review))
  {
  }

  /** Any step of any overlapping call, seen through the claims, pins its format
      or nothing; so also a call that dies, or whose answer is lost. */
  lemma StepShows(w: ReportStore.World, b: ReportStore.Bucket, pins: map<Format, Pin>, review: Reference, f: Format,
                  pc: ReportStore.Pc, artifact: nat, r: Reference, now: nat)
    requires Shows(b, pins) && (ReportStore.Good(w, RequestOf(review, f)) || pc.Reading?) && ReportStore.Running(pc)
    requires r.artifactId == artifact
    ensures var b' := ReportStore.Step(w, b, RequestOf(review, f), pc, artifact, now).0;
      Shows(b', if pc.Claiming? then Pinned(pins, f, r, review) else pins)
  {
    ReportStore.StepClaims(w, b, RequestOf(review, f), pc, artifact, now);
    if pc.Claiming? {
      ClaimShows(w, b, pins, review, f, artifact, r, now);
    }
  }

  lemma {:induction false} SoloShows(w: ReportStore.World, b: ReportStore.Bucket, pins: map<Format, Pin>,
                                     review: Reference, f: Format,
                                     pc: ReportStore.Pc, artifact: nat, r: Reference, now: nat)
    requires Shows(b, pins) && r.artifactId == artifact
    requires ReportStore.Good(w, RequestOf(review, f)) && !pc.Reading? && !pc.Claiming?
    ensures Shows(ReportStore.Solo(w, b, RequestOf(review, f), pc, artifact, now).0, pins)
    decreases ReportStore.StepsLeft(pc)
  {
    if ReportStore.Running(pc) {
      var q := RequestOf(review, f);
      var (b', pc') := ReportStore.Step(w, b, q, pc, artifact, now);
      StepShows(w, b, pins, review, f, pc, artifact, r, now);
      ReportStore.StepClaims(w, b, q, pc, artifact, now);
      SoloShows(w, b', pins, review, f, pc', artifact, r, now);
    }
  }

  lemma CallShows(w: ReportStore.World, b: ReportStore.Bucket, pins: map<Format, Pin>, review: Reference, f: Format,
                  artifact: nat, r: Reference, now: nat)
    requires Shows(b, pins) && r.artifactId == artifact && ReportStore.Good(w, RequestOf(review, f))
    ensures Shows(ReportStore.Solo(w, b, RequestOf(review, f), ReportStore.Reading, artifact, now).0,
            Pinned(pins, f, r, review))
  {
    var q := RequestOf(review, f);
    var (claimed, pc) := ReportStore.Step(w, b, q, ReportStore.Claiming, artifact, now);
    ReportStore.SoloStep(w, b, q, ReportStore.Reading, artifact, now, b, ReportStore.Claiming);
    ReportStore.SoloStep(w, b, q, ReportStore.Claiming, artifact, now, claimed, pc);
    ReportStore.StepClaims(w, b, q, ReportStore.Claiming, artifact, now);
    ClaimShows(w, b, pins, review, f, artifact, r, now);
    SoloShows(w, claimed, Pinned(pins, f, r, review), review, f, pc, artifact, r, now);
  }

  /** A pin to this review is a claim for this review. */
  lemma SamePinSameClaim(w: ReportStore.World, b: ReportStore.Bucket, s: Stores, review: Reference, f: Format)
    requires Shows(b, s.pins) && StoresOk(s) && NamedOnce(s.saved) && review in s.saved
    requires ReportStore.Good(w, RequestOf(review, f))
    ensures ReportStore.Renderable(w, b, RequestOf(review, f)) <==> (f in s.pins ==> s.pins[f].review == review)
  {
  }

  /** An undisturbed call to the report store is one rendering step of the
      machine: pinned claims stay what they show, a report is heard exactly when
      the step goes on, under the id the store answered, and a refusal or a bad
      reference is a rollback with nothing changed. */
  lemma CallIsRenderStep(w: ReportStore.World, b: ReportStore.Bucket, s: Stores, formats: seq<Format>, job: Job,
                         review: Reference,
                         done: seq<Reference>, artifact: nat, now: nat, r: Reference)
    requires ReportStore.BucketOk(w, b) && ReportStore.Unclaimed(b, artifact)
    requires Shows(b, s.pins) && StoresOk(s) && NamedOnce(s.saved) && review in s.saved && |done| < |formats|
    requires r.artifactId == artifact
    ensures var (b', pc) :=
            ReportStore.Solo(w, b, RequestOf(review, formats[|done|]), ReportStore.Reading, artifact, now);
      && pc.Returned?
      && var (s', next) := OnRender(s, formats, job, review, done, Heard(pc.answer, r));
         && Shows(b', s'.pins) && s' == s.(pins := s'.pins)
         && (if pc.answer.Report? then
               && formats[|done|] in s'.pins && next == Render(job, review, done + [s'.pins[formats[|done|]].report])
               && s'.pins[formats[|done|]].report.artifactId == pc.answer.meta.artifact
             else next == Rollback && s' == s && b' == b)
  {
    var f := formats[|done|];
    var q := RequestOf(review, f);
    ReportStore.RetryConverges(w, b, q, artifact, now);
    if ReportStore.Good(w, q) {
      SamePinSameClaim(w, b, s, review, f);
      CallShows(w, b, s.pins, review, f, artifact, r, now);
      AnswerIsClaimed(w, b, q, artifact, now);
    }
  }

  lemma AnswerIsClaimed(w: ReportStore.World, b: ReportStore.Bucket, q: ReportStore.Request, artifact: nat, now: nat)
    requires ReportStore.BucketOk(w, b) && ReportStore.Unclaimed(b, artifact)
    ensures var (b', pc) := ReportStore.Solo(w, b, q, ReportStore.Reading, artifact, now);
      pc.Returned? && pc.answer.Report? ==>
          q.format in b'.claims && b'.claims[q.format].artifact == pc.answer.meta.artifact
  {
    SoloOk(w, b, q, ReportStore.Reading, artifact, now);
  }

  lemma {:induction false} SoloOk(w: ReportStore.World, b: ReportStore.Bucket, q: ReportStore.Request,
                                  pc: ReportStore.Pc, artifact: nat, now: nat)
    requires ReportStore.BucketOk(w, b) && ReportStore.CallOk(w, b, q, pc)
    requires pc.Reading? || pc.Claiming? ==> ReportStore.Unclaimed(b, artifact)
    requires ReportStore.Good(w, q) || pc.Reading? || !ReportStore.Running(pc)
    ensures var (b', pc') := ReportStore.Solo(w, b, q, pc, artifact, now);
      ReportStore.BucketOk(w, b') && ReportStore.CallOk(w, b', q, pc')
    decreases ReportStore.StepsLeft(pc)
  {
    if ReportStore.Running(pc) {
      var (b', pc') := ReportStore.Step(w, b, q, pc, artifact, now);
      ReportStore.StepOk(w, b, q, pc, artifact, now);
      SoloOk(w, b', q, pc', artifact, now);
    }
  }

  /** So the reports of a completed session are the store's: what is stored under
      their ids is the rendering of the session's final review, at version 1. */
  lemma CompletedReportsAreStored(w: ReportStore.World, b: ReportStore.Bucket, r: Rows, s: Stores, i: nat)
    requires ReportStore.BucketOk(w, b) && Shows(b, s.pins) && ClosedOk(r, s) && r.session.state.Completed?
    requires i < |r.session.reports|
    ensures |r.session.reports| == |r.session.formats|
    ensures var q := RequestOf(r.session.finalReview.value, r.session.formats[i]);
      var meta := ReportStore.MetaOf(b.metas, r.session.reports[i].artifactId);
      && ReportStore.Good(w, q)
      && (meta.Some? ==>
          meta.value.format == q.format && meta.value.version == 1
          && meta.value.checksum == w.sha(ReportStore.Rendered(w, q)))
  {
    var f := r.session.formats[i];
    assert s.pins[f] == Pin(r.session.reports[i], r.session.finalReview.value);
    assert Names(s.pins[f], b.claims[f], f);
    assert ReportStore.Pinned(f, b.claims[f]) == RequestOf(r.session.finalReview.value, f);
    var meta := ReportStore.MetaOf(b.metas, r.session.reports[i].artifactId);
    if meta.Some? {
      assert ReportStore.MetaFits(w, b, meta.value);
    }
  }
}
