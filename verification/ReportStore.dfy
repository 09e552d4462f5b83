/** The report store (report_mcp/storage.py): a claim, then the rendered bytes,
    then the metadata, each created only if absent. Calls may overlap and any
    of them may die between two steps. */
module ReportStore {
  import opened Common
  import opened Artifacts

  type Bytes = seq<nat>
  type Content = nat

  datatype Final = Final(kind: Kind, checksum: nat, content: Content)

  /** What is fixed for one story run: its artifact records and the pure
      rendering and hashing functions. */
  datatype World = World(finals: map<nat, Final>, render: (Content, Format) -> Bytes, sha: Bytes -> nat)

  datatype Request = Request(finalId: nat, checksum: nat, format: Format)
  datatype Claim = Claim(artifact: nat, finalId: nat, checksum: nat)
  datatype Meta = Meta(artifact: nat, format: Format, version: nat, checksum: nat, createdAt: nat)

  /** The run's report objects; metadata in the order it was written. */
  datatype Bucket = Bucket(claims: map<Format, Claim>, bytes: map<(nat, Format), Bytes>, metas: seq<Meta>)

  datatype Answer =
    | Report(meta: Meta, created: bool)
    | FinalizedReviewNotFound
    | ChecksumMismatch
    | IdempotencyConflict
    | PreconditionFailed

  datatype Pc =
    | Reading
    | Claiming
    | Looking(artifact: nat)
    | Scanning(artifact: nat)
    | WritingBytes(meta: Meta)
    | WritingMeta(meta: Meta)
    | Returned(answer: Answer)
    | Died

  predicate Running(pc: Pc) { !pc.Returned? && !pc.Died? }

  // -- the steps of one call -----------------------------------------------------------

  function Check(w: World, q: Request): Pc {
    if q.finalId !in w.finals || !w.finals[q.finalId].kind.FinalizedReview? then Returned(FinalizedReviewNotFound)
    else if w.finals[q.finalId].checksum != q.checksum then Returned(ChecksumMismatch)
    else Claiming
  }

  predicate Good(w: World, q: Request) { Check(w, q).Claiming? }

  function Rendered(w: World, q: Request): Bytes
    requires Good(w, q)
  {
    w.render(w.finals[q.finalId].content, q.format)
  }

  function MetaOf(metas: seq<Meta>, artifact: nat): (r: Option<Meta>)
    ensures r.Some? ==> r.value in metas && r.value.artifact == artifact
    ensures r.None? ==> forall m :: m in metas ==> m.artifact != artifact
  {
    if metas == [] then None
    else if metas[0].artifact == artifact then Some(metas[0])
    else MetaOf(metas[1..], artifact)
  }

  /** `max(versions, default=0)` over the metadata of one format. */
  function HighestVersion(metas: seq<Meta>, format: Format): (v: nat)
    ensures forall m :: m in metas && m.format == format ==> m.version <= v
    ensures v == 0 || exists m :: m in metas && m.format == format && m.version == v
  {
    if metas == [] then 0
    else
      var rest := HighestVersion(metas[1..], format);
      if metas[0].format == format && metas[0].version > rest then metas[0].version else rest
  }

  /** `artifact` is the id this call draws, `now` its clock. */
  function Step(w: World, b: Bucket, q: Request, pc: Pc, artifact: nat, now: nat): (Bucket, Pc)
    requires Good(w, q) || pc.Reading?
    requires Running(pc)
  {
    match pc
    case Reading => (b, Check(w, q))
    case Claiming =>
      if q.format !in b.claims then
        (b.(claims := b.claims[q.format := Claim(artifact, q.finalId, q.checksum)]), Scanning(artifact))
      else if b.claims[q.format] == Claim(b.claims[q.format].artifact, q.finalId, q.checksum) then
        (b, Looking(b.claims[q.format].artifact))
      else (b, Returned(IdempotencyConflict))
    case Looking(winner) =>
      var found := MetaOf(b.metas, winner);
      (b, if found.Some? then Returned(Report(found.value, false)) else Scanning(winner))
    case Scanning(id) =>
      (b, WritingBytes(Meta(id, q.format, HighestVersion(b.metas, q.format) + 1, w.sha(Rendered(w, q)), now)))
    case WritingBytes(m) =>
      var name := (m.artifact, q.format);
      if name !in b.bytes then (b.(bytes := b.bytes[name := Rendered(w, q)]), WritingMeta(m))
      else if w.sha(b.bytes[name]) == m.checksum then (b, WritingMeta(m))
      else (b, Returned(PreconditionFailed))
    case WritingMeta(m) =>
      if MetaOf(b.metas, m.artifact).None? then (b.(metas := b.metas + [m]), Returned(Report(m, true)))
      else (b, Returned(Report(m, true)))
  }

  // -- overlapping calls ------------------------------------------------------------------

  datatype Call = Call(request: Request, pc: Pc)

  /** Every call draws its own artifact id: the call's number. */
  datatype System = System(bucket: Bucket, calls: map<nat, Call>)

  datatype Event = Start(id: nat, request: Request) | Go(id: nat, now: nat) | Die(id: nat)

  predicate Enabled(w: World, s: System, e: Event) {
    match e
    case Start(id, _) => id !in s.calls
    case Go(id, _) => id in s.calls && Running(s.calls[id].pc)
        && (s.calls[id].pc.Reading? || Good(w, s.calls[id].request))
    case Die(id) => id in s.calls && Running(s.calls[id].pc)
  }

  function Next(w: World, s: System, e: Event): System
    requires Enabled(w, s, e)
  {
    match e
    case Start(id, q) => s.(calls := s.calls[id := Call(q, Reading)])
    case Go(id, now) =>
      var (b, pc) := Step(w, s.bucket, s.calls[id].request, s.calls[id].pc, id, now);
      System(b, s.calls[id := s.calls[id].(pc := pc)])
    case Die(id) => s.(calls := s.calls[id := s.calls[id].(pc := Died)])
  }

  // -- the invariant ------------------------------------------------------------------------

  /** The request a claim stands for. */
  function Pinned(f: Format, c: Claim): Request { Request(c.finalId, c.checksum, f) }

  /** Everything stored for a format belongs to its claim: one id, the rendered
      bytes, and at most one metadata object, at version 1, of those bytes. */
  ghost predicate BucketOk(w: World, b: Bucket) {
    && (forall f :: f in b.claims ==> Good(w, Pinned(f, b.claims[f])))
    && (forall f, g :: f in b.claims && g in b.claims && b.claims[f].artifact == b.claims[g].artifact ==> f == g)
    && (forall n :: n in b.bytes ==>
        n.1 in b.claims && n.0 == b.claims[n.1].artifact && b.bytes[n] == Rendered(w, Pinned(n.1, b.claims[n.1])))
    && (forall i :: 0 <= i < |b.metas| ==> MetaFits(w, b, b.metas[i]))
    && (forall i, j :: 0 <= i < j < |b.metas| ==> b.metas[i].artifact != b.metas[j].artifact)
  }

  predicate MetaFits(w: World, b: Bucket, m: Meta) {
    && m.format in b.claims && m.artifact == b.claims[m.format].artifact && m.version == 1
    && (m.artifact, m.format) in b.bytes && m.checksum == w.sha(b.bytes[(m.artifact, m.format)])
  }

  /** This call's claim is the stored one. */
  predicate Owns(b: Bucket, q: Request, artifact: nat) {
    q.format in b.claims && b.claims[q.format] == Claim(artifact, q.finalId, q.checksum)
  }

  /** A metadata object in the making. */
  ghost predicate Drafted(w: World, b: Bucket, q: Request, m: Meta)
    requires Good(w, q)
  {
    && Owns(b, q, m.artifact) && m.format == q.format && m.checksum == w.sha(Rendered(w, q))
    && (m.version == 1 || MetaOf(b.metas, m.artifact).Some?)
  }

  ghost predicate CallOk(w: World, b: Bucket, q: Request, pc: Pc) {
    match pc
    case Reading => true
    case Claiming => Good(w, q)
    case Looking(id) => Good(w, q) && Owns(b, q, id)
    case Scanning(id) => Good(w, q) && Owns(b, q, id)
    case WritingBytes(m) => Good(w, q) && Drafted(w, b, q, m)
    case WritingMeta(m) => Good(w, q) && Drafted(w, b, q, m) && (m.artifact, q.format) in b.bytes
    case Returned(Report(m, created)) =>
      && Good(w, q) && Owns(b, q, m.artifact) && m.format == q.format && m.checksum == w.sha(Rendered(w, q))
      && MetaOf(b.metas, m.artifact).Some? && (!created ==> m in b.metas)
    case Returned(a) => !a.PreconditionFailed?
    case Died => true
  }

  /** A claimed id is the number of a call for that format, past its claim. */
  predicate Claimed(calls: map<nat, Call>, f: Format, id: nat) {
    id in calls && calls[id].request.format == f && !calls[id].pc.Reading? && !calls[id].pc.Claiming?
  }

  ghost predicate Inv(w: World, s: System) {
    && BucketOk(w, s.bucket)
    && (forall f :: f in s.bucket.claims ==> Claimed(s.calls, f, s.bucket.claims[f].artifact))
    && (forall id :: id in s.calls ==> CallOk(w, s.bucket, s.calls[id].request, s.calls[id].pc))
  }

  /** Objects are created once and never rewritten. */
  ghost predicate Grows(a: Bucket, b: Bucket) {
    && (forall f :: f in a.claims ==> f in b.claims && b.claims[f] == a.claims[f])
    && (forall n :: n in a.bytes ==> n in b.bytes && b.bytes[n] == a.bytes[n])
    && a.metas <= b.metas
  }

  lemma {:induction false} MetaOfPrefix(a: seq<Meta>, b: seq<Meta>, artifact: nat)
    requires a <= b && MetaOf(a, artifact).Some?
    ensures MetaOf(b, artifact) == MetaOf(a, artifact)
  {
    if a[0].artifact != artifact {
      assert a[1..] <= b[1..];
      MetaOfPrefix(a[1..], b[1..], artifact);
    }
  }

  lemma CallKept(w: World, a: Bucket, b: Bucket, q: Request, pc: Pc)
    requires Grows(a, b) && CallOk(w, a, q, pc)
    ensures CallOk(w, b, q, pc)
  {
    forall id | MetaOf(a.metas, id).Some? ensures MetaOf(b.metas, id).Some? {
      MetaOfPrefix(a.metas, b.metas, id);
    }
  }

  /** The claim names an id nobody else has claimed. */
  predicate Unclaimed(b: Bucket, artifact: nat) {
    forall f :: f in b.claims ==> b.claims[f].artifact != artifact
  }

  lemma NewClaimOk(w: World, b: Bucket, q: Request, artifact: nat)
    requires BucketOk(w, b) && Good(w, q) && Unclaimed(b, artifact) && q.format !in b.claims
    ensures var b' := b.(claims := b.claims[q.format := Claim(artifact, q.finalId, q.checksum)]);
      BucketOk(w, b') && Grows(b, b')
  {
    var b' := b.(claims := b.claims[q.format := Claim(artifact, q.finalId, q.checksum)]);
    forall i | 0 <= i < |b'.metas| ensures MetaFits(w, b', b'.metas[i]) {
      assert MetaFits(w, b, b.metas[i]);
    }
  }

  lemma ClaimStep(w: World, b: Bucket, q: Request, artifact: nat, now: nat)
    requires BucketOk(w, b) && Good(w, q) && Unclaimed(b, artifact)
    ensures var (b', pc') := Step(w, b, q, Claiming, artifact, now);
      BucketOk(w, b') && Grows(b, b') && CallOk(w, b', q, pc')
  {
    if q.format !in b.claims {
      NewClaimOk(w, b, q, artifact);
    }
  }

  lemma ScanStep(w: World, b: Bucket, q: Request, pc: Pc, artifact: nat, now: nat)
    requires BucketOk(w, b) && pc.Scanning? && CallOk(w, b, q, pc)
    ensures var (b', pc') := Step(w, b, q, pc, artifact, now); b' == b && CallOk(w, b, q, pc')
  {
    var v := HighestVersion(b.metas, q.format);
    if v > 0 {
      var m :| m in b.metas && m.format == q.format && m.version == v;
      assert MetaFits(w, b, m);
    }
  }

  lemma BytesStep(w: World, b: Bucket, q: Request, pc: Pc, artifact: nat, now: nat)
    requires BucketOk(w, b) && pc.WritingBytes? && CallOk(w, b, q, pc)
    ensures var (b', pc') := Step(w, b, q, pc, artifact, now); BucketOk(w, b') && Grows(b, b') && CallOk(w, b', q, pc')
  {
    var (b', _) := Step(w, b, q, pc, artifact, now);
    forall i | 0 <= i < |b'.metas| ensures MetaFits(w, b', b'.metas[i]) {
      assert MetaFits(w, b, b.metas[i]);
    }
  }

  lemma MetaStep(w: World, b: Bucket, q: Request, pc: Pc, artifact: nat, now: nat)
    requires BucketOk(w, b) && pc.WritingMeta? && CallOk(w, b, q, pc)
    ensures var (b', pc') := Step(w, b, q, pc, artifact, now); BucketOk(w, b') && Grows(b, b') && CallOk(w, b', q, pc')
  {
    var m := pc.meta;
    if MetaOf(b.metas, m.artifact).None? {
      var b' := b.(metas := b.metas + [m]);
      assert m in b'.metas;
      forall i | 0 <= i < |b'.metas| ensures MetaFits(w, b', b'.metas[i]) {
        if i < |b.metas| {
          assert MetaFits(w, b, b.metas[i]) && b.metas[i] in b.metas;
        }
      }
    }
  }

  lemma StepOk(w: World, b: Bucket, q: Request, pc: Pc, artifact: nat, now: nat)
    requires BucketOk(w, b) && CallOk(w, b, q, pc) && Running(pc) && (pc.Claiming? ==> Unclaimed(b, artifact))
    ensures var (b', pc') := Step(w, b, q, pc, artifact, now); BucketOk(w, b') && Grows(b, b') && CallOk(w, b', q, pc')
  {
    match pc {
      case Reading =>
      case Claiming => ClaimStep(w, b, q, artifact, now);
      case Looking(_) =>
      case Scanning(_) => ScanStep(w, b, q, pc, artifact, now);
      case WritingBytes(_) => BytesStep(w, b, q, pc, artifact, now);
      case WritingMeta(_) => MetaStep(w, b, q, pc, artifact, now);
    }
  }

  lemma StepClaims(w: World, b: Bucket, q: Request, pc: Pc, artifact: nat, now: nat)
    requires (Good(w, q) || pc.Reading?) && Running(pc)
    ensures var (b', pc') := Step(w, b, q, pc, artifact, now);
      && !pc'.Reading? && (pc'.Claiming? ==> pc.Reading?)
      && (b'.claims == b.claims
          || (pc.Claiming? && b'.claims == b.claims[q.format := Claim(artifact, q.finalId, q.checksum)]))
  {
  }

  lemma ClaimedKept(w: World, s: System, e: Event)
    requires Inv(w, s) && Enabled(w, s, e)
    ensures var t := Next(w, s, e);
      forall f :: f in t.bucket.claims ==> Claimed(t.calls, f, t.bucket.claims[f].artifact)
  {
    if e.Go? {
      assert CallOk(w, s.bucket, s.calls[e.id].request, s.calls[e.id].pc);
      StepClaims(w, s.bucket, s.calls[e.id].request, s.calls[e.id].pc, e.id, e.now);
    }
    var t := Next(w, s, e);
    forall f | f in t.bucket.claims ensures Claimed(t.calls, f, t.bucket.claims[f].artifact) {
      if f in s.bucket.claims && t.bucket.claims[f] == s.bucket.claims[f] {
        assert Claimed(s.calls, f, s.bucket.claims[f].artifact);
      }
    }
  }

  lemma NextOk(w: World, s: System, e: Event)
    requires Inv(w, s) && Enabled(w, s, e)
    ensures Inv(w, Next(w, s, e)) && Grows(s.bucket, Next(w, s, e).bucket)
  {
    var t := Next(w, s, e);
    assert BucketOk(w, t.bucket) && Grows(s.bucket, t.bucket)
        && (e.Go? ==> CallOk(w, t.bucket, t.calls[e.id].request, t.calls[e.id].pc)) by {
      if e.Go? {
        assert CallOk(w, s.bucket, s.calls[e.id].request, s.calls[e.id].pc);
        StepOk(w, s.bucket, s.calls[e.id].request, s.calls[e.id].pc, e.id, e.now);
      }
    }
    ClaimedKept(w, s, e);
    forall id | id in t.calls ensures CallOk(w, t.bucket, t.calls[id].request, t.calls[id].pc) {
      if id in s.calls && id != e.id {
        CallKept(w, s.bucket, t.bucket, s.calls[id].request, s.calls[id].pc);
      }
    }
  }

  /** A running call can always go on: it passed its check. */
  lemma NeverStuck(w: World, s: System, id: nat, now: nat)
    requires Inv(w, s) && id in s.calls && Running(s.calls[id].pc)
    ensures Enabled(w, s, Go(id, now))
  {
    assert CallOk(w, s.bucket, s.calls[id].request, s.calls[id].pc);
  }

  ghost predicate Possible(w: World, s: System, es: seq<Event>)
    decreases |es|
  {
    es == [] || (Enabled(w, s, es[0]) && Possible(w, Next(w, s, es[0]), es[1..]))
  }

  function Run(w: World, s: System, es: seq<Event>): System
    requires Possible(w, s, es)
    decreases |es|
  {
    if es == [] then s else Run(w, Next(w, s, es[0]), es[1..])
  }

  const EMPTY := System(Bucket(map[], map[], []), map[])

  lemma {:induction false} RunOk(w: World, s: System, es: seq<Event>)
    requires Inv(w, s) && Possible(w, s, es)
    ensures Inv(w, Run(w, s, es)) && Grows(s.bucket, Run(w, s, es).bucket)
    decreases |es|
  {
    if es != [] {
      NextOk(w, s, es[0]);
      RunOk(w, Next(w, s, es[0]), es[1..]);
    }
  }

  // -- what the store promises -----------------------------------------------------------------

  /** However calls overlap and die, a format has one artifact id, at most one
      content object and at most one metadata object, at version 1, whose
      checksum is that of the stored bytes. */
  lemma OneReportPerFormat(w: World, es: seq<Event>)
    requires Possible(w, EMPTY, es)
    ensures var b := Run(w, EMPTY, es).bucket;
      && (forall n, m :: n in b.bytes && m in b.bytes && n.1 == m.1 ==> n == m)
      && (forall i, j :: 0 <= i < |b.metas| && 0 <= j < |b.metas| && b.metas[i].format == b.metas[j].format ==> i == j)
      && (forall i :: 0 <= i < |b.metas| ==>
            && b.metas[i].version == 1 && (b.metas[i].artifact, b.metas[i].format) in b.bytes
            && b.metas[i].checksum == w.sha(b.bytes[(b.metas[i].artifact, b.metas[i].format)]))
      && (forall n :: n in b.bytes ==>
            && n.1 in b.claims && b.claims[n.1].finalId in w.finals
            && b.bytes[n] == w.render(w.finals[b.claims[n.1].finalId].content, n.1))
  {
    RunOk(w, EMPTY, es);
    var b := Run(w, EMPTY, es).bucket;
    forall i | 0 <= i < |b.metas| ensures MetaFits(w, b, b.metas[i]) {
    }
  }

  /** All answered calls for one format name one artifact, rendered from one
      final review, and that artifact's metadata is stored. */
  lemma AnswersAgree(w: World, es: seq<Event>, i: nat, j: nat)
    requires Possible(w, EMPTY, es)
    requires var s := Run(w, EMPTY, es);
      && i in s.calls && j in s.calls && s.calls[i].request.format == s.calls[j].request.format
      && s.calls[i].pc.Returned? && s.calls[i].pc.answer.Report? && s.calls[j].pc.Returned?
          && s.calls[j].pc.answer.Report?
    ensures var s := Run(w, EMPTY, es);
      && s.calls[i].request == s.calls[j].request
      && s.calls[i].pc.answer.meta.artifact == s.calls[j].pc.answer.meta.artifact
      && s.calls[i].pc.answer.meta.checksum == s.calls[j].pc.answer.meta.checksum
      && MetaOf(s.bucket.metas, s.calls[i].pc.answer.meta.artifact).Some?
      && (!s.calls[i].pc.answer.created && !s.calls[j].pc.answer.created ==>
          s.calls[i].pc.answer == s.calls[j].pc.answer)
  {
    RunOk(w, EMPTY, es);
    var s := Run(w, EMPTY, es);
    assert CallOk(w, s.bucket, s.calls[i].request, s.calls[i].pc)
        && CallOk(w, s.bucket, s.calls[j].request, s.calls[j].pc);
  }

  /** Once a format is claimed for one final review, no call for another one is
      ever answered with a report, in any later state. */
  lemma OtherReviewNeverRendered(w: World, es: seq<Event>, fs: seq<Event>, f: Format, id: nat)
    requires Possible(w, EMPTY, es) && Possible(w, Run(w, EMPTY, es), fs)
    requires f in Run(w, EMPTY, es).bucket.claims
    requires var t := Run(w, Run(w, EMPTY, es), fs);
      && id in t.calls && t.calls[id].request.format == f && t.calls[id].pc.Returned? && t.calls[id].pc.answer.Report?
    ensures Run(w, Run(w, EMPTY, es), fs).calls[id].request == Pinned(f, Run(w, EMPTY, es).bucket.claims[f])
  {
    var s := Run(w, EMPTY, es);
    RunOk(w, EMPTY, es);
    RunOk(w, s, fs);
    var t := Run(w, s, fs);
    assert CallOk(w, t.bucket, t.calls[id].request, t.calls[id].pc);
  }

  // -- an undisturbed call -----------------------------------------------------------------------

  function StepsLeft(pc: Pc): nat {
    match pc
    case Reading => 6
    case Claiming => 5
    case Looking(_) => 4
    case Scanning(_) => 3
    case WritingBytes(_) => 2
    case WritingMeta(_) => 1
    case _ => 0
  }

  function Solo(w: World, b: Bucket, q: Request, pc: Pc, artifact: nat, now: nat): (Bucket, Pc)
    requires Good(w, q) || pc.Reading? || !Running(pc)
    decreases StepsLeft(pc)
  {
    if !Running(pc) then (b, pc)
    else
      var (b', pc') := Step(w, b, q, pc, artifact, now);
      Solo(w, b', q, pc', artifact, now)
  }

  lemma SoloStep(w: World, b: Bucket, q: Request, pc: Pc, artifact: nat, now: nat, b': Bucket, pc': Pc)
    requires Running(pc) && (Good(w, q) || pc.Reading?) && Step(w, b, q, pc, artifact, now) == (b', pc')
    ensures Good(w, q) || !Running(pc')
    ensures Solo(w, b, q, pc, artifact, now) == Solo(w, b', q, pc', artifact, now)
    ensures !Running(pc') ==> Solo(w, b, q, pc, artifact, now) == (b', pc')
  {
  }

  /** The reference this request may render: nothing claimed, or this one. */
  predicate Renderable(w: World, b: Bucket, q: Request) {
    Good(w, q) && (q.format in b.claims ==> Pinned(q.format, b.claims[q.format]) == q)
  }

  lemma SoloWrites(w: World, b: Bucket, q: Request, id: nat, artifact: nat, now: nat)
    requires BucketOk(w, b) && Good(w, q) && Owns(b, q, id) && MetaOf(b.metas, id).None?
    ensures var (b', pc') := Solo(w, b, q, Scanning(id), artifact, now);
      && pc'.Returned? && pc'.answer.Report? && pc'.answer.created && MetaOf(b'.metas, id) == Some(pc'.answer.meta)
      && pc'.answer.meta.version == 1 && pc'.answer.meta.artifact == id && pc'.answer.meta.createdAt == now
  {
    forall m | m in b.metas ensures MetaFits(w, b, m) {
    }
    assert HighestVersion(b.metas, q.format) == 0;
    var m := Meta(id, q.format, 1, w.sha(Rendered(w, q)), now);
    MetaOfAppended(b.metas, m);
    SoloStep(w, b, q, Scanning(id), artifact, now, b, WritingBytes(m));
    var (b2, pc2) := Step(w, b, q, WritingBytes(m), artifact, now);
    assert pc2 == WritingMeta(m) && b2.metas == b.metas;
    SoloStep(w, b, q, WritingBytes(m), artifact, now, b2, pc2);
    SoloStep(w, b2, q, pc2, artifact, now, b2.(metas := b.metas + [m]), Returned(Report(m, true)));
  }

  lemma {:induction false} MetaOfAppended(metas: seq<Meta>, m: Meta)
    requires MetaOf(metas, m.artifact).None?
    ensures MetaOf(metas + [m], m.artifact) == Some(m)
  {
    if metas != [] {
      assert (metas + [m])[1..] == metas[1..] + [m];
      MetaOfAppended(metas[1..], m);
    }
  }

  /** The request names a final review of the run, by its checksum. */
  predicate NamesFinal(w: World, q: Request) {
    && q.finalId in w.finals && w.finals[q.finalId].kind == FinalizedReview
    && w.finals[q.finalId].checksum == q.checksum
  }

  /** The format is claimed for another review. */
  predicate Taken(b: Bucket, q: Request) {
    q.format in b.claims && (b.claims[q.format].finalId != q.finalId || b.claims[q.format].checksum != q.checksum)
  }

  /** The metadata describes this rendering of this review. */
  predicate Describes(w: World, q: Request, m: Meta)
    requires q.finalId in w.finals
  {
    && m.format == q.format && m.version == 1
    && m.checksum == w.sha(w.render(w.finals[q.finalId].content, q.format))
  }

  lemma RenderableIff(w: World, b: Bucket, q: Request)
    ensures Renderable(w, b, q) <==> NamesFinal(w, q) && !Taken(b, q)
    ensures Good(w, q) <==> NamesFinal(w, q)
  {
  }

  /** What an undisturbed call answers: refused for what it names, refused for a
      format that another review has, or the stored report of its own. */
  lemma CallMeaning(w: World, b: Bucket, q: Request, artifact: nat, now: nat)
    requires BucketOk(w, b) && Unclaimed(b, artifact)
    ensures var (b', pc) := Solo(w, b, q, Reading, artifact, now);
      && pc.Returned?
      && (pc.answer.ChecksumMismatch? <==>
            q.finalId in w.finals && w.finals[q.finalId].kind == FinalizedReview
            && w.finals[q.finalId].checksum != q.checksum)
      && (pc.answer.IdempotencyConflict? <==> NamesFinal(w, q) && Taken(b, q))
      && (pc.answer.Report? <==> NamesFinal(w, q) && !Taken(b, q))
      && (pc.answer.Report? ==> Describes(w, q, pc.answer.meta) && pc.answer.meta in b'.metas)
      && !pc.answer.PreconditionFailed?
  {
    RetryConverges(w, b, q, artifact, now);
    RenderableIff(w, b, q);
    CallChecks(w, b, q, artifact, now);
    SoloOk(w, b, q, Reading, artifact, now);
  }

  lemma CallChecks(w: World, b: Bucket, q: Request, artifact: nat, now: nat)
    ensures !Good(w, q) ==> Solo(w, b, q, Reading, artifact, now) == (b, Check(w, q))
    ensures Check(w, q) == Returned(ChecksumMismatch) <==>
            q.finalId in w.finals && w.finals[q.finalId].kind == FinalizedReview
            && w.finals[q.finalId].checksum != q.checksum
    ensures Check(w, q) == Returned(FinalizedReviewNotFound) <==>
            q.finalId !in w.finals || w.finals[q.finalId].kind != FinalizedReview
    ensures Good(w, q) || Check(w, q) == Returned(ChecksumMismatch) || Check(w, q) == Returned(FinalizedReviewNotFound)
  {
  }

  lemma {:induction false} SoloOk(w: World, b: Bucket, q: Request, pc: Pc, artifact: nat, now: nat)
    requires BucketOk(w, b) && CallOk(w, b, q, pc) && (pc.Reading? || pc.Claiming? ==> Unclaimed(b, artifact))
    ensures var (b', pc') := Solo(w, b, q, pc, artifact, now); BucketOk(w, b') && CallOk(w, b', q, pc')
    decreases StepsLeft(pc)
  {
    if Running(pc) {
      var (b1, pc1) := Step(w, b, q, pc, artifact, now);
      StepOk(w, b, q, pc, artifact, now);
      SoloOk(w, b1, q, pc1, artifact, now);
    }
  }

  /** From whatever a crash left behind, an undisturbed call is answered with
      the stored report exactly when its reference is good and the format is
      not pinned to another review; and then the answer is the metadata stored. */
  lemma RetryConverges(w: World, b: Bucket, q: Request, artifact: nat, now: nat)
    requires BucketOk(w, b) && Unclaimed(b, artifact)
    ensures var (b', pc') := Solo(w, b, q, Reading, artifact, now);
      && pc'.Returned?
      && (pc'.answer.Report? <==> Renderable(w, b, q))
      && (pc'.answer.IdempotencyConflict? <==> Good(w, q) && !Renderable(w, b, q))
      && (pc'.answer.Report? ==>
          MetaOf(b'.metas, pc'.answer.meta.artifact) == Some(pc'.answer.meta) && pc'.answer.meta.version == 1
          && pc'.answer.meta.artifact == (if q.format in b.claims then b.claims[q.format].artifact else artifact)
          && (pc'.answer.created <==> MetaOf(b.metas, pc'.answer.meta.artifact).None?)
          && (pc'.answer.created ==> pc'.answer.meta.createdAt == now))
      && (!pc'.answer.Report? ==> b' == b)
  {
    forall m | m in b.metas ensures MetaFits(w, b, m) {
    }
    if Good(w, q) {
      var (b1, pc1) := Step(w, b, q, Claiming, artifact, now);
      ClaimStep(w, b, q, artifact, now);
      SoloStep(w, b, q, Reading, artifact, now, b, Claiming);
      SoloStep(w, b, q, Claiming, artifact, now, b1, pc1);
      if pc1.Looking? {
        var (b2, pc2) := Step(w, b1, q, pc1, artifact, now);
        SoloStep(w, b1, q, pc1, artifact, now, b2, pc2);
        if MetaOf(b.metas, pc1.artifact).None? {
          SoloWrites(w, b, q, pc1.artifact, artifact, now);
        }
      } else if pc1.Scanning? {
        SoloWrites(w, b1, q, artifact, artifact, now);
      }
    }
  }

  /** Repeating an answered request changes nothing and returns the same report. */
  lemma RepeatReturnsSame(w: World, b: Bucket, q: Request, m: Meta, artifact: nat, now: nat)
    requires Good(w, q) && Owns(b, q, m.artifact) && MetaOf(b.metas, m.artifact) == Some(m)
    ensures Solo(w, b, q, Reading, artifact, now) == (b, Returned(Report(m, false)))
  {
    var (b1, pc1) := Step(w, b, q, Claiming, artifact, now);
    var (b2, pc2) := Step(w, b1, q, pc1, artifact, now);
    SoloStep(w, b, q, Reading, artifact, now, b, Claiming);
    SoloStep(w, b, q, Claiming, artifact, now, b1, pc1);
    SoloStep(w, b1, q, pc1, artifact, now, b2, pc2);
  }

  /** Overlapping calls can disagree on the version: a claimer overtaken by a
      full second call scans too late and answers version 2, which is stored
      nowhere. */
  lemma OvertakenClaimerAnswersUnstoredVersion(w: World, q: Request, now: nat)
    requires Good(w, q)
    ensures var (claimed, scanning) := Step(w, EMPTY.bucket, q, Claiming, 1, now);
      var (full, _) := Solo(w, claimed, q, Reading, 2, now);
      var (end, answer) := Solo(w, full, q, scanning, 1, now);
      && answer.Returned? && answer.answer.Report? && answer.answer.meta.version == 2
      && MetaOf(end.metas, 1).Some? && MetaOf(end.metas, 1).value.version == 1
  {
    var m := Meta(1, q.format, 1, w.sha(Rendered(w, q)), now);
    var (claimed, scanning) := Step(w, EMPTY.bucket, q, Claiming, 1, now);
    var (full, _) := Solo(w, claimed, q, Reading, 2, now);
    SoloStep(w, claimed, q, Reading, 2, now, claimed, Claiming);
    SoloStep(w, claimed, q, Claiming, 2, now, claimed, Looking(1));
    SoloStep(w, claimed, q, Looking(1), 2, now, claimed, Scanning(1));
    SoloStep(w, claimed, q, Scanning(1), 2, now, claimed, WritingBytes(m));
    var written := claimed.(bytes := claimed.bytes[(1, q.format) := Rendered(w, q)]);
    SoloStep(w, claimed, q, WritingBytes(m), 2, now, written, WritingMeta(m));
    assert written.metas + [m] == [m];
    SoloStep(w, written, q, WritingMeta(m), 2, now, written.(metas := [m]), Returned(Report(m, true)));
    assert full == written.(metas := [m]);
    var late := m.(version := 2);
    assert HighestVersion(full.metas, q.format) == 1;
    SoloStep(w, full, q, scanning, 1, now, full, WritingBytes(late));
    SoloStep(w, full, q, WritingBytes(late), 1, now, full, WritingMeta(late));
    SoloStep(w, full, q, WritingMeta(late), 1, now, full, Returned(Report(late, true)));
  }

  // -- what an overlapped call answers ------------------------------------------------------------

  /** On its way with this metadata, answered with it, or dead. */
  predicate Carrying(pc: Pc, m: Meta) {
    pc == WritingBytes(m) || pc == WritingMeta(m) || pc == Returned(Report(m, true)) || pc.Died?
  }

  /** The scan drafts version 1 exactly when no metadata is stored yet. */
  lemma ScanDrafts(w: World, s: System, id: nat, now: nat)
    requires Inv(w, s) && id in s.calls && s.calls[id].pc.Scanning? && Enabled(w, s, Go(id, now))
    ensures Next(w, s, Go(id, now)).calls[id].pc == WritingBytes(Draft(w, s, id, now))
    ensures Next(w, s, Go(id, now)).bucket == s.bucket
  {
    var b, q, a := s.bucket, s.calls[id].request, s.calls[id].pc.artifact;
    assert CallOk(w, b, q, s.calls[id].pc);
    forall m | m in b.metas ensures m.version == 1 && (m.format == q.format <==> m.artifact == a) {
      assert MetaFits(w, b, m);
    }
  }

  lemma CarriedOn(w: World, s: System, e: Event, id: nat, m: Meta)
    requires Inv(w, s) && Enabled(w, s, e) && id in s.calls && Carrying(s.calls[id].pc, m)
    ensures var t := Next(w, s, e);
      id in t.calls && Carrying(t.calls[id].pc, m) && t.calls[id].request == s.calls[id].request
  {
    var t := Next(w, s, e);
    NextOk(w, s, e);
    assert CallOk(w, t.bucket, t.calls[id].request, t.calls[id].pc);
  }

  lemma {:induction false} CarriedToEnd(w: World, s: System, es: seq<Event>, id: nat, m: Meta)
    requires Inv(w, s) && Possible(w, s, es) && id in s.calls && Carrying(s.calls[id].pc, m)
    ensures var t := Run(w, s, es);
      id in t.calls && Carrying(t.calls[id].pc, m) && t.calls[id].request == s.calls[id].request
    decreases |es|
  {
    if es != [] {
      CarriedOn(w, s, es[0], id, m);
      NextOk(w, s, es[0]);
      CarriedToEnd(w, Next(w, s, es[0]), es[1..], id, m);
    }
  }

  /** What is stored for an answered call is what it answered, up to the version
      and the clock. */
  lemma StoredForAnswer(w: World, s: System, id: nat)
    requires Inv(w, s) && id in s.calls && s.calls[id].pc.Returned? && s.calls[id].pc.answer.Report?
    ensures var m := s.calls[id].pc.answer.meta; var stored := MetaOf(s.bucket.metas, m.artifact);
      stored == Some(m.(version := 1, createdAt := stored.value.createdAt))
  {
    var b, q, m := s.bucket, s.calls[id].request, s.calls[id].pc.answer.meta;
    assert CallOk(w, b, q, s.calls[id].pc);
    var stored := MetaOf(b.metas, m.artifact).value;
    assert MetaFits(w, b, stored);
  }

  /** The metadata that a call drafts when it scans. */
  function Draft(w: World, s: System, id: nat, now: nat): Meta
    requires id in s.calls && s.calls[id].pc.Scanning? && Good(w, s.calls[id].request)
  {
    var q, a := s.calls[id].request, s.calls[id].pc.artifact;
    Meta(a, q.format, if MetaOf(s.bucket.metas, a).None? then 1 else 2, w.sha(Rendered(w, q)), now)
  }

  /** In every run, however other calls overlap: a call that scans for the next
      version and is answered later answers its draft, version 1 exactly when no
      metadata was stored as it scanned, else version 2; then version 1 is what
      is stored, with the same artifact and checksum. */
  lemma AnswerMeaning(w: World, es: seq<Event>, id: nat, now: nat, fs: seq<Event>)
    requires Possible(w, EMPTY, es) && id in Run(w, EMPTY, es).calls && Run(w, EMPTY, es).calls[id].pc.Scanning?
    requires Enabled(w, Run(w, EMPTY, es), Go(id, now)) && Possible(w, Next(w, Run(w, EMPTY, es), Go(id, now)), fs)
    requires var t := Run(w, Next(w, Run(w, EMPTY, es), Go(id, now)), fs); id in t.calls ==> t.calls[id].pc.Returned?
    ensures var s := Run(w, EMPTY, es); var t := Run(w, Next(w, s, Go(id, now)), fs);
      var m := Draft(w, s, id, now);
      var stored := MetaOf(t.bucket.metas, m.artifact);
      && id in t.calls && t.calls[id].pc == Returned(Report(m, true))
      && (m.version == 1 <==> MetaOf(s.bucket.metas, m.artifact).None?)
      && stored.Some? && stored.value == m.(version := 1, createdAt := stored.value.createdAt)
  {
    var s := Run(w, EMPTY, es);
    RunOk(w, EMPTY, es);
    ScanDrafts(w, s, id, now);
    var next := Next(w, s, Go(id, now));
    NextOk(w, s, Go(id, now));
    CarriedToEnd(w, next, fs, id, next.calls[id].pc.meta);
    RunOk(w, next, fs);
    StoredForAnswer(w, Run(w, next, fs), id);
  }

  // -- the losing write ---------------------------------------------------------------------------

  predicate Undated(pc: Pc, now: nat) { pc.WritingBytes? || pc.WritingMeta? ==> pc.meta.createdAt != now }

  /** Nothing stored, and nothing that another call is about to store, carries
      this clock. */
  ghost predicate OnlyOwn(s: System, id: nat, now: nat) {
    && (forall m :: m in s.bucket.metas ==> m.createdAt != now)
    && (forall j :: j in s.calls && j != id ==> Undated(s.calls[j].pc, now))
  }

  ghost predicate OtherClocks(es: seq<Event>, now: nat) { forall e :: e in es && e.Go? ==> e.now != now }

  lemma OnlyOwnStep(w: World, s: System, e: Event, id: nat, now: nat)
    requires Enabled(w, s, e) && OnlyOwn(s, id, now) && (e.Go? ==> e.now != now)
    requires e.Go? && e.id == id ==> Undated(s.calls[id].pc, now) || !s.calls[id].pc.WritingMeta?
    ensures OnlyOwn(Next(w, s, e), id, now)
    ensures e.Go? && Undated(s.calls[e.id].pc, now) ==> Undated(Next(w, s, e).calls[e.id].pc, now)
  {
  }

  /** Before its scan no call carries the clock of that scan. */
  lemma {:induction false} NobodyHasIt(w: World, s: System, es: seq<Event>, id: nat, now: nat)
    requires Possible(w, s, es) && OtherClocks(es, now) && OnlyOwn(s, id, now)
    requires (id in s.calls ==> Undated(s.calls[id].pc, now))
    ensures OnlyOwn(Run(w, s, es), id, now)
    decreases |es|
  {
    if es != [] {
      var e := es[0];
      assert e in es;
      OnlyOwnStep(w, s, e, id, now);
      NobodyHasIt(w, Next(w, s, e), es[1..], id, now);
    }
  }

  /** And until it stores its draft nothing stored does. */
  ghost predicate Pending(s: System, id: nat, m: Meta) {
    id in s.calls && Carrying(s.calls[id].pc, m) && (Running(s.calls[id].pc) ==> OnlyOwn(s, id, m.createdAt))
  }

  lemma PendingStep(w: World, s: System, e: Event, id: nat, m: Meta)
    requires Inv(w, s) && Enabled(w, s, e) && Pending(s, id, m) && (e.Go? ==> e.now != m.createdAt)
    ensures Pending(Next(w, s, e), id, m)
  {
    CarriedOn(w, s, e, id, m);
    if Running(Next(w, s, e).calls[id].pc) {
      OnlyOwnStep(w, s, e, id, m.createdAt);
    }
  }

  lemma {:induction false} NobodyGetsIt(w: World, s: System, es: seq<Event>, id: nat, m: Meta)
    requires Inv(w, s) && Possible(w, s, es) && OtherClocks(es, m.createdAt) && Pending(s, id, m)
    ensures Pending(Run(w, s, es), id, m)
    decreases |es|
  {
    if es != [] {
      assert es[0] in es;
      PendingStep(w, s, es[0], id, m);
      NextOk(w, s, es[0]);
      NobodyGetsIt(w, Next(w, s, es[0]), es[1..], id, m);
    }
  }

  /** Writing the metadata stores this draft, or meets another one for good. */
  lemma WriteDecides(w: World, u: System, id: nat, later: nat, hs: seq<Event>)
    requires Inv(w, u) && id in u.calls && u.calls[id].pc.WritingMeta? && Enabled(w, u, Go(id, later))
    requires Possible(w, Next(w, u, Go(id, later)), hs)
    ensures var m := u.calls[id].pc.meta;
      MetaOf(Run(w, Next(w, u, Go(id, later)), hs).bucket.metas, m.artifact)
      == if MetaOf(u.bucket.metas, m.artifact).None? then Some(m) else MetaOf(u.bucket.metas, m.artifact)
  {
    var m := u.calls[id].pc.meta;
    var after := Next(w, u, Go(id, later));
    if MetaOf(u.bucket.metas, m.artifact).None? {
      MetaOfAppended(u.bucket.metas, m);
    }
    NextOk(w, u, Go(id, later));
    RunOk(w, after, hs);
    MetaOfPrefix(after.bucket.metas, Run(w, after, hs).bucket.metas, m.artifact);
  }

  /** When no other step reads the clock of its scan, an answer is the stored
      metadata exactly when none was stored as the call came to write its own:
      a call overtaken by another one's write answers what nobody finds. */
  lemma AnswerIsStoredIff(w: World, es: seq<Event>, id: nat, now: nat, gs: seq<Event>, later: nat, hs: seq<Event>)
    requires Possible(w, EMPTY, es) && id in Run(w, EMPTY, es).calls && Run(w, EMPTY, es).calls[id].pc.Scanning?
    requires Enabled(w, Run(w, EMPTY, es), Go(id, now)) && Possible(w, Next(w, Run(w, EMPTY, es), Go(id, now)), gs)
    requires OtherClocks(es, now) && OtherClocks(gs, now)
    requires var u := Run(w, Next(w, Run(w, EMPTY, es), Go(id, now)), gs);
      && id in u.calls && u.calls[id].pc.WritingMeta? && Enabled(w, u, Go(id, later))
          && Possible(w, Next(w, u, Go(id, later)), hs)
    ensures var s := Run(w, EMPTY, es); var u := Run(w, Next(w, s, Go(id, now)), gs);
      var t := Run(w, Next(w, u, Go(id, later)), hs);
      var m := Draft(w, s, id, now);
      && id in t.calls && t.calls[id].pc == Returned(Report(m, true))
      && (MetaOf(t.bucket.metas, m.artifact) == Some(m) <==> MetaOf(u.bucket.metas, m.artifact).None?)
  {
    var next := Next(w, Run(w, EMPTY, es), Go(id, now));
    RunOk(w, EMPTY, es);
    ScanIsPending(w, es, id, now);
    NobodyGetsIt(w, next, gs, id, Draft(w, Run(w, EMPTY, es), id, now));
    RunOk(w, next, gs);
    LateWriteDecides(w, Run(w, next, gs), id, later, hs, Draft(w, Run(w, EMPTY, es), id, now));
  }

  lemma ScanIsPending(w: World, es: seq<Event>, id: nat, now: nat)
    requires Possible(w, EMPTY, es) && id in Run(w, EMPTY, es).calls && Run(w, EMPTY, es).calls[id].pc.Scanning?
    requires Enabled(w, Run(w, EMPTY, es), Go(id, now)) && OtherClocks(es, now)
    ensures var s := Run(w, EMPTY, es);
      Inv(w, Next(w, s, Go(id, now))) && Pending(Next(w, s, Go(id, now)), id, Draft(w, s, id, now))
  {
    var s := Run(w, EMPTY, es);
    RunOk(w, EMPTY, es);
    ScanDrafts(w, s, id, now);
    NobodyHasIt(w, EMPTY, es, id, now);
    NextOk(w, s, Go(id, now));
  }

  lemma LateWriteDecides(w: World, u: System, id: nat, later: nat, hs: seq<Event>, m: Meta)
    requires Inv(w, u) && Pending(u, id, m) && u.calls[id].pc.WritingMeta? && Enabled(w, u, Go(id, later))
    requires Possible(w, Next(w, u, Go(id, later)), hs)
    ensures var t := Run(w, Next(w, u, Go(id, later)), hs);
      && id in t.calls && t.calls[id].pc == Returned(Report(m, true))
      && (MetaOf(t.bucket.metas, m.artifact) == Some(m) <==> MetaOf(u.bucket.metas, m.artifact).None?)
  {
    WriteDecides(w, u, id, later, hs);
    ReturnedStays(w, Next(w, u, Go(id, later)), hs, id);
  }

  lemma {:induction false} ReturnedStays(w: World, s: System, es: seq<Event>, id: nat)
    requires Possible(w, s, es) && id in s.calls && s.calls[id].pc.Returned?
    ensures var t := Run(w, s, es); id in t.calls && t.calls[id] == s.calls[id]
    decreases |es|
  {
    if es != [] {
      ReturnedStays(w, Next(w, s, es[0]), es[1..], id);
    }
  }

  // -- the store object ----------------------------------------------------------------------------

  class Store {
    const world: World
    var claims: map<Format, Claim>
    var bytes: map<(nat, Format), Bytes>
    var metas: seq<Meta>

    ghost function Contents(): Bucket
      reads this
    {
      Bucket(claims, bytes, metas)
    }

    constructor (w: World)
      ensures world == w && Contents() == EMPTY.bucket
    {
      world := w;
      claims, bytes, metas := map[], map[], [];
    }

    method ClaimFormat(q: Request, artifact: nat) returns (winner: Option<nat>, conflict: bool)
      requires Good(world, q)
      modifies this`claims
      ensures conflict <==> q.format in old(claims) && Pinned(q.format, old(claims)[q.format]) != q
      ensures winner.Some? <==> q.format in old(claims) && Pinned(q.format, old(claims)[q.format]) == q
      ensures winner.Some? ==> winner.value == old(claims)[q.format].artifact
      ensures claims == if q.format in old(claims) then old(claims)
              else old(claims)[q.format := Claim(artifact, q.finalId, q.checksum)]
    {
      if q.format !in claims {
        claims := claims[q.format := Claim(artifact, q.finalId, q.checksum)];
        return None, false;
      }
      var found := claims[q.format];
      if found.finalId != q.finalId || found.checksum != q.checksum {
        return None, true;
      }
      return Some(found.artifact), false;
    }

    method NextVersion(format: Format) returns (v: nat)
      ensures v == HighestVersion(metas, format) + 1
    {
      var highest, i := 0, |metas|;
      while i > 0
        invariant 0 <= i <= |metas|
        invariant highest == HighestVersion(metas[i..], format)
      {
        i := i - 1;
        assert metas[i..][1..] == metas[i + 1..];
        if metas[i].format == format && metas[i].version > highest {
          highest := metas[i].version;
        }
      }
      v := highest + 1;
    }

    method WriteReport(q: Request, m: Meta) returns (a: Answer)
      requires Good(world, q)
      modifies this`bytes, this`metas
      ensures (Contents(), Returned(a)) == Solo(world, old(Contents()), q, WritingBytes(m), m.artifact, m.createdAt)
    {
      var name := (m.artifact, q.format);
      if name !in bytes {
        bytes := bytes[name := Rendered(world, q)];
      } else if world.sha(bytes[name]) != m.checksum {
        return PreconditionFailed;
      }
      ghost var between := Contents();
      SoloStep(world, old(Contents()), q, WritingBytes(m), m.artifact, m.createdAt, between, WritingMeta(m));
      if MetaOf(metas, m.artifact).None? {
        metas := metas + [m];
      }
      return Report(m, true);
    }

    /** The record of a claimed id: its reference, then its two objects. */
    method FillClaim(q: Request, id: nat, artifact: nat, now: nat) returns (a: Answer)
      requires Good(world, q)
      modifies this`bytes, this`metas
      ensures (Contents(), Returned(a)) == Solo(world, old(Contents()), q, Scanning(id), artifact, now)
    {
      var v := NextVersion(q.format);
      var m := Meta(id, q.format, v, world.sha(Rendered(world, q)), now);
      ghost var before := Contents();
      SoloStep(world, before, q, Scanning(id), artifact, now, before, WritingBytes(m));
      SoloIgnoresCaller(world, before, q, WritingBytes(m), artifact, now, id, now);
      a := WriteReport(q, m);
    }

    /** One undisturbed call. */
    method RenderReport(q: Request, artifact: nat, now: nat) returns (a: Answer)
      modifies this
      ensures (Contents(), Returned(a)) == Solo(world, old(Contents()), q, Reading, artifact, now)
    {
      var checked := Check(world, q);
      if checked.Returned? {
        return checked.answer;
      }
      ghost var start := Contents();
      var winner, conflict := ClaimFormat(q, artifact);
      ghost var pc := Step(world, start, q, Claiming, artifact, now).1;
      SoloStep(world, start, q, Reading, artifact, now, start, Claiming);
      SoloStep(world, start, q, Claiming, artifact, now, Contents(), pc);
      if conflict {
        return IdempotencyConflict;
      }
      if winner.None? {
        a := FillClaim(q, artifact, artifact, now);
        return;
      }
      var found := MetaOf(metas, winner.value);
      if found.Some? {
        return Report(found.value, false);
      }
      SoloStep(world, start, q, pc, artifact, now, start, Scanning(winner.value));
      a := FillClaim(q, winner.value, artifact, now);
    }
  }

  /** After the scan neither the caller's id nor its clock matters. */
  lemma SoloIgnoresCaller(w: World, b: Bucket, q: Request, pc: Pc, id: nat, now: nat, id': nat, now': nat)
    requires Good(w, q) && pc.WritingBytes?
    ensures Solo(w, b, q, pc, id, now) == Solo(w, b, q, pc, id', now')
  {
    var (b1, pc1) := Step(w, b, q, pc, id, now);
    SoloStep(w, b, q, pc, id, now, b1, pc1);
    SoloStep(w, b, q, pc, id', now', b1, pc1);
    if pc1.WritingMeta? {
      var (b2, pc2) := Step(w, b1, q, pc1, id, now);
      SoloStep(w, b1, q, pc1, id, now, b2, pc2);
      SoloStep(w, b1, q, pc1, id', now', b2, pc2);
    }
  }
}
