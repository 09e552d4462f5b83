/** The artifact store (artifact_mcp/storage.py) for one story run: idempotent
    saves that claim their key before they write, and the paged listing. */
module ArtifactStore {
  import opened Common
  import opened Artifacts

  datatype Perspective = BusinessView | EngineeringView

  function PerspectiveOf(k: Kind): Option<Perspective> {
    match k
    case ReviewBusiness => Some(BusinessView)
    case ReviewEngineering => Some(EngineeringView)
    case _ => None
  }

  // -- saving -------------------------------------------------------------------------

  /** A save; the content is known by its canonical checksum. */
  datatype Request = Request(kind: Kind, key: nat, checksum: nat)

  /** The run's objects: key -> artifact id, and the records as written. */
  datatype Folder = Folder(keys: map<(Kind, nat), nat>, records: seq<Reference>)

  datatype Answer = Saved(reference: Reference, created: bool) | KeyReused | Lost

  /** Where a save is cut off, if at all. */
  datatype Fate = Finishes | DiesAfterClaim | DiesAfterWrite

  function RecordOf(records: seq<Reference>, id: nat): (r: Option<Reference>)
    ensures r.Some? ==> r.value in records && r.value.artifactId == id
    ensures r.None? ==> forall x :: x in records ==> x.artifactId != id
  {
    if records == [] then None
    else if records[0].artifactId == id then Some(records[0])
    else RecordOf(records[1..], id)
  }

  /** `max(versions, default=0)` over one kind (a kind fixes its perspective). */
  function HighestVersion(records: seq<Reference>, kind: Kind): (v: nat)
    ensures forall x :: x in records && x.kind == kind ==> x.version <= v
    ensures v == 0 || exists x :: x in records && x.kind == kind && x.version == v
  {
    if records == [] then 0
    else
      var rest := HighestVersion(records[1..], kind);
      if records[0].kind == kind && records[0].version > rest then records[0].version else rest
  }

  function Name(q: Request): (Kind, nat) { (q.kind, q.key) }

  function Written(f: Folder, q: Request, id: nat, now: nat): (Folder, Reference) {
    var r := Reference(id, q.kind, HighestVersion(f.records, q.kind) + 1, q.checksum, now);
    (f.(records := f.records + [r]), r)
  }

  /** `id` is the one this save draws. */
  function Save(f: Folder, q: Request, id: nat, now: nat, fate: Fate): (Folder, Answer) {
    var claimed := if Name(q) in f.keys then f else f.(keys := f.keys[Name(q) := id]);
    if fate.DiesAfterClaim? then (claimed, Lost)
    else
      var artifact := claimed.keys[Name(q)];
      var found := if Name(q) in f.keys then RecordOf(f.records, artifact) else None;
      if found.Some? then
        (claimed, if fate.DiesAfterWrite? then Lost
            else if found.value.checksum == q.checksum then Saved(found.value, false) else KeyReused)
      else
        var (g, r) := Written(claimed, q, artifact, now);
        (g, if fate.DiesAfterWrite? then Lost else Saved(r, true))
  }

  // -- histories of serialized saves -------------------------------------------------------

  datatype Attempt = Attempt(request: Request, now: nat, fate: Fate)

  const EMPTY := Folder(map[], [])

  /** The i-th attempt draws the id i: ids are never drawn twice. */
  function After(history: seq<Attempt>): Folder {
    if history == [] then EMPTY
    else
      var n := |history| - 1;
      Save(After(history[..n]), history[n].request, n, history[n].now, history[n].fate).0
  }

  function OfKind(records: seq<Reference>, kind: Kind): seq<Reference> {
    if records == [] then []
    else
      var n := |records| - 1;
      if records[n].kind == kind then OfKind(records[..n], kind) + [records[n]] else OfKind(records[..n], kind)
  }

  /** Versions of one kind are exactly 1..n, in the order of writing. */
  ghost predicate Contiguous(records: seq<Reference>, kind: Kind) {
    var own := OfKind(records, kind);
    forall i :: 0 <= i < |own| ==> own[i].version == i + 1
  }

  ghost predicate FolderOk(f: Folder, drawn: nat) {
    && (forall k :: k in f.keys ==> f.keys[k] < drawn)
    && (forall k, l :: k in f.keys && l in f.keys && f.keys[k] == f.keys[l] ==> k == l)
    && (forall i :: 0 <= i < |f.records| ==> Owned(f, f.records[i]))
    && (forall i, j :: 0 <= i < j < |f.records| ==> f.records[i].artifactId != f.records[j].artifactId)
    && (forall kind :: Contiguous(f.records, kind))
  }

  ghost predicate Owned(f: Folder, r: Reference) {
    exists key :: (r.kind, key) in f.keys && f.keys[(r.kind, key)] == r.artifactId
  }

  ghost predicate Grows(f: Folder, g: Folder) {
    && (forall k :: k in f.keys ==> k in g.keys && g.keys[k] == f.keys[k])
    && f.records <= g.records
  }

  lemma {:induction false} OfKindMembers(records: seq<Reference>, kind: Kind)
    ensures forall x :: x in OfKind(records, kind) <==> x in records && x.kind == kind
  {
    if records != [] {
      var n := |records| - 1;
      OfKindMembers(records[..n], kind);
      assert records == records[..n] + [records[n]];
    }
  }

  /** With contiguous versions the next one is the number of records plus one. */
  lemma HighestIsCount(records: seq<Reference>, kind: Kind)
    requires Contiguous(records, kind)
    ensures HighestVersion(records, kind) == |OfKind(records, kind)|
  {
    var own, v := OfKind(records, kind), HighestVersion(records, kind);
    OfKindMembers(records, kind);
    if own != [] {
      assert own[|own| - 1] in own && own[|own| - 1].version == |own|;
    }
    if v > 0 {
      var x :| x in records && x.kind == kind && x.version == v;
      var i :| 0 <= i < |own| && own[i] == x;
    }
  }

  lemma AppendContiguous(records: seq<Reference>, r: Reference, kind: Kind)
    requires Contiguous(records, kind) && r.version == HighestVersion(records, r.kind) + 1
    ensures Contiguous(records + [r], kind)
  {
    var own, appended := OfKind(records, kind), OfKind(records + [r], kind);
    assert appended == if r.kind == kind then own + [r] else own by {
      assert (records + [r])[..|records|] == records;
    }
    if r.kind == kind {
      HighestIsCount(records, kind);
      assert r.version == |own| + 1;
    }
  }

  lemma WrittenContiguous(f: Folder, q: Request, id: nat, now: nat)
    requires forall kind :: Contiguous(f.records, kind)
    ensures forall kind :: Contiguous(Written(f, q, id, now).0.records, kind)
  {
    var (g, r) := Written(f, q, id, now);
    forall kind ensures Contiguous(g.records, kind) {
      assert Contiguous(f.records, kind);
      AppendContiguous(f.records, r, kind);
    }
  }

  lemma WrittenOwned(f: Folder, q: Request, id: nat, now: nat)
    requires Name(q) in f.keys && f.keys[Name(q)] == id
    requires forall i :: 0 <= i < |f.records| ==> Owned(f, f.records[i])
    ensures var g := Written(f, q, id, now).0; forall i :: 0 <= i < |g.records| ==> Owned(g, g.records[i])
  {
    var (g, r) := Written(f, q, id, now);
    forall i | 0 <= i < |g.records| ensures Owned(g, g.records[i]) {
      if i < |f.records| {
        assert Owned(f, f.records[i]);
      } else {
        assert (r.kind, q.key) in g.keys;
      }
    }
  }

  lemma WriteOk(f: Folder, q: Request, id: nat, now: nat, drawn: nat)
    requires FolderOk(f, drawn) && Name(q) in f.keys && f.keys[Name(q)] == id && RecordOf(f.records, id).None?
    ensures FolderOk(Written(f, q, id, now).0, drawn)
  {
    WrittenContiguous(f, q, id, now);
    WrittenOwned(f, q, id, now);
    forall i | 0 <= i < |f.records| ensures f.records[i].artifactId != id {
      assert f.records[i] in f.records;
    }
  }

  lemma ClaimOk(f: Folder, k: (Kind, nat), drawn: nat)
    requires FolderOk(f, drawn) && k !in f.keys
    ensures FolderOk(f.(keys := f.keys[k := drawn]), drawn + 1)
    ensures RecordOf(f.records, drawn).None?
  {
    var g := f.(keys := f.keys[k := drawn]);
    forall i | 0 <= i < |g.records| ensures Owned(g, g.records[i]) {
      assert Owned(f, f.records[i]);
    }
    forall x | x in f.records ensures x.artifactId != drawn {
      var i :| 0 <= i < |f.records| && f.records[i] == x;
      assert Owned(f, f.records[i]);
    }
  }

  /** The key is claimed, by this save if by none before. */
  function ClaimedBy(f: Folder, q: Request, id: nat): Folder {
    if Name(q) in f.keys then f else f.(keys := f.keys[Name(q) := id])
  }

  lemma ClaimedOk(f: Folder, q: Request, drawn: nat)
    requires FolderOk(f, drawn)
    ensures FolderOk(ClaimedBy(f, q, drawn), drawn + 1) && Grows(f, ClaimedBy(f, q, drawn))
    ensures Name(q) !in f.keys ==> RecordOf(f.records, drawn).None?
  {
    if Name(q) !in f.keys {
      ClaimOk(f, Name(q), drawn);
    }
  }

  lemma SaveIs(f: Folder, q: Request, now: nat, fate: Fate, drawn: nat)
    requires Name(q) !in f.keys ==> RecordOf(f.records, drawn).None?
    ensures var claimed := ClaimedBy(f, q, drawn); var id := claimed.keys[Name(q)];
      Save(f, q, drawn, now, fate).0
      == if !fate.DiesAfterClaim? && RecordOf(f.records, id).None? then Written(claimed, q, id, now).0 else claimed
  {
  }

  lemma SaveOk(f: Folder, q: Request, now: nat, fate: Fate, drawn: nat)
    requires FolderOk(f, drawn)
    ensures FolderOk(Save(f, q, drawn, now, fate).0, drawn + 1)
    ensures Grows(f, Save(f, q, drawn, now, fate).0)
  {
    var claimed := ClaimedBy(f, q, drawn);
    ClaimedOk(f, q, drawn);
    SaveIs(f, q, now, fate, drawn);
    if !fate.DiesAfterClaim? && RecordOf(f.records, claimed.keys[Name(q)]).None? {
      WriteOk(claimed, q, claimed.keys[Name(q)], now, drawn + 1);
    }
  }

  lemma {:induction false} HistoryOk(history: seq<Attempt>)
    ensures FolderOk(After(history), |history|)
  {
    if history != [] {
      var n := |history| - 1;
      HistoryOk(history[..n]);
      SaveOk(After(history[..n]), history[n].request, history[n].now, history[n].fate, n);
    }
  }

  /** Keys keep their ids and records are never changed or reordered. */
  lemma {:induction false} NothingIsRewritten(history: seq<Attempt>, more: seq<Attempt>)
    ensures Grows(After(history), After(history + more))
  {
    if more == [] {
      assert history + more == history;
    } else {
      var n := |more| - 1;
      var before, all := history + more[..n], history + more;
      NothingIsRewritten(history, more[..n]);
      assert all[..|all| - 1] == before && all[|all| - 1] == more[n];
      HistoryOk(before);
      assert Grows(After(before), After(all)) by {
        SaveOk(After(before), more[n].request, more[n].now, more[n].fate, |before|);
      }
    }
  }

  lemma {:induction false} RecordOfPrefix(a: seq<Reference>, b: seq<Reference>, id: nat)
    requires a <= b && RecordOf(a, id).Some?
    ensures RecordOf(b, id) == RecordOf(a, id)
  {
    if a[0].artifactId != id {
      assert a[1..] <= b[1..];
      RecordOfPrefix(a[1..], b[1..], id);
    }
  }

  lemma {:induction false} RecordOfAppended(records: seq<Reference>, r: Reference)
    requires RecordOf(records, r.artifactId).None?
    ensures RecordOf(records + [r], r.artifactId) == Some(r)
  {
    if records != [] {
      assert (records + [r])[1..] == records[1..] + [r];
      RecordOfAppended(records[1..], r);
    }
  }

  /** The record a key stands for, once one was written. */
  function Kept(f: Folder, k: (Kind, nat)): Option<Reference> {
    if k in f.keys then RecordOf(f.records, f.keys[k]) else None
  }

  /** Whatever crashes came before, a save that finishes is refused exactly when
      its key already holds a record with other content; otherwise it returns
      the key's record, which is then stored. A key whose writer died before the
      record was written takes any content. */
  lemma FinishedSave(history: seq<Attempt>, q: Request, now: nat)
    ensures var f := After(history); var (g, a) := Save(f, q, |history|, now, Finishes);
      && (a.KeyReused? <==> Kept(f, Name(q)).Some? && Kept(f, Name(q)).value.checksum != q.checksum)
      && (a.KeyReused? ==> g == f)
      && (!a.KeyReused? ==>
          a.Saved? && Kept(g, Name(q)) == Some(a.reference) && a.reference.kind == q.kind
          && a.reference.checksum == q.checksum)
      && (a.Saved? ==> (a.created <==> Kept(f, (q.kind, q.key)).None?))
      && (a.Saved? && a.created ==>
            && a.reference.createdAt == now && a.reference.version == |OfKind(f.records, q.kind)| + 1
            && a.reference.artifactId == (if (q.kind, q.key) in f.keys then f.keys[(q.kind, q.key)] else |history|)
            && g.records == f.records + [a.reference])
      && (a.Saved? && !a.created ==> g == f)
  {
    var f := After(history);
    HistoryOk(history);
    if Name(q) !in f.keys {
      ClaimOk(f, Name(q), |history|);
    } else if Kept(f, Name(q)).Some? {
      KeptKind(f, Name(q), |history|);
    }
    var (g, a) := Save(f, q, |history|, now, Finishes);
    if a.Saved? && a.created {
      RecordOfAppended(f.records, a.reference);
      HighestIsCount(f.records, q.kind);
    }
  }

  /** Dying after the write loses the answer alone; dying after the claim leaves
      the key claimed and nothing else. */
  lemma DeathLeaves(f: Folder, q: Request, id: nat, now: nat)
    ensures Save(f, q, id, now, DiesAfterWrite) == (Save(f, q, id, now, Finishes).0, Lost)
    ensures var name := (q.kind, q.key);
      Save(f, q, id, now, DiesAfterClaim)
      == (Folder(if name in f.keys then f.keys else f.keys[name := id], f.records), Lost)
  {
  }

  /** A save that died between claim and record, and a second one under its key
      with other content: the second is taken. */
  lemma OrphanedKeyTakesOtherContent(kind: Kind, key: nat, first: nat, second: nat, now: nat)
    ensures var history := [Attempt(Request(kind, key, first), now, DiesAfterClaim)];
      Save(After(history), Request(kind, key, second), 1, now, Finishes).1 ==
          Saved(Reference(0, kind, 1, second, now), true)
  {
    var history := [Attempt(Request(kind, key, first), now, DiesAfterClaim)];
    assert history[..0] == [];
    assert After(history) == Folder(map[(kind, key) := 0], []);
  }

  lemma KeptKind(f: Folder, k: (Kind, nat), drawn: nat)
    requires FolderOk(f, drawn) && Kept(f, k).Some?
    ensures Kept(f, k).value.kind == k.0
  {
    var r := Kept(f, k).value;
    var i :| 0 <= i < |f.records| && f.records[i] == r;
    assert Owned(f, r);
  }

  /** A save that was ever stored is answered with the same reference by every
      later save of the same content under the same key. */
  lemma RetryReturnsSame(history: seq<Attempt>, more: seq<Attempt>, q: Request, now: nat)
    requires Kept(After(history), Name(q)).Some? && Kept(After(history), Name(q)).value.checksum == q.checksum
    ensures Save(After(history + more), q, |history + more|, now, Finishes)
         == (After(history + more), Saved(Kept(After(history), Name(q)).value, false))
  {
    NothingIsRewritten(history, more);
    RecordOfPrefix(After(history).records, After(history + more).records, After(history).keys[Name(q)]);
  }

  class ArtifactService {
    var keys: map<(Kind, nat), nat>
    var records: seq<Reference>

    ghost function Contents(): Folder
      reads this
    {
      Folder(keys, records)
    }

    constructor ()
      ensures Contents() == EMPTY
    {
      keys, records := map[], [];
    }

    method ClaimKey(q: Request, id: nat) returns (winner: Option<nat>)
      modifies this`keys
      ensures winner == if Name(q) in old(keys) then Some(old(keys)[Name(q)]) else None
      ensures keys == if Name(q) in old(keys) then old(keys) else old(keys)[Name(q) := id]
    {
      if Name(q) in keys {
        return Some(keys[Name(q)]);
      }
      keys := keys[Name(q) := id];
      return None;
    }

    method NextVersion(kind: Kind) returns (v: nat)
      ensures v == HighestVersion(records, kind) + 1
    {
      var highest, i := 0, |records|;
      while i > 0
        invariant 0 <= i <= |records|
        invariant highest == HighestVersion(records[i..], kind)
      {
        i := i - 1;
        assert records[i..][1..] == records[i + 1..];
        if records[i].kind == kind && records[i].version > highest {
          highest := records[i].version;
        }
      }
      v := highest + 1;
    }

    method SaveArtifact(q: Request, id: nat, now: nat) returns (a: Answer)
      modifies this
      ensures (Contents(), a) == Save(old(Contents()), q, id, now, Finishes)
    {
      var artifact := id;
      var winner := ClaimKey(q, id);
      if winner.Some? {
        var existing := RecordOf(records, winner.value);
        if existing.Some? {
          if existing.value.checksum == q.checksum {
            return Saved(existing.value, false);
          }
          return KeyReused;
        }
        artifact := winner.value;
      }
      var v := NextVersion(q.kind);
      var reference := Reference(artifact, q.kind, v, q.checksum, now);
      records := records + [reference];
      return Saved(reference, true);
    }
  }
}
