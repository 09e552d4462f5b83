/** The paged artifact listing (artifact_mcp/storage.py, `list`). */
module ArtifactListing {
  import opened Common
  import opened Artifacts
  import opened ArtifactStore

  /** The place of a type name in string order; the perspective follows it. */
  function Rank(k: Kind): nat {
    match k
    case FinalizedReview => 0
    case ReportMd => 1
    case ReportPdf => 2
    case ReviewBusiness => 3
    case ReviewEngineering => 4
    case Story => 5
    case Synthesis => 6
  }

  function TypeName(k: Kind): string {
    match k
    case FinalizedReview => "finalized-review"
    case ReportMd => "report-md"
    case ReportPdf => "report-pdf"
    case ReviewBusiness => "review-business"
    case ReviewEngineering => "review-engineering"
    case Story => "story"
    case Synthesis => "synthesis"
  }

  /** String order. */
  predicate TextBefore(a: string, b: string) {
    if a == [] || b == [] then |a| < |b| else a[0] < b[0] || (a[0] == b[0] && TextBefore(a[1..], b[1..]))
  }

  lemma {:induction false} TextBeforeAt(a: string, b: string, n: nat)
    requires n < |a| && n < |b| && a[n] < b[n] && forall i :: 0 <= i < n ==> a[i] == b[i]
    ensures TextBefore(a, b)
  {
    if n > 0 {
      TextBeforeAt(a[1..], b[1..], n - 1);
    }
  }

  /** Where two type names first differ. */
  function Difference(a: Kind, b: Kind): nat {
    if a == b then 0
    else if {a, b} <= {ReviewBusiness, ReviewEngineering} || {a, b} <= {ReportMd, ReportPdf} then 7
    else if {a, b} <= {ReportMd, ReportPdf, ReviewBusiness, ReviewEngineering} then 2
    else if {a, b} <= {Story, Synthesis} then 1
    else 0
  }

  lemma RankIsTextOrder(a: Kind, b: Kind)
    requires Rank(a) < Rank(b)
    ensures TextBefore(TypeName(a), TypeName(b))
  {
    TextBeforeAt(TypeName(a), TypeName(b), Difference(a, b));
  }

  predicate Before(a: Reference, b: Reference) {
    Rank(a.kind) < Rank(b.kind) || (a.kind == b.kind && a.version < b.version)
  }

  datatype Filter = Filter(kind: Option<Kind>, perspective: Option<Perspective>)

  predicate Selects(f: Filter, r: Reference) {
    (f.kind.Some? ==> f.kind.value == r.kind) && (f.perspective.Some? ==> PerspectiveOf(r.kind) == f.perspective)
  }

  function Selected(records: seq<Reference>, f: Filter): (s: seq<Reference>)
    ensures forall r :: r in s <==> r in records && Selects(f, r)
  {
    if records == [] then []
    else
      var n := |records| - 1;
      assert records == records[..n] + [records[n]];
      if Selects(f, records[n]) then Selected(records[..n], f) + [records[n]] else Selected(records[..n], f)
  }

  // -- the sort --------------------------------------------------------------------------

  ghost predicate Sorted(s: seq<Reference>) {
    forall i, j :: 0 <= i < j < |s| ==> !Before(s[j], s[i])
  }

  function InsertSorted(s: seq<Reference>, r: Reference): seq<Reference> {
    if s == [] || !Before(r, s[|s| - 1]) then s + [r]
    else InsertSorted(s[..|s| - 1], r) + [s[|s| - 1]]
  }

  /** A stable sort. */
  function Sort(s: seq<Reference>): seq<Reference> {
    if s == [] then [] else InsertSorted(Sort(s[..|s| - 1]), s[|s| - 1])
  }

  lemma MultisetLast(s: seq<Reference>)
    requires s != []
    ensures multiset(s) == multiset(s[..|s| - 1]) + multiset{s[|s| - 1]}
  {
    assert s == s[..|s| - 1] + [s[|s| - 1]];
  }

  lemma {:induction false} InsertSortedAdds(s: seq<Reference>, r: Reference)
    ensures multiset(InsertSorted(s, r)) == multiset(s) + multiset{r}
  {
    if s != [] && Before(r, s[|s| - 1]) {
      InsertSortedAdds(s[..|s| - 1], r);
      MultisetLast(s);
    }
  }

  lemma InsertSortedMembers(s: seq<Reference>, r: Reference)
    ensures forall x :: x in InsertSorted(s, r) ==> x in s || x == r
  {
    InsertSortedAdds(s, r);
    forall x | x in InsertSorted(s, r) ensures x in s || x == r {
      assert x in multiset(InsertSorted(s, r));
    }
  }

  lemma {:induction false} InsertSortedMeaning(s: seq<Reference>, r: Reference)
    requires Sorted(s)
    ensures Sorted(InsertSorted(s, r)) && multiset(InsertSorted(s, r)) == multiset(s) + multiset{r}
  {
    InsertSortedAdds(s, r);
    if s != [] && Before(r, s[|s| - 1]) {
      var init, last := s[..|s| - 1], s[|s| - 1];
      InsertSortedMeaning(init, r);
      InsertSortedMembers(init, r);
      forall x | x in InsertSorted(init, r) ensures !Before(last, x) {
        if x != r {
          var i :| 0 <= i < |init| && init[i] == x;
          assert s[i] == x;
        }
      }
      SortedAppend(InsertSorted(init, r), last);
    } else {
      forall x | x in s ensures !Before(r, x) {
        var i :| 0 <= i < |s| && s[i] == x;
      }
      SortedAppend(s, r);
    }
  }

  lemma SortedAppend(s: seq<Reference>, r: Reference)
    requires Sorted(s) && forall x :: x in s ==> !Before(r, x)
    ensures Sorted(s + [r])
  {
  }

  lemma {:induction false} SortMeaning(s: seq<Reference>)
    ensures Sorted(Sort(s)) && multiset(Sort(s)) == multiset(s)
  {
    if s != [] {
      var init, last := s[..|s| - 1], s[|s| - 1];
      SortMeaning(init);
      InsertSortedMeaning(Sort(init), last);
      MultisetLast(s);
    }
  }

  // -- latest versions -----------------------------------------------------------------------

  ghost predicate ShowsKind(refs: seq<Reference>, kind: Kind) {
    exists r :: r in refs && r.kind == kind
  }

  lemma OneMoreShown(r: Reference, rest: seq<Reference>, kind: Kind)
    ensures ShowsKind([r] + rest, kind) <==> r.kind == kind || ShowsKind(rest, kind)
    ensures HighestVersion([r] + rest, kind)
         == if r.kind == kind && r.version > HighestVersion(rest, kind) then r.version else HighestVersion(rest, kind)
    ensures !ShowsKind(rest, kind) ==> HighestVersion(rest, kind) == 0
  {
    assert ([r] + rest)[1..] == rest;
    assert r in [r] + rest;
    if ShowsKind(rest, kind) {
      var x :| x in rest && x.kind == kind;
      assert x in [r] + rest;
    }
  }

  /** The types shown, each with its highest version. */
  ghost predicate LatestOf(latest: map<Kind, nat>, refs: seq<Reference>) {
    && (forall k :: k in latest <==> ShowsKind(refs, k))
    && (forall k :: k in latest ==> latest[k] == HighestVersion(refs, k))
  }

  function WithVersion(latest: map<Kind, nat>, r: Reference): map<Kind, nat> {
    var known := if r.kind in latest then latest[r.kind] else 0;
    latest[r.kind := if r.version > known then r.version else known]
  }

  lemma LatestOneMore(latest: map<Kind, nat>, r: Reference, rest: seq<Reference>)
    requires LatestOf(latest, rest)
    ensures LatestOf(WithVersion(latest, r), [r] + rest)
  {
    forall k
        ensures k in WithVersion(latest, r) <==> ShowsKind([r] + rest, k)
        ensures k in WithVersion(latest, r) ==> WithVersion(latest, r)[k] == HighestVersion([r] + rest, k) {
      OneMoreShown(r, rest, k);
    }
  }

  method LatestVersions(refs: seq<Reference>) returns (latest: map<Kind, nat>)
    ensures forall k :: k in latest <==> exists r :: r in refs && r.kind == k
    ensures forall k :: k in latest ==> latest[k] == HighestVersion(refs, k)
  {
    latest := map[];
    var i := |refs|;
    while i > 0
      invariant 0 <= i <= |refs| && LatestOf(latest, refs[i..])
    {
      i := i - 1;
      LatestOneMore(latest, refs[i], refs[i + 1..]);
      assert refs[i..] == [refs[i]] + refs[i + 1..];
      latest := WithVersion(latest, refs[i]);
    }
    assert refs[0..] == refs;
  }

  // -- pages -----------------------------------------------------------------------------------

  datatype Item = Item(reference: Reference, latest: bool)

  function Flagged(all: seq<Reference>, refs: seq<Reference>): (s: seq<Item>)
    ensures |s| == |refs|
    ensures forall i :: 0 <= i < |s| ==> s[i] == Item(refs[i], refs[i].version == HighestVersion(all, refs[i].kind))
  {
    seq(|refs|, i requires 0 <= i < |refs| => Item(refs[i], refs[i].version == HighestVersion(all, refs[i].kind)))
  }

  function Listing(records: seq<Reference>, f: Filter): seq<Item> {
    var refs := Sort(Selected(records, f));
    Flagged(refs, refs)
  }

  /** `s[offset : offset + limit]`, clamped. */
  function Page<T>(s: seq<T>, offset: nat, limit: nat): seq<T> {
    if offset >= |s| then [] else if offset + limit >= |s| then s[offset..] else s[offset..offset + limit]
  }

  method FlagPage(all: seq<Reference>, page: seq<Reference>, latest: map<Kind, nat>) returns (items: seq<Item>)
    requires forall i :: 0 <= i < |page| ==>
            page[i].kind in latest && latest[page[i].kind] == HighestVersion(all, page[i].kind)
    ensures items == Flagged(all, page)
  {
    items := [];
    for i := 0 to |page|
      invariant |items| == i && forall j :: 0 <= j < i ==>
              items[j] == Item(page[j], page[j].version == HighestVersion(all, page[j].kind))
    {
      items := items + [Item(page[i], page[i].version == latest[page[i].kind])];
    }
  }

  method SelectRecords(records: seq<Reference>, f: Filter) returns (filtered: seq<Reference>)
    ensures filtered == Selected(records, f)
  {
    filtered := [];
    for i := 0 to |records|
      invariant filtered == Selected(records[..i], f)
    {
      assert records[..i + 1][..i] == records[..i];
      if Selects(f, records[i]) {
        filtered := filtered + [records[i]];
      }
    }
    assert records[..|records|] == records;
  }

  method ListArtifacts(records: seq<Reference>, f: Filter, offset: nat, limit: nat)
    returns (items: seq<Item>, total: nat)
    ensures items == Page(Listing(records, f), offset, limit)
    ensures total == |Listing(records, f)|
  {
    var filtered := SelectRecords(records, f);
    filtered := Sort(filtered);
    var latest := LatestVersions(filtered);
    var page := Page(filtered, offset, limit);
    forall i | 0 <= i < |page|
        ensures page[i].kind in latest && latest[page[i].kind] == HighestVersion(filtered, page[i].kind) {
      assert page[i] in filtered;
    }
    items := FlagPage(filtered, page, latest);
    total := |filtered|;
    FlaggedPage(filtered, offset, limit);
  }

  lemma FlaggedPage(all: seq<Reference>, offset: nat, limit: nat)
    ensures Flagged(all, Page(all, offset, limit)) == Page(Flagged(all, all), offset, limit)
  {
  }

  /** The pages a client walks with a step of `limit`, put together. */
  function Walk<T>(s: seq<T>, offset: nat, limit: nat): seq<T>
    requires limit > 0
    decreases |s| - offset
  {
    if offset >= |s| then [] else Page(s, offset, limit) + Walk(s, offset + limit, limit)
  }

  lemma {:induction false} PagesCoverListing<T>(s: seq<T>, offset: nat, limit: nat)
    requires limit > 0 && offset <= |s|
    ensures Walk(s, offset, limit) == s[offset..]
    decreases |s| - offset
  {
    if offset + limit < |s| {
      PagesCoverListing(s, offset + limit, limit);
      assert s[offset..] == s[offset..offset + limit] + s[offset + limit..];
    } else if offset < |s| {
      assert Walk(s, offset + limit, limit) == [];
    }
  }

  // -- what the listing of a reachable folder shows -----------------------------------------------

  lemma {:induction false} OfKindPrefix(records: seq<Reference>, n: nat, kind: Kind)
    requires n <= |records|
    ensures OfKind(records[..n], kind) <= OfKind(records, kind)
  {
    if n == |records| {
      assert records[..n] == records;
    } else {
      var m := |records| - 1;
      OfKindPrefix(records[..m], n, kind);
      assert records[..m][..n] == records[..n];
    }
  }

  lemma ContiguousVersions(records: seq<Reference>, i: nat, j: nat)
    requires i < j < |records| && records[i].kind == records[j].kind && Contiguous(records, records[j].kind)
    ensures records[i].version < records[j].version
  {
    var kind := records[j].kind;
    OfKindPrefix(records, j + 1, kind);
    OfKindPrefix(records, j, kind);
    assert records[..j + 1][..j] == records[..j];
    HighestIsCount(records[..j], kind);
    var before := OfKind(records[..j], kind);
    assert OfKind(records[..j + 1], kind) == before + [records[j]];
    assert OfKind(records, kind)[|before|] == records[j];
    assert records[i] == records[..j][i];
  }

  /** Records of one type never share a version. */
  lemma TellApart(records: seq<Reference>, a: Reference, b: Reference)
    requires a in records && b in records && a != b && (forall kind :: Contiguous(records, kind))
    ensures a.kind == b.kind ==> a.version != b.version
  {
    var i :| 0 <= i < |records| && records[i] == a;
    var j :| 0 <= j < |records| && records[j] == b;
    if a.kind == b.kind {
      assert Contiguous(records, a.kind);
      if i < j {
        ContiguousVersions(records, i, j);
      } else {
        ContiguousVersions(records, j, i);
      }
    }
  }

  lemma {:induction false} SelectedDistinct(records: seq<Reference>, f: Filter)
    requires forall i, j :: 0 <= i < j < |records| ==> records[i].artifactId != records[j].artifactId
    ensures Distinct(Selected(records, f))
  {
    if records != [] {
      SelectedDistinct(records[..|records| - 1], f);
    }
  }

  lemma DistinctByMultiset(a: seq<Reference>, b: seq<Reference>)
    requires Distinct(a) && multiset(a) == multiset(b)
    ensures Distinct(b)
  {
    forall i, j | 0 <= i < j < |b| ensures b[i] != b[j] {
      if b[i] == b[j] {
        assert b == b[..i] + [b[i]] + b[i + 1..j] + [b[j]] + b[j + 1..];
        assert multiset(b)[b[i]] >= 2;
        OnceEach(a, b[i]);
        assert false;
      }
    }
  }

  lemma {:induction false} OnceEach(a: seq<Reference>, x: Reference)
    requires Distinct(a)
    ensures multiset(a)[x] <= 1
  {
    if a != [] {
      OnceEach(a[1..], x);
      assert a == [a[0]] + a[1..];
      if x == a[0] {
        assert x !in a[1..];
      }
    }
  }

  lemma SelectedHighest(records: seq<Reference>, f: Filter, refs: seq<Reference>, r: Reference)
    requires (forall kind :: Contiguous(records, kind)) && multiset(refs) == multiset(Selected(records, f)) && r in refs
    ensures HighestVersion(refs, r.kind) == |OfKind(records, r.kind)|
  {
    var kind := r.kind;
    assert Contiguous(records, kind);
    HighestIsCount(records, kind);
    forall x ensures x in refs <==> x in records && Selects(f, x) {
      assert x in multiset(refs) <==> x in multiset(Selected(records, f));
    }
    assert forall x :: x in refs && x.kind == kind <==> x in records && x.kind == kind;
  }

  /** What every reachable folder guarantees about its records. */
  ghost predicate Orderly(records: seq<Reference>) {
    && (forall i, j :: 0 <= i < j < |records| ==> records[i].artifactId != records[j].artifactId)
    && (forall kind :: Contiguous(records, kind))
  }

  /** The rows of a listing. */
  function Shown(records: seq<Reference>, f: Filter): seq<Reference> { Sort(Selected(records, f)) }

  lemma ShownMembers(records: seq<Reference>, f: Filter)
    ensures forall r :: r in Shown(records, f) <==> r in records && Selects(f, r)
  {
    SortMeaning(Selected(records, f));
    forall r ensures r in Shown(records, f) <==> r in Selected(records, f) {
      assert r in multiset(Shown(records, f)) <==> r in multiset(Selected(records, f));
    }
  }

  lemma ShownInOrder(records: seq<Reference>, f: Filter, i: nat, j: nat)
    requires Orderly(records) && i < j < |Shown(records, f)|
    ensures Before(Shown(records, f)[i], Shown(records, f)[j])
  {
    var refs := Shown(records, f);
    ShownMembers(records, f);
    SortMeaning(Selected(records, f));
    SelectedDistinct(records, f);
    DistinctByMultiset(Selected(records, f), refs);
    assert refs[i] in refs && refs[j] in refs;
    TellApart(records, refs[i], refs[j]);
  }

  lemma LatestShown(history: seq<Attempt>, f: Filter)
    ensures var records, refs, items :=
            After(history).records, Shown(After(history).records, f), Listing(After(history).records, f);
      && |items| == |refs| && (forall i, j :: 0 <= i < j < |refs| ==> Before(refs[i], refs[j]))
      && (forall i :: 0 <= i < |refs| ==> items[i] == Item(refs[i], refs[i].version == |OfKind(records, refs[i].kind)|))
  {
    var records := After(history).records;
    HistoryOk(history);
    SortMeaning(Selected(records, f));
    var refs := Shown(records, f);
    forall i, j | 0 <= i < j < |refs| ensures Before(refs[i], refs[j]) {
      ShownInOrder(records, f, i, j);
    }
    forall i | 0 <= i < |refs| ensures HighestVersion(refs, refs[i].kind) == |OfKind(records, refs[i].kind)| {
      SelectedHighest(records, f, refs, refs[i]);
    }
  }

  /** A filter by type keeps that type, a filter by perspective that reviewer's reviews. */
  predicate Wanted(f: Filter, kind: Kind) {
    && (match f.kind
        case None => true
        case Some(wanted) => kind == wanted)
    && (match f.perspective
        case None => true
        case Some(BusinessView) => kind == ReviewBusiness
        case Some(EngineeringView) => kind == ReviewEngineering)
  }

  /** By type name, then by version. */
  predicate InOrder(a: Reference, b: Reference) {
    if a.kind == b.kind then a.version < b.version else TextBefore(TypeName(a.kind), TypeName(b.kind))
  }

  lemma BeforeIsInOrder(a: Reference, b: Reference)
    requires Before(a, b)
    ensures InOrder(a, b)
  {
    if Rank(a.kind) < Rank(b.kind) {
      RankIsTextOrder(a.kind, b.kind);
    }
  }

  /** The listing shows these records, each once and in order. */
  ghost predicate Shows(records: seq<Reference>, f: Filter, items: seq<Item>) {
    && (forall r :: r in records && Wanted(f, r.kind) <==> ListsIt(items, r))
    && (forall i, j :: 0 <= i < j < |items| ==> InOrder(items[i].reference, items[j].reference))
  }

  ghost predicate ListsIt(items: seq<Item>, r: Reference) {
    exists i :: 0 <= i < |items| && items[i].reference == r
  }

  lemma WantedIsSelected(f: Filter, r: Reference)
    ensures Wanted(f, r.kind) <==> Selects(f, r)
  {
  }

  lemma ItemsShow(records: seq<Reference>, f: Filter, refs: seq<Reference>, items: seq<Item>)
    requires |items| == |refs| && forall i :: 0 <= i < |items| ==> items[i].reference == refs[i]
    requires forall r :: r in refs <==> r in records && Selects(f, r)
    requires forall i, j :: 0 <= i < j < |refs| ==> Before(refs[i], refs[j])
    ensures Shows(records, f, items)
  {
    forall r ensures r in records && Wanted(f, r.kind) <==> ListsIt(items, r) {
      WantedIsSelected(f, r);
      if r in refs {
        var i :| 0 <= i < |refs| && refs[i] == r;
        assert items[i].reference == r;
      }
    }
    forall i, j | 0 <= i < j < |items| ensures InOrder(items[i].reference, items[j].reference) {
      BeforeIsInOrder(refs[i], refs[j]);
    }
  }

  /** Under any filter the listing of a reachable folder shows the wanted records,
      each once and in order, and an item is flagged latest exactly when its
      version is the number of the run's records of its type. */
  lemma ListingMeaning(history: seq<Attempt>, f: Filter)
    ensures var records, items := After(history).records, Listing(After(history).records, f);
      && Shows(records, f, items)
      && forall i :: 0 <= i < |items| ==>
           items[i].latest == (items[i].reference.version == |OfKind(records, items[i].reference.kind)|)
  {
    var records := After(history).records;
    LatestShown(history, f);
    ShownMembers(records, f);
    ItemsShow(records, f, Shown(records, f), Listing(records, f));
  }

  /** Item m is the one item of this type that is flagged latest. */
  ghost predicate OnlyLatest(items: seq<Item>, kind: Kind, m: nat) {
    && m < |items| && items[m].reference.kind == kind
    && forall j :: 0 <= j < |items| && items[j].reference.kind == kind ==> (items[j].latest <==> j == m)
  }

  lemma NewestIsShown(records: seq<Reference>, f: Filter, i: nat) returns (m: nat)
    requires Orderly(records) && i < |Shown(records, f)|
    ensures var refs := Shown(records, f);
      m < |refs| && refs[m].kind == refs[i].kind && refs[m].version == |OfKind(records, refs[i].kind)|
  {
    var refs := Shown(records, f);
    var own := OfKind(records, refs[i].kind);
    OfKindMembers(records, refs[i].kind);
    ShownMembers(records, f);
    assert refs[i] in refs && refs[i] in own;
    var newest := own[|own| - 1];
    assert newest in own && newest in refs;
    assert Contiguous(records, refs[i].kind);
    m :| 0 <= m < |refs| && refs[m] == newest;
  }

  lemma OnlyOneOfKind(refs: seq<Reference>, items: seq<Item>, kind: Kind, newest: nat, m: nat)
    requires |items| == |refs| && forall j :: 0 <= j < |refs| ==> items[j].reference == refs[j]
    requires forall j :: 0 <= j < |refs| && refs[j].kind == kind ==> items[j].latest == (refs[j].version == newest)
    requires forall i, j :: 0 <= i < j < |refs| ==> Before(refs[i], refs[j])
    requires m < |refs| && refs[m].kind == kind && refs[m].version == newest
    ensures OnlyLatest(items, kind, m)
  {
    forall j | 0 <= j < |items| && items[j].reference.kind == kind ensures items[j].latest <==> j == m {
      if j != m {
        assert Before(refs[if j < m then j else m], refs[if j < m then m else j]);
      }
    }
  }

  /** Exactly one item is flagged latest for each type that the listing shows. */
  lemma ExactlyOneLatest(history: seq<Attempt>, f: Filter, i: nat)
    requires i < |Listing(After(history).records, f)|
    ensures var items := Listing(After(history).records, f);
      exists m: nat :: OnlyLatest(items, items[i].reference.kind, m)
  {
    var records := After(history).records;
    var refs, items := Shown(records, f), Listing(records, f);
    LatestShown(history, f);
    HistoryOk(history);
    var kind := refs[i].kind;
    var m := NewestIsShown(records, f, i);
    OnlyOneOfKind(refs, items, kind, |OfKind(records, kind)|, m);
  }
}
