/** Keyset paging over a user's sessions (records_store.py, `list_sessions`;
    sessions_api.py). */
module Paging {
  import opened Common

  /** A session row's key and owner; ids are numbered in text order. */
  datatype Row = Row(user: nat, updatedAt: int, id: nat)
  datatype Key = Key(updatedAt: int, id: nat)

  function KeyOf(r: Row): Key { Key(r.updatedAt, r.id) }

  predicate Less(a: Key, b: Key) { a.updatedAt < b.updatedAt || (a.updatedAt == b.updatedAt && a.id < b.id) }

  /** The `where` clause. */
  predicate Selects(user: nat, before: Option<Key>, r: Row) {
    r.user == user && (before.Some? ==> Less(KeyOf(r), before.value))
  }

  function Where(rows: seq<Row>, user: nat, before: Option<Key>): seq<Row> {
    if rows == [] then []
    else
      var init, r := Where(rows[..|rows| - 1], user, before), rows[|rows| - 1];
      if Selects(user, before, r) then init + [r] else init
  }

  /** `order by updated_at desc, session_id desc` */
  function Ordered(rows: seq<Row>): seq<Row> {
    if rows == [] then [] else Insert(Ordered(rows[..|rows| - 1]), rows[|rows| - 1])
  }

  function Insert(s: seq<Row>, r: Row): seq<Row> {
    if s == [] || Less(KeyOf(s[0]), KeyOf(r)) then [r] + s else [s[0]] + Insert(s[1..], r)
  }

  ghost predicate Descending(s: seq<Row>) {
    forall i, j :: 0 <= i < j < |s| ==> Less(KeyOf(s[j]), KeyOf(s[i]))
  }

  /** Session ids are unique. */
  ghost predicate UniqueIds(rows: seq<Row>) {
    forall i, j :: 0 <= i < j < |rows| ==> rows[i].id != rows[j].id
  }

  // -- one page ---------------------------------------------------------------------------

  datatype Page = Page(rows: seq<Row>, more: bool)

  function PageOf(table: seq<Row>, user: nat, limit: nat, before: Option<Key>): Page {
    var found := Ordered(Where(table, user, before));
    if |found| > limit then Page(found[..limit], true) else Page(found, false)
  }

  /** At most `limit + 1` rows are fetched; the last one only says there is more. */
  method ListSessions(table: seq<Row>, user: nat, limit: nat, before: Option<Key>) returns (page: seq<Row>, more: bool)
    ensures Page(page, more) == PageOf(table, user, limit, before)
  {
    var found := Ordered(Where(table, user, before));
    var fetched := if |found| > limit + 1 then found[..limit + 1] else found;
    more := |fetched| > limit;
    page := if more then fetched[..limit] else fetched;
  }

  // -- following the cursors -----------------------------------------------------------------

  function CountBefore(table: seq<Row>, user: nat, before: Option<Key>): nat { |Where(table, user, before)| }

  /** Every page's rows, following each page's cursor to the next. */
  function Followed(table: seq<Row>, user: nat, limit: nat, before: Option<Key>): seq<Row>
    requires limit > 0 && UniqueIds(table)
    decreases CountBefore(table, user, before)
  {
    var page := PageOf(table, user, limit, before);
    if !page.more then page.rows
    else
      NextIsRest(table, user, limit, before);
      var next := KeyOf(page.rows[limit - 1]);
      page.rows + Followed(table, user, limit, Some(next))
  }

  lemma {:induction false} WhereUnique(rows: seq<Row>, user: nat, before: Option<Key>)
    requires UniqueIds(rows)
    ensures UniqueIds(Where(rows, user, before))
    ensures forall r :: r in Where(rows, user, before) <==> r in rows && Selects(user, before, r)
  {
    if rows != [] {
      var n := |rows| - 1;
      WhereUnique(rows[..n], user, before);
      assert rows == rows[..n] + [rows[n]];
      forall x | x in Where(rows[..n], user, before) ensures x.id != rows[n].id {
        var i :| 0 <= i < n && rows[..n][i] == x;
      }
    }
  }

  lemma {:induction false} InsertMeaning(s: seq<Row>, r: Row)
    ensures |Insert(s, r)| == |s| + 1 && multiset(Insert(s, r)) == multiset(s) + multiset{r}
    ensures forall x :: x in Insert(s, r) <==> x in s || x == r
    ensures Descending(s) && (forall x :: x in s ==> x.id != r.id) ==> Descending(Insert(s, r))
  {
    if s != [] && !Less(KeyOf(s[0]), KeyOf(r)) {
      InsertMeaning(s[1..], r);
      assert s == [s[0]] + s[1..];
      var t := Insert(s[1..], r);
      if Descending(s) && (forall x :: x in s ==> x.id != r.id) {
        forall x | x in t ensures Less(KeyOf(x), KeyOf(s[0])) {
          if x != r {
            var i :| 0 <= i < |s[1..]| && s[1..][i] == x;
            assert s[i + 1] == x;
          }
        }
      }
    } else if s != [] {
      assert forall x :: x in s && Descending(s) ==> x == s[0] || Less(KeyOf(x), KeyOf(s[0]));
    }
  }

  lemma {:induction false} OrderedMeaning(rows: seq<Row>)
    ensures |Ordered(rows)| == |rows| && multiset(Ordered(rows)) == multiset(rows)
    ensures forall x :: x in Ordered(rows) <==> x in rows
    ensures UniqueIds(rows) ==> Descending(Ordered(rows))
  {
    if rows != [] {
      var n := |rows| - 1;
      OrderedMeaning(rows[..n]);
      InsertMeaning(Ordered(rows[..n]), rows[n]);
      assert rows == rows[..n] + [rows[n]];
      if UniqueIds(rows) {
        forall x | x in Ordered(rows[..n]) ensures x.id != rows[n].id {
          var i :| 0 <= i < n && rows[..n][i] == x;
        }
      }
    }
  }

  /** A strictly descending list is determined by its members. */
  lemma {:induction false} DescendingUnique(s: seq<Row>, t: seq<Row>)
    requires Descending(s) && Descending(t) && forall x :: x in s <==> x in t
    ensures s == t
  {
    if t != [] {
      assert t[0] in t;
    }
    if s != [] {
      assert s[0] in t && t != [];
      assert t[0] in s;
      assert s[0] == t[0];
      forall x ensures x in s[1..] <==> x in t[1..] {
        assert x in s[1..] ==> x in s && x != s[0];
        assert x in t[1..] ==> x in t && x != t[0];
        assert x in s && x != s[0] ==> x in s[1..];
        assert x in t && x != t[0] ==> x in t[1..];
      }
      DescendingUnique(s[1..], t[1..]);
    }
  }

  lemma BelowIsTail(s: seq<Row>, k: nat, x: Row)
    requires Descending(s) && 0 < k <= |s|
    ensures x in s[k..] <==> x in s && Less(KeyOf(x), KeyOf(s[k - 1]))
  {
    if x in s && Less(KeyOf(x), KeyOf(s[k - 1])) {
      var i :| 0 <= i < |s| && s[i] == x;
      assert i >= k;
      assert s[k..][i - k] == x;
    }
    if x in s[k..] {
      var i :| 0 <= i < |s[k..]| && s[k..][i] == x;
      assert s[k + i] == x;
    }
  }

  /** A query's rows, in order. */
  lemma FoundMeaning(table: seq<Row>, user: nat, before: Option<Key>)
    requires UniqueIds(table)
    ensures var found := Ordered(Where(table, user, before));
      && Descending(found) && |found| == CountBefore(table, user, before)
      && forall r :: r in found <==> r in table && Selects(user, before, r)
  {
    WhereUnique(table, user, before);
    OrderedMeaning(Where(table, user, before));
  }

  /** `updated_at desc, session_id desc` */
  predicate NewerFirst(a: Row, b: Row) { a.updatedAt > b.updatedAt || (a.updatedAt == b.updatedAt && a.id > b.id) }

  /** A page is the user's newest sessions, in order, that are older than the
      cursor; it says there is more exactly when it leaves one of them out. */
  lemma PageMeaning(table: seq<Row>, user: nat, limit: nat, before: Option<Key>)
    requires UniqueIds(table)
    ensures var page := PageOf(table, user, limit, before);
      && |page.rows| <= limit
      && (forall i, j :: 0 <= i < j < |page.rows| ==> NewerFirst(page.rows[i], page.rows[j]))
      && (forall r :: r in page.rows ==> r in table && r.user == user && OlderThan(r, before))
      && (forall r :: r in table && r.user == user && OlderThan(r, before) && r !in page.rows ==>
            |page.rows| == limit && forall i :: 0 <= i < limit ==> NewerFirst(page.rows[i], r))
      && (page.more <==> exists r :: r in table && r.user == user && OlderThan(r, before) && r !in page.rows)
  {
    var found, page := Ordered(Where(table, user, before)), PageOf(table, user, limit, before);
    FoundMeaning(table, user, before);
    forall r | r in table && r.user == user && OlderThan(r, before) && r !in page.rows
        ensures |page.rows| == limit && forall i :: 0 <= i < limit ==> NewerFirst(page.rows[i], r) {
      var j :| 0 <= j < |found| && found[j] == r;
      assert page.more && j >= limit;
    }
    forall r | r in page.rows ensures r in table && r.user == user && OlderThan(r, before) {
      assert r in found;
    }
    if page.more {
      assert found[limit] in found;
      assert forall i :: 0 <= i < limit ==> page.rows[i] == found[i] != found[limit];
    }
  }

  predicate OlderThan(r: Row, before: Option<Key>) {
    before.Some? ==>
      r.updatedAt < before.value.updatedAt || (r.updatedAt == before.value.updatedAt && r.id < before.value.id)
  }

  lemma SelectsBelow(user: nat, before: Option<Key>, last: Row, r: Row)
    requires Selects(user, before, last)
    ensures Selects(user, Some(KeyOf(last)), r) <==> Selects(user, before, r) && Less(KeyOf(r), KeyOf(last))
  {
  }

  /** The rows below a page's last key are the rows after that page. */
  lemma NextIsRest(table: seq<Row>, user: nat, limit: nat, before: Option<Key>)
    requires limit > 0 && UniqueIds(table) && PageOf(table, user, limit, before).more
    ensures var found := Ordered(Where(table, user, before));
      && |found| > limit && Ordered(Where(table, user, Some(KeyOf(found[limit - 1])))) == found[limit..]
      && CountBefore(table, user, Some(KeyOf(found[limit - 1]))) < CountBefore(table, user, before)
  {
    var found := Ordered(Where(table, user, before));
    var last := found[limit - 1];
    var next := Ordered(Where(table, user, Some(KeyOf(last))));
    FoundMeaning(table, user, before);
    FoundMeaning(table, user, Some(KeyOf(last)));
    assert last in found;
    forall x ensures x in next <==> x in found[limit..] {
      BelowIsTail(found, limit, x);
      SelectsBelow(user, before, last, x);
    }
    assert Descending(found[limit..]);
    DescendingUnique(next, found[limit..]);
  }

  lemma {:induction false} FollowedIsAll(table: seq<Row>, user: nat, limit: nat, before: Option<Key>)
    requires limit > 0 && UniqueIds(table)
    ensures Followed(table, user, limit, before) == Ordered(Where(table, user, before))
    decreases CountBefore(table, user, before)
  {
    var found := Ordered(Where(table, user, before));
    if |found| > limit {
      NextIsRest(table, user, limit, before);
      var next := Some(KeyOf(found[limit - 1]));
      FollowedIsAll(table, user, limit, next);
      assert PageOf(table, user, limit, before) == Page(found[..limit], true);
      assert Followed(table, user, limit, before) == found[..limit] + Followed(table, user, limit, next);
      assert found == found[..limit] + found[limit..];
    }
  }

  /** Following the cursors over a fixed table visits every session of the user
      exactly once, newest first, and no session of anybody else. */
  lemma CursorsVisitEachSessionOnce(table: seq<Row>, user: nat, limit: nat)
    requires limit > 0 && UniqueIds(table)
    ensures var all := Followed(table, user, limit, None);
      && (forall i, j :: 0 <= i < j < |all| ==> NewerFirst(all[i], all[j]))
      && (forall r :: r in all <==> r in table && r.user == user)
      && |all| == |Where(table, user, None)|
  {
    FollowedIsAll(table, user, limit, None);
    FoundMeaning(table, user, None);
  }
}
