/** Keyset paging: list and listOwned. */
module Paging {
  import opened Basics
  import opened JobRow

  /** What the opaque cursor text encodes. */
  datatype Cursor = Cursor(createdAt: Time, id: JobId)

  datatype Query = Query(userId: UserId, repositoryId: Option<RepositoryId>, status: Option<Status>, limit: nat)

  datatype Page = Page(items: seq<JobId>, nextCursor: Option<Cursor>)

  function CursorOf(jobs: map<JobId, Job>, j: JobId): Cursor
    requires j in jobs
  {
    Cursor(jobs[j].createdAt, j)
  }

  /** Newest first; equal timestamps by descending id. */
  predicate Precedes(a: Cursor, b: Cursor) {
    a.createdAt > b.createdAt || (a.createdAt == b.createdAt && a.id > b.id)
  }

  predicate Matches(job: Job, q: Query) {
    && job.userId == q.userId
    && (q.repositoryId.Some? ==> job.repositoryId == q.repositoryId.value)
    && (q.status.Some? ==> job.status == q.status.value)
  }

  /** The WHERE clause of listOwned. */
  predicate Selected(jobs: map<JobId, Job>, q: Query, cursor: Option<Cursor>, j: JobId) {
    && j in jobs && Matches(jobs[j], q)
    && (cursor.Some? ==>
          || jobs[j].createdAt < cursor.value.createdAt
          || (jobs[j].createdAt == cursor.value.createdAt && j < cursor.value.id))
  }

  function Rows(jobs: map<JobId, Job>, q: Query, cursor: Option<Cursor>): (rows: set<JobId>)
    ensures rows <= jobs.Keys
  {
    set j | j in jobs && Selected(jobs, q, cursor, j)
  }

  predicate InOrder(jobs: map<JobId, Job>, ids: seq<JobId>)
    requires forall j | j in ids :: j in jobs
  {
    forall a, b | 0 <= a < b < |ids| :: Precedes(CursorOf(jobs, ids[a]), CursorOf(jobs, ids[b]))
  }

  ghost predicate Lists(jobs: map<JobId, Job>, ids: seq<JobId>, rows: set<JobId>) {
    rows <= jobs.Keys && (forall j :: j in ids <==> j in rows) && InOrder(jobs, ids)
  }

  ghost predicate IsFirst(jobs: map<JobId, Job>, rows: set<JobId>, first: JobId)
    requires rows <= jobs.Keys && first in rows
  {
    forall j | j in rows && j != first :: Precedes(CursorOf(jobs, first), CursorOf(jobs, j))
  }

  lemma {:induction false} FirstExists(jobs: map<JobId, Job>, rows: set<JobId>) returns (first: JobId)
    requires rows != {} && rows <= jobs.Keys
    ensures first in rows && IsFirst(jobs, rows, first)
    decreases |rows|
  {
    first :| first in rows;
    if rows != {first} {
      var rest := FirstExists(jobs, rows - {first});
      if Precedes(CursorOf(jobs, rest), CursorOf(jobs, first)) {
        first := rest;
      }
    }
  }

  ghost function First(jobs: map<JobId, Job>, rows: set<JobId>): (first: JobId)
    requires rows != {} && rows <= jobs.Keys
    ensures first in rows && IsFirst(jobs, rows, first)
  {
    assert exists first :: first in rows && IsFirst(jobs, rows, first) by {
      var first := FirstExists(jobs, rows);
    }
    var first :| first in rows && IsFirst(jobs, rows, first);
    first
  }

  lemma ListsAfterFirst(jobs: map<JobId, Job>, first: JobId, rest: seq<JobId>, rows: set<JobId>)
    requires rows <= jobs.Keys && first in rows && Lists(jobs, rest, rows - {first})
    requires IsFirst(jobs, rows, first)
    ensures Lists(jobs, [first] + rest, rows)
  {
    hide Precedes;
    var ids := [first] + rest;
    forall a, b | 0 <= a < b < |ids| ensures Precedes(CursorOf(jobs, ids[a]), CursorOf(jobs, ids[b])) {
      assert ids[b] == rest[b - 1] && rest[b - 1] in rest;
      assert a > 0 ==> ids[a] == rest[a - 1];
    }
  }

  /** ORDER BY createdAt DESC, id DESC. */
  ghost function Ordered(jobs: map<JobId, Job>, rows: set<JobId>): (ids: seq<JobId>)
    requires rows <= jobs.Keys
    ensures Lists(jobs, ids, rows)
    decreases |rows|
  {
    if rows == {} then []
    else
      var first := First(jobs, rows);
      var rest := Ordered(jobs, rows - {first});
      ListsAfterFirst(jobs, first, rest, rows);
      [first] + rest
  }

  /** A set of rows has only one ordering. */
  lemma {:induction false} OrderingIsUnique(jobs: map<JobId, Job>, a: seq<JobId>, b: seq<JobId>, rows: set<JobId>)
    requires Lists(jobs, a, rows) && Lists(jobs, b, rows)
    ensures a == b
    decreases |rows|
  {
    if a == [] {
      HeadIn(b);
    } else {
      assert a[0] in rows && a[0] in b && b[0] in rows && b[0] in a;
      SameFirst(jobs, a, b);
      DropFirst(jobs, a, rows);
      DropFirst(jobs, b, rows);
      OrderingIsUnique(jobs, a[1..], b[1..], rows - {a[0]});
    }
  }

  lemma HeadIn(ids: seq<JobId>)
    ensures ids == [] || ids[0] in ids
  {
  }

  lemma PrecedesAt(jobs: map<JobId, Job>, ids: seq<JobId>, a: nat, b: nat)
    requires (forall j | j in ids :: j in jobs) && InOrder(jobs, ids)
    ensures a < b < |ids| ==> Precedes(CursorOf(jobs, ids[a]), CursorOf(jobs, ids[b]))
  {
  }

  lemma SameFirst(jobs: map<JobId, Job>, a: seq<JobId>, b: seq<JobId>)
    requires (forall j | j in a :: j in jobs) && (forall j | j in b :: j in jobs) && InOrder(jobs, a)
    requires InOrder(jobs, b)
    requires a != [] && b != [] && a[0] in b && b[0] in a
    ensures a[0] == b[0]
  {
    var i :| 0 <= i < |a| && a[i] == b[0];
    var k :| 0 <= k < |b| && b[k] == a[0];
  }

  lemma DropFirst(jobs: map<JobId, Job>, a: seq<JobId>, rows: set<JobId>)
    requires Lists(jobs, a, rows) && a != []
    ensures Lists(jobs, a[1..], rows - {a[0]})
  {
    assert a == [a[0]] + a[1..];
    assert forall i | 0 <= i < |a[1..]| :: a[1..][i] == a[i + 1];
    forall i | 0 <= i < |a[1..]| ensures a[1..][i] != a[0] {
      assert Precedes(CursorOf(jobs, a[0]), CursorOf(jobs, a[i + 1]));
    }
  }

  /** listOwned: at most limit + 1 rows past the cursor. */
  ghost function ListOwned(jobs: map<JobId, Job>, q: Query, cursor: Option<Cursor>): seq<JobId> {
    var all := Ordered(jobs, Rows(jobs, q, cursor));
    if |all| > q.limit + 1 then all[..q.limit + 1] else all
  }

  /** list: one page, and a cursor when a row was left over. */
  ghost function List(jobs: map<JobId, Job>, q: Query, cursor: Option<Cursor>): Page {
    var found := ListOwned(jobs, q, cursor);
    var hasNextPage := |found| > q.limit;
    var items := if hasNextPage then found[..q.limit] else found;
    Page(items, if hasNextPage && items != [] then Some(CursorOf(jobs, items[|items| - 1])) else None)
  }

  /** The rows past the last item of a prefix are those of the rest of the ordering. */
  lemma RowsPastPrefix(jobs: map<JobId, Job>, q: Query, cursor: Option<Cursor>, k: nat)
    requires 0 < k <= |Ordered(jobs, Rows(jobs, q, cursor))|
    ensures var all := Ordered(jobs, Rows(jobs, q, cursor));
            Ordered(jobs, Rows(jobs, q, Some(CursorOf(jobs, all[k - 1])))) == all[k..]
  {
    hide Ordered, Selected;
    var rows := Rows(jobs, q, cursor);
    var all := Ordered(jobs, rows);
    assert all[k - 1] in rows;
    var past := Rows(jobs, q, Some(CursorOf(jobs, all[k - 1])));
    forall j ensures j in all[k..] <==> j in past {
      PastMeansLater(jobs, q, cursor, k, j);
    }
    assert forall i | 0 <= i < |all[k..]| :: all[k..][i] == all[k + i];
    OrderingIsUnique(jobs, all[k..], Ordered(jobs, past), past);
  }

  lemma PastMeansLater(jobs: map<JobId, Job>, q: Query, cursor: Option<Cursor>, k: nat, j: JobId)
    requires 0 < k <= |Ordered(jobs, Rows(jobs, q, cursor))|
    ensures var all := Ordered(jobs, Rows(jobs, q, cursor));
            j in all[k..] <==> j in Rows(jobs, q, Some(CursorOf(jobs, all[k - 1])))
  {
    hide Ordered, Precedes, Matches;
    var rows := Rows(jobs, q, cursor);
    var all := Ordered(jobs, rows);
    assert all[k - 1] in rows;
    PastMeansPreceded(jobs, q, cursor, all[k - 1], j);
    LaterMeansPreceded(jobs, all, k, j);
  }

  /** The keyset condition is the order itself, on the rows that the query selects. */
  lemma PastMeansPreceded(jobs: map<JobId, Job>, q: Query, cursor: Option<Cursor>, last: JobId, j: JobId)
    requires last in Rows(jobs, q, cursor)
    ensures j in Rows(jobs, q, Some(CursorOf(jobs, last))) <==>
            j in Rows(jobs, q, cursor) && Precedes(CursorOf(jobs, last), CursorOf(jobs, j))
  {
  }

  /** In an ordering, what an item precedes is what follows it. */
  lemma LaterMeansPreceded(jobs: map<JobId, Job>, all: seq<JobId>, k: nat, j: JobId)
    requires (forall i | i in all :: i in jobs) && InOrder(jobs, all) && 0 < k <= |all|
    ensures j in all[k..] <==> j in all && Precedes(CursorOf(jobs, all[k - 1]), CursorOf(jobs, j))
  {
    if j in all[k..] {
      var i :| 0 <= i < |all[k..]| && all[k..][i] == j;
      assert all[k + i] == j;
      PrecedesAt(jobs, all, k - 1, k + i);
    }
    if j in all && Precedes(CursorOf(jobs, all[k - 1]), CursorOf(jobs, j)) {
      var i :| 0 <= i < |all| && all[i] == j;
      PrecedesAt(jobs, all, i, k - 1);
      assert all[k..][i - k] == j;
    }
  }

  /** A page is a prefix of what is past its cursor, and its next cursor is its last item. */
  lemma PageOf(jobs: map<JobId, Job>, q: Query, cursor: Option<Cursor>)
    requires q.limit > 0
    ensures var all := Ordered(jobs, Rows(jobs, q, cursor));
            List(jobs, q, cursor) ==
            if |all| > q.limit then Page(all[..q.limit], Some(CursorOf(jobs, all[q.limit - 1]))) else Page(all, None)
  {
    hide Ordered, Rows;
    var all := Ordered(jobs, Rows(jobs, q, cursor));
    assert |all| > q.limit + 1 ==> all[..q.limit + 1][..q.limit] == all[..q.limit];
  }

  /** What lies past a page is shorter than what the page was taken from. */
  lemma NextPageIsSmaller(jobs: map<JobId, Job>, q: Query, cursor: Option<Cursor>)
    requires q.limit > 0 && List(jobs, q, cursor).nextCursor.Some?
    ensures |Ordered(jobs, Rows(jobs, q, List(jobs, q, cursor).nextCursor))| < |Ordered(jobs, Rows(jobs, q, cursor))|
  {
    hide Ordered, Rows, List, InOrder, Lists;
    PageOf(jobs, q, cursor);
    RowsPastPrefix(jobs, q, cursor, q.limit);
  }

  /** Following nextCursor until it is null. */
  ghost function FollowPages(jobs: map<JobId, Job>, q: Query, cursor: Option<Cursor>): (items: seq<JobId>)
    requires q.limit > 0
    decreases |Ordered(jobs, Rows(jobs, q, cursor))|
  {
    hide Ordered, Rows, List, InOrder, Lists;
    var page := List(jobs, q, cursor);
    if page.nextCursor.None? then page.items
    else
      NextPageIsSmaller(jobs, q, cursor);
      page.items + FollowPages(jobs, q, page.nextCursor)
  }

  /**
   Following the cursors terminates and yields exactly the matching jobs in order: none skipped, none repeated, ties
   included.
   */
  lemma {:induction false} PagesMakeTheList(jobs: map<JobId, Job>, q: Query, cursor: Option<Cursor>)
    requires q.limit > 0
    ensures FollowPages(jobs, q, cursor) == Ordered(jobs, Rows(jobs, q, cursor))
    decreases |Ordered(jobs, Rows(jobs, q, cursor))|
  {
    hide Ordered, Rows, List;
    PageOf(jobs, q, cursor);
    var all := Ordered(jobs, Rows(jobs, q, cursor));
    if |all| > q.limit {
      RowsPastPrefix(jobs, q, cursor, q.limit);
      PagesMakeTheList(jobs, q, Some(CursorOf(jobs, all[q.limit - 1])));
    }
  }

  /**
   What the pages hold together: the user's jobs that pass the filters, newest first, equal times by descending id.
   */
  lemma PagesMeanTheQuery(jobs: map<JobId, Job>, q: Query)
    requires q.limit > 0
    ensures var items := FollowPages(jobs, q, None);
            && (forall j :: j in items <==>
                  && j in jobs && jobs[j].userId == q.userId
                  && (q.repositoryId.None? || jobs[j].repositoryId == q.repositoryId.value)
                  && (q.status.None? || jobs[j].status == q.status.value))
            && (forall a, b | 0 <= a < b < |items| ::
                  && items[a] in jobs && items[b] in jobs && items[a] != items[b]
                  && jobs[items[a]].createdAt >= jobs[items[b]].createdAt
                  && (jobs[items[a]].createdAt == jobs[items[b]].createdAt ==> items[a] > items[b]))
  {
    hide Ordered, FollowPages;
    PagesMakeTheList(jobs, q, None);
    var items := FollowPages(jobs, q, None);
    assert Lists(jobs, items, Rows(jobs, q, None));
    forall a, b | 0 <= a < b < |items|
      ensures items[a] in jobs && items[b] in jobs && Precedes(CursorOf(jobs, items[a]), CursorOf(jobs, items[b]))
    {
      assert items[a] in items && items[b] in items;
      PrecedesAt(jobs, items, a, b);
    }
  }

  /** No page is longer than the limit, and only the last one is shorter. */
  lemma PageSize(jobs: map<JobId, Job>, q: Query, cursor: Option<Cursor>)
    requires q.limit > 0
    ensures var page := List(jobs, q, cursor);
            && |page.items| <= q.limit && (page.nextCursor.Some? <==> |Rows(jobs, q, cursor)| > q.limit)
            && (page.nextCursor.Some? ==> |page.items| == q.limit)
            && |ListOwned(jobs, q, cursor)| <= q.limit + 1
  {
    hide Ordered, Rows, List;
    PageOf(jobs, q, cursor);
    OrderedSize(jobs, Rows(jobs, q, cursor));
  }

  lemma {:induction false} OrderedSize(jobs: map<JobId, Job>, rows: set<JobId>)
    requires rows <= jobs.Keys
    ensures |Ordered(jobs, rows)| == |rows|
    decreases |rows|
  {
    if rows != {} {
      var ids := Ordered(jobs, rows);
      assert ids != [] && ids[0] in rows by {
        var first :| first in rows;
        assert first in ids;
        assert ids[0] in ids;
      }
      DropFirst(jobs, ids, rows);
      OrderingIsUnique(jobs, ids[1..], Ordered(jobs, rows - {ids[0]}), rows - {ids[0]});
      OrderedSize(jobs, rows - {ids[0]});
    }
  }
}
