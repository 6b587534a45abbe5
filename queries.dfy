/** The post queries of the service: the constraint list `getFilteredPosts` builds from the filters
    (lib/services/communityService.ts:74-105), the fixed query of `getAllPosts`
    (lib/services/communityService.ts:42-50) and the cursor both return with a page
    (lib/services/communityService.ts:60-62, 115-117). Which documents a query selects is decided by
    the database and is not part of this model. */
module Queries {
  import opened Types

  /** The number of posts a page asks for by default. */
  const PageSize := 20

  /** A page cursor: the last document snapshot of a page, named by its document id. */
  datatype Cursor = Cursor(docId: string)

  /** One query constraint, in the form the source pushes it. */
  datatype Constraint =
    | WhereKind(kind: PostType)
    | WhereStatus(status: PostStatus)
    | WhereAuthor(authorId: string)
    | WhereTagsAny(tags: seq<string>)
    | OrderBy(field: SortField, order: SortOrder)
    | StartAfter(cursor: Cursor)
    | Limit(size: int)

  /** The position a constraint of each kind takes in a filtered query. */
  function Rank(c: Constraint): nat {
    match c
    case WhereKind(_) => 0
    case WhereStatus(_) => 1
    case WhereAuthor(_) => 2
    case WhereTagsAny(_) => 3
    case OrderBy(_, _) => 4
    case StartAfter(_) => 5
    case Limit(_) => 6
  }

  /** Each constraint has a larger rank than every constraint before it. */
  predicate RankOrdered(r: seq<Constraint>) {
    forall i, j :: 0 <= i < j < |r| ==> Rank(r[i]) < Rank(r[j])
  }

  /** `constraints.push(c)` when the source's condition holds. */
  function PushIf(r: seq<Constraint>, cond: bool, c: Constraint): seq<Constraint> {
    if cond then r + [c] else r
  }

  /** Pushing a constraint of a larger rank than all before it keeps the list rank-ordered. */
  lemma PushOrdered(r: seq<Constraint>, cond: bool, c: Constraint)
    requires RankOrdered(r) && forall x :: x in r ==> Rank(x) < Rank(c)
    ensures RankOrdered(PushIf(r, cond, c))
    ensures forall x :: x in PushIf(r, cond, c) ==> Rank(x) <= Rank(c)
  {
    if cond {
      var r' := r + [c];
      forall i, j | 0 <= i < j < |r'| ensures Rank(r'[i]) < Rank(r'[j]) {
        if j == |r| {
          assert r'[i] in r;
        } else {
          assert r'[i] == r[i] && r'[j] == r[j];
        }
      }
    }
  }

  /** In a rank-ordered list no two constraints share a kind. */
  lemma RankDistinct(r: seq<Constraint>, x: Constraint, y: Constraint)
    requires RankOrdered(r) && x in r && y in r && Rank(x) == Rank(y)
    ensures x == y
  {
    var i :| 0 <= i < |r| && r[i] == x;
    var j :| 0 <= j < |r| && r[j] == y;
    assert !(i < j) && !(j < i);
  }

  /** The `where` part of a filtered query: each present filter in a fixed order; an empty author id
      and an empty tag list are falsy and add nothing. */
  function Wheres(f: Filters): seq<Constraint> {
    var r1 := PushIf([], f.kind.Some?, WhereKind(if f.kind.Some? then f.kind.value else Review));
    var r2 := PushIf(r1, f.status.Some?, WhereStatus(if f.status.Some? then f.status.value else Hot));
    var r3 := PushIf(r2, f.authorId.Some? && f.authorId.value != "", WhereAuthor(if f.authorId.Some? then f.authorId.value else ""));
    PushIf(r3, f.tags.Some? && |f.tags.value| > 0, WhereTagsAny(if f.tags.Some? then f.tags.value else []))
  }

  /** The `where` part is rank-ordered and holds only `where` constraints. */
  lemma WheresOrdered(f: Filters)
    ensures RankOrdered(Wheres(f))
    ensures forall x :: x in Wheres(f) ==> Rank(x) <= 3
  {
    var r1 := PushIf([], f.kind.Some?, WhereKind(if f.kind.Some? then f.kind.value else Review));
    PushOrdered([], f.kind.Some?, WhereKind(if f.kind.Some? then f.kind.value else Review));
    var r2 := PushIf(r1, f.status.Some?, WhereStatus(if f.status.Some? then f.status.value else Hot));
    PushOrdered(r1, f.status.Some?, WhereStatus(if f.status.Some? then f.status.value else Hot));
    var authored := f.authorId.Some? && f.authorId.value != "";
    var r3 := PushIf(r2, authored, WhereAuthor(if f.authorId.Some? then f.authorId.value else ""));
    PushOrdered(r2, authored, WhereAuthor(if f.authorId.Some? then f.authorId.value else ""));
    var tagged := f.tags.Some? && |f.tags.value| > 0;
    var t := WhereTagsAny(if f.tags.Some? then f.tags.value else []);
    PushOrdered(r3, tagged, t);
    assert Rank(t) == 3;
  }

  /** A `where` constraint is there exactly when its filter is present and truthy. */
  lemma WheresSelect(f: Filters)
    ensures forall k :: WhereKind(k) in Wheres(f) <==> f.kind == Some(k)
    ensures forall s :: WhereStatus(s) in Wheres(f) <==> f.status == Some(s)
    ensures forall a :: WhereAuthor(a) in Wheres(f) <==> f.authorId == Some(a) && a != ""
    ensures forall t :: WhereTagsAny(t) in Wheres(f) <==> f.tags == Some(t) && |t| > 0
  {
    var r1 := PushIf([], f.kind.Some?, WhereKind(if f.kind.Some? then f.kind.value else Review));
    var r2 := PushIf(r1, f.status.Some?, WhereStatus(if f.status.Some? then f.status.value else Hot));
    var authored := f.authorId.Some? && f.authorId.value != "";
    var r3 := PushIf(r2, authored, WhereAuthor(if f.authorId.Some? then f.authorId.value else ""));
    var tagged := f.tags.Some? && |f.tags.value| > 0;
    var r4 := PushIf(r3, tagged, WhereTagsAny(if f.tags.Some? then f.tags.value else []));
    assert r4 == Wheres(f);
    PushIfMembers([], f.kind.Some?, WhereKind(if f.kind.Some? then f.kind.value else Review));
    PushIfMembers(r1, f.status.Some?, WhereStatus(if f.status.Some? then f.status.value else Hot));
    PushIfMembers(r2, authored, WhereAuthor(if f.authorId.Some? then f.authorId.value else ""));
    PushIfMembers(r3, tagged, WhereTagsAny(if f.tags.Some? then f.tags.value else []));
  }

  lemma PushIfMembers(r: seq<Constraint>, cond: bool, c: Constraint)
    ensures forall x :: x in PushIf(r, cond, c) <==> x in r || (cond && x == c)
  {
  }

  /** The ordering of a filtered query: by `sortBy` when given, in `sortOrder` or else descending;
      without `sortBy`, newest first whatever `sortOrder` says. */
  function Ordering(f: Filters): (c: Constraint)
    ensures c.OrderBy?
    ensures f.sortBy.None? ==> c == OrderBy(ByCreatedAt, Desc)
    ensures f.sortBy.Some? ==> c.field == f.sortBy.value
    ensures f.sortBy.Some? ==> (c.order == Asc <==> f.sortOrder == Some(Asc))
  {
    if f.sortBy.Some? then OrderBy(f.sortBy.value, if f.sortOrder.Some? then f.sortOrder.value else Desc)
    else OrderBy(ByCreatedAt, Desc)
  }

  /** What follows the `where` part: the ordering, the cursor when there is one, and the limit. */
  function Tail(f: Filters, pageSize: int, cursor: Option<Cursor>): seq<Constraint> {
    if cursor.Some? then [Ordering(f), StartAfter(cursor.value), Limit(pageSize)]
    else [Ordering(f), Limit(pageSize)]
  }

  /** Two rank-ordered lists, every rank of the first below every rank of the second, make one. */
  lemma ConcatOrdered(a: seq<Constraint>, b: seq<Constraint>)
    requires RankOrdered(a) && RankOrdered(b)
    requires forall x :: x in a ==> Rank(x) <= 3
    requires forall y :: y in b ==> Rank(y) >= 4
    ensures RankOrdered(a + b)
  {
    var r := a + b;
    forall i, j | 0 <= i < j < |r| ensures Rank(r[i]) < Rank(r[j]) {
      if j < |a| {
        assert r[i] == a[i] && r[j] == a[j];
      } else if i >= |a| {
        assert r[i] == b[i - |a|] && r[j] == b[j - |a|];
      } else {
        assert r[i] in a && r[j] in b;
      }
    }
  }

  /** The whole constraint list of `getFilteredPosts(filters, pageSize, cursor)`. */
  function FilteredConstraints(f: Filters, pageSize: int, cursor: Option<Cursor>): seq<Constraint> {
    Wheres(f) + Tail(f, pageSize, cursor)
  }

  /** The constraints come in the fixed order where-kind, where-status, where-author, where-tags,
      ordering, cursor, limit; the list ends with the limit, holds the ordering, and holds a cursor
      constraint exactly when a cursor is given. */
  lemma FilteredShape(f: Filters, pageSize: int, cursor: Option<Cursor>)
    ensures var r := FilteredConstraints(f, pageSize, cursor);
      RankOrdered(r)
      && |r| >= 2 && r[|r| - 1] == Limit(pageSize)
      && Ordering(f) in r
      && forall c :: StartAfter(c) in r <==> cursor == Some(c)
  {
    WheresOrdered(f);
    TailShape(Wheres(f), f, pageSize, cursor);
  }

  /** The shape of any `where` part followed by the tail. */
  lemma TailShape(w: seq<Constraint>, f: Filters, pageSize: int, cursor: Option<Cursor>)
    requires RankOrdered(w) && forall x :: x in w ==> Rank(x) <= 3
    ensures var r := w + Tail(f, pageSize, cursor);
      RankOrdered(r)
      && |r| >= 2 && r[|r| - 1] == Limit(pageSize)
      && Ordering(f) in r
      && forall c :: StartAfter(c) in r <==> cursor == Some(c)
  {
    var t := Tail(f, pageSize, cursor);
    var r := w + t;
    assert RankOrdered(t);
    ConcatOrdered(w, t);
    assert r[|w|] == Ordering(f);
    forall c ensures StartAfter(c) in r <==> cursor == Some(c) {
      assert StartAfter(c) !in w by { assert Rank(StartAfter(c)) == 5; }
    }
  }

  /** The source's pushes of the `where` constraints onto an initially empty list. */
  method PushWheres(f: Filters) returns (cs: seq<Constraint>)
    ensures cs == Wheres(f)
  {
    cs := [];
    if f.kind.Some? {
      cs := cs + [WhereKind(f.kind.value)];
    }
    if f.status.Some? {
      cs := cs + [WhereStatus(f.status.value)];
    }
    if f.authorId.Some? && f.authorId.value != "" {
      cs := cs + [WhereAuthor(f.authorId.value)];
    }
    if f.tags.Some? && |f.tags.value| > 0 {
      cs := cs + [WhereTagsAny(f.tags.value)];
    }
  }

  /** The source's sequence of pushes: the `where` constraints, then the ordering, the cursor and
      the limit. */
  method BuildFilteredConstraints(f: Filters, pageSize: int, cursor: Option<Cursor>) returns (cs: seq<Constraint>)
    ensures cs == FilteredConstraints(f, pageSize, cursor)
  {
    cs := PushWheres(f);
    ghost var w := cs;
    if f.sortBy.Some? {
      cs := cs + [OrderBy(f.sortBy.value, if f.sortOrder.Some? then f.sortOrder.value else Desc)];
    } else {
      cs := cs + [OrderBy(ByCreatedAt, Desc)];
    }
    if cursor.Some? {
      cs := cs + [StartAfter(cursor.value)];
    }
    cs := cs + [Limit(pageSize)];
    if cursor.Some? {
      assert cs == w + [Ordering(f), StartAfter(cursor.value), Limit(pageSize)];
    } else {
      assert cs == w + [Ordering(f), Limit(pageSize)];
    }
  }

  /** Every filtered query has exactly one ordering, one limit and at most one cursor. */
  lemma OneOrderingOneLimit(f: Filters, pageSize: int, cursor: Option<Cursor>, x: Constraint)
    requires x in FilteredConstraints(f, pageSize, cursor)
    ensures x.OrderBy? ==> x == Ordering(f)
    ensures x.Limit? ==> x == Limit(pageSize)
  {
    var r := FilteredConstraints(f, pageSize, cursor);
    FilteredShape(f, pageSize, cursor);
    if x.OrderBy? {
      RankDistinct(r, x, Ordering(f));
    }
    if x.Limit? {
      RankDistinct(r, x, r[|r| - 1]);
    }
  }

  /** The query of `getAllPosts`: newest first, one page, after the cursor when there is one. */
  function AllPostsConstraints(pageSize: int, cursor: Option<Cursor>): seq<Constraint> {
    [OrderBy(ByCreatedAt, Desc), Limit(pageSize)] + (if cursor.Some? then [StartAfter(cursor.value)] else [])
  }

  /** `getAllPosts` is the filtered query with no filter: the same constraints, listed in another order. */
  lemma AllPostsIsUnfiltered(pageSize: int, cursor: Option<Cursor>)
    ensures multiset(AllPostsConstraints(pageSize, cursor)) == multiset(FilteredConstraints(NoFilters, pageSize, cursor))
  {
    assert Wheres(NoFilters) == [];
  }

  /** Filters that add no `where` constraint and no ordering other than the default give the
      unfiltered query, even though they count as present filters. */
  lemma FalsyFiltersSelectNothing(pageSize: int, cursor: Option<Cursor>)
    ensures var f := NoFilters.(authorId := Some(""), tags := Some([]), sortOrder := Some(Asc));
      KeyCount(f) == 3 && FilteredConstraints(f, pageSize, cursor) == FilteredConstraints(NoFilters, pageSize, cursor)
  {
    var f := NoFilters.(authorId := Some(""), tags := Some([]), sortOrder := Some(Asc));
    assert Wheres(f) == [];
  }

  /** A request for one page of posts, as the store issues it. */
  datatype PageRequest =
    | AllPosts(pageSize: int, after: Option<Cursor>)
    | Filtered(filters: Filters, pageSize: int, after: Option<Cursor>)

  function RequestConstraints(q: PageRequest): seq<Constraint> {
    match q
    case AllPosts(n, c) => AllPostsConstraints(n, c)
    case Filtered(f, n, c) => FilteredConstraints(f, n, c)
  }

  /** A page of posts together with the cursor for the next one. */
  datatype Page = Page(posts: seq<Post>, lastDoc: Option<Cursor>)

  /** `docs[docs.length - 1] || null`: the cursor is the last document of the page, none when empty. */
  function PageOf(docs: seq<Post>): (p: Page)
    ensures p.posts == docs
    ensures p.lastDoc.None? <==> docs == []
    ensures p.lastDoc.Some? ==> p.lastDoc.value == Cursor(docs[|docs| - 1].id)
  {
    Page(docs, if docs == [] then None else Some(Cursor(docs[|docs| - 1].id)))
  }

  /** Reading two pages back to back leaves the cursor of the second one, unless it was empty. */
  lemma CursorOfConcatenation(a: seq<Post>, b: seq<Post>)
    ensures PageOf(a + b).lastDoc == if b == [] then PageOf(a).lastDoc else PageOf(b).lastDoc
  {
    if b == [] {
      assert a + b == a;
    } else {
      assert (a + b)[|a + b| - 1] == b[|b| - 1];
    }
  }

  /** The store keeps asking for more exactly while pages come back full. */
  predicate MorePosts(page: seq<Post>) {
    |page| == PageSize
  }
}
