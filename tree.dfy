/** The cached comment tree of the community store and its three recursive helpers: attaching a new
    comment (lib/stores/communityStore.ts:465-472), updating or like-toggling a comment wherever it
    sits (lib/stores/communityStore.ts:505-518, 582-604) and removing a comment with everything under
    it (lib/stores/communityStore.ts:539-549).

    A tree is a `seq<Comment>` whose elements carry their `replies`. Facts about a whole tree are
    stated over its preorder listing `Flat`, in which every comment appears with its replies cut off. */
module CommentTree {
  import opened Types
  import opened Likes

  /** A comment without its replies: what one position of the preorder listing holds. */
  function Node(c: Comment): Comment {
    c.(replies := [])
  }

  /** The preorder listing of a forest: each comment, then its replies, then its next sibling. */
  function Flat(ts: seq<Comment>): seq<Comment>
    decreases ts
  {
    if ts == [] then [] else FlatOne(ts[0]) + Flat(ts[1..])
  }

  function FlatOne(c: Comment): seq<Comment>
    decreases c
  {
    [Node(c)] + Flat(c.replies)
  }

  /** The ids of a listing, in order. */
  function IdList(ns: seq<Comment>): (r: seq<string>)
    ensures |r| == |ns|
  {
    if ns == [] then [] else [ns[0].id] + IdList(ns[1..])
  }

  /** Every id in a forest, in preorder. */
  function Ids(ts: seq<Comment>): seq<string> {
    IdList(Flat(ts))
  }

  lemma {:induction false} IdListConcat(a: seq<Comment>, b: seq<Comment>)
    ensures IdList(a + b) == IdList(a) + IdList(b)
  {
    if a != [] {
      var ab := a + b;
      assert ab[0] == a[0] && ab[1..] == a[1..] + b;
      IdListConcat(a[1..], b);
      assert IdList(ab) == [a[0].id] + (IdList(a[1..]) + IdList(b));
    } else {
      assert a + b == b;
    }
  }

  lemma {:induction false} FlatConcat(a: seq<Comment>, b: seq<Comment>)
    ensures Flat(a + b) == Flat(a) + Flat(b)
  {
    if a != [] {
      var ab := a + b;
      assert ab[0] == a[0] && ab[1..] == a[1..] + b;
      FlatConcat(a[1..], b);
      assert Flat(ab) == FlatOne(a[0]) + (Flat(a[1..]) + Flat(b));
    } else {
      assert a + b == b;
    }
  }

  /** Splitting a forest into its first tree and the rest splits its ids the same way. */
  lemma IdsCons(ts: seq<Comment>)
    requires ts != []
    ensures Ids(ts) == [ts[0].id] + Ids(ts[0].replies) + Ids(ts[1..])
  {
    IdListConcat(FlatOne(ts[0]), Flat(ts[1..]));
    IdListConcat([Node(ts[0])], Flat(ts[0].replies));
  }

  lemma NoDupSplit(a: seq<string>, b: seq<string>)
    requires NoDup(a + b)
    ensures NoDup(a) && NoDup(b)
    ensures forall x :: x in a ==> x !in b
  {
    forall i, j | 0 <= i < j < |a| ensures a[i] != a[j] {
      assert a[i] == (a + b)[i] && a[j] == (a + b)[j];
    }
    forall i, j | 0 <= i < j < |b| ensures b[i] != b[j] {
      assert b[i] == (a + b)[|a| + i] && b[j] == (a + b)[|a| + j];
    }
    forall i, j | 0 <= i < |a| && 0 <= j < |b| ensures a[i] != b[j] {
      assert a[i] == (a + b)[i] && b[j] == (a + b)[|a| + j];
    }
  }

  // ----- attaching a new comment -----

  /** `state.comments.map(...)`: the top-level comments with id `p` get `n` appended to their replies. */
  function AttachReply(ts: seq<Comment>, p: string, n: Comment): (r: seq<Comment>)
    ensures |r| == |ts|
  {
    if ts == [] then []
    else
      [if ts[0].id == p then ts[0].(replies := ts[0].replies + [n]) else ts[0]]
      + AttachReply(ts[1..], p, n)
  }

  /** Where the store puts a comment it has just created: under the top-level comment its parent id
      names, or at the end of the roots when it has no (or an empty) parent id. */
  function AddToTree(ts: seq<Comment>, n: Comment): seq<Comment> {
    if IsReply(n) then AttachReply(ts, ParentOf(n), n) else ts + [n]
  }

  /** How many top-level comments carry the id `p`. */
  function TopCount(ts: seq<Comment>, p: string): nat {
    if ts == [] then 0 else (if ts[0].id == p then 1 else 0) + TopCount(ts[1..], p)
  }

  lemma {:induction false} AttachSize(ts: seq<Comment>, p: string, n: Comment)
    ensures |Flat(AttachReply(ts, p, n))| == |Flat(ts)| + TopCount(ts, p) * |FlatOne(n)|
  {
    if ts != [] {
      var c := ts[0];
      var r := AttachReply(ts, p, n);
      assert r[1..] == AttachReply(ts[1..], p, n);
      AttachSize(ts[1..], p, n);
      var t := TopCount(ts[1..], p);
      var k := |FlatOne(n)|;
      assert Flat(r) == FlatOne(r[0]) + Flat(r[1..]);
      assert Flat(ts) == FlatOne(c) + Flat(ts[1..]);
      assert TopCount(ts, p) == (if c.id == p then 1 else 0) + t;
      if c.id == p {
        assert r[0] == c.(replies := c.replies + [n]);
        AppendReplySize(c, n);
        OneMoreTimes(t, k);
      } else {
        assert r[0] == c;
      }
    }
  }

  lemma OneMoreTimes(t: nat, k: nat)
    ensures (1 + t) * k == k + t * k
  {
  }

  /** Appending a reply lengthens a tree's listing by the reply's own listing. */
  lemma AppendReplySize(c: Comment, n: Comment)
    ensures |FlatOne(c.(replies := c.replies + [n]))| == |FlatOne(c)| + |FlatOne(n)|
  {
    var c' := c.(replies := c.replies + [n]);
    FlatConcat(c.replies, [n]);
    assert [n][1..] == [];
    assert Flat([n]) == FlatOne(n) + Flat([n][1..]);
    assert FlatOne(c') == [Node(c')] + (Flat(c.replies) + Flat([n]));
  }

  /** A new root is listed last; a new reply is listed once under every top-level comment its parent
      id names, and the tree stays the same size when no top-level comment has that id. */
  lemma AddSize(ts: seq<Comment>, n: Comment)
    ensures !IsReply(n) ==> Flat(AddToTree(ts, n)) == Flat(ts) + FlatOne(n)
    ensures |Flat(AddToTree(ts, n))|
         == |Flat(ts)| + (if IsReply(n) then TopCount(ts, ParentOf(n)) else 1) * |FlatOne(n)|
  {
    if IsReply(n) {
      AttachSize(ts, ParentOf(n), n);
    } else {
      FlatConcat(ts, [n]);
      assert Flat([n]) == FlatOne(n) + Flat([n][1..]);
    }
  }

  /** A reply is attached to top-level comments only: when its parent is itself a reply, the cached
      tree is left exactly as it was and the new comment is not shown until the next fetch. */
  lemma {:induction false} ReplyToNestedIsNotShown(ts: seq<Comment>, n: Comment)
    requires IsReply(n)
    requires forall i :: 0 <= i < |ts| ==> ts[i].id != ParentOf(n)
    ensures AddToTree(ts, n) == ts
  {
    if ts != [] {
      ReplyToNestedIsNotShown(ts[1..], n);
    }
  }

  /** With its parent at the top level, the new reply becomes that comment's last reply and no other
      top-level comment changes. */
  lemma {:induction false} ReplyToRootIsLast(ts: seq<Comment>, n: Comment, i: nat)
    requires IsReply(n) && i < |ts|
    ensures var r := AddToTree(ts, n);
      |r| == |ts|
      && (ts[i].id == ParentOf(n) ==> r[i].replies == ts[i].replies + [n] && r[i].(replies := ts[i].replies) == ts[i])
      && (ts[i].id != ParentOf(n) ==> r[i] == ts[i])
  {
    if i > 0 {
      ReplyToRootIsLast(ts[1..], n, i - 1);
    }
  }

  // ----- updating one comment wherever it sits -----

  /** `Partial<Comment>` restricted to the fields a comment update carries: absent fields are kept. */
  datatype CommentPatch = CommentPatch(content: Option<string>, likes: Option<int>, likedBy: Option<seq<string>>)

  /** What the store does to the comment it finds: merge a patch, or toggle one user's like. */
  datatype Edit = Patch(patch: CommentPatch) | ToggleLike(uid: string)

  /** The edit applied to one comment; only `content`, `likes` and `likedBy` can change. */
  function ApplyEdit(c: Comment, e: Edit): (r: Comment)
    ensures r.(content := c.content, likes := c.likes, likedBy := c.likedBy) == c
    ensures e.ToggleLike? ==> LikeState(r.likes, r.likedBy) == LocalToggle(LikeState(c.likes, c.likedBy), e.uid)
    ensures e.Patch? ==>
      r.content == (if e.patch.content.Some? then e.patch.content.value else c.content)
      && r.likes == (if e.patch.likes.Some? then e.patch.likes.value else c.likes)
      && r.likedBy == (if e.patch.likedBy.Some? then e.patch.likedBy.value else c.likedBy)
  {
    match e
    case Patch(p) =>
      c.(content := if p.content.Some? then p.content.value else c.content,
         likes := if p.likes.Some? then p.likes.value else c.likes,
         likedBy := if p.likedBy.Some? then p.likedBy.value else c.likedBy)
    case ToggleLike(uid) =>
      var s := LocalToggle(LikeState(c.likes, c.likedBy), uid);
      c.(likes := s.likes, likedBy := s.likedBy)
  }

  /** `updateCommentInTree` / `updateCommentLikes`: a comment with the id is edited (its replies are
      not searched further); any other comment with replies has the search repeated in them. */
  function EditAt(ts: seq<Comment>, id: string, e: Edit): (r: seq<Comment>)
    ensures |r| == |ts|
    decreases ts
  {
    if ts == [] then [] else [EditOne(ts[0], id, e)] + EditAt(ts[1..], id, e)
  }

  function EditOne(c: Comment, id: string, e: Edit): Comment
    decreases c
  {
    if c.id == id then ApplyEdit(c, e)
    else if |c.replies| > 0 then c.(replies := EditAt(c.replies, id, e))
    else c
  }

  /** The reference meaning of an edit on a listing: every comment with the id is edited. */
  function EditListed(ns: seq<Comment>, id: string, e: Edit): (r: seq<Comment>)
    ensures |r| == |ns|
  {
    if ns == [] then []
    else [if ns[0].id == id then ApplyEdit(ns[0], e) else ns[0]] + EditListed(ns[1..], id, e)
  }

  lemma {:induction false} EditListedConcat(a: seq<Comment>, b: seq<Comment>, id: string, e: Edit)
    ensures EditListed(a + b, id, e) == EditListed(a, id, e) + EditListed(b, id, e)
  {
    if a != [] {
      var ab := a + b;
      assert ab[0] == a[0] && ab[1..] == a[1..] + b;
      EditListedConcat(a[1..], b, id, e);
      var h := if a[0].id == id then ApplyEdit(a[0], e) else a[0];
      assert EditListed(ab, id, e) == [h] + (EditListed(a[1..], id, e) + EditListed(b, id, e));
    } else {
      assert a + b == b;
    }
  }

  lemma {:induction false} EditListedAbsent(ns: seq<Comment>, id: string, e: Edit)
    requires id !in IdList(ns)
    ensures EditListed(ns, id, e) == ns
  {
    if ns != [] {
      EditListedAbsent(ns[1..], id, e);
    }
  }

  /** When ids are unique, editing the tree is editing the one listed comment with that id: every
      other comment, and the shape of the tree, stay as they were. */
  lemma {:induction false} EditMatchesListing(ts: seq<Comment>, id: string, e: Edit)
    requires NoDup(Ids(ts))
    ensures Flat(EditAt(ts, id, e)) == EditListed(Flat(ts), id, e)
    decreases ts
  {
    if ts != [] {
      var c := ts[0];
      IdsCons(ts);
      NoDupSplit([c.id] + Ids(c.replies), Ids(ts[1..]));
      IdListConcat(FlatOne(c), Flat(ts[1..]));
      EditOneMatchesListing(c, id, e);
      EditMatchesListing(ts[1..], id, e);
      EditListedConcat(FlatOne(c), Flat(ts[1..]), id, e);
      var r := EditAt(ts, id, e);
      assert r[0] == EditOne(c, id, e) && r[1..] == EditAt(ts[1..], id, e);
    }
  }

  lemma {:induction false} EditOneMatchesListing(c: Comment, id: string, e: Edit)
    requires NoDup([c.id] + Ids(c.replies))
    ensures FlatOne(EditOne(c, id, e)) == EditListed(FlatOne(c), id, e)
    decreases c
  {
    NoDupSplit([c.id], Ids(c.replies));
    assert FlatOne(c)[0] == Node(c) && FlatOne(c)[1..] == Flat(c.replies);
    if c.id == id {
      EditListedAbsent(Flat(c.replies), id, e);
      assert Node(ApplyEdit(c, e)) == ApplyEdit(Node(c), e);
    } else if |c.replies| > 0 {
      EditMatchesListing(c.replies, id, e);
    }
  }

  /** For any tree, ids unique or not, an edit keeps every id in its place. */
  lemma {:induction false} EditKeepsIds(ts: seq<Comment>, id: string, e: Edit)
    ensures Ids(EditAt(ts, id, e)) == Ids(ts)
    decreases ts
  {
    if ts != [] {
      var r := EditAt(ts, id, e);
      assert r[0] == EditOne(ts[0], id, e) && r[1..] == EditAt(ts[1..], id, e);
      IdsCons(ts);
      IdsCons(r);
      EditOneKeepsIds(ts[0], id, e);
      EditKeepsIds(ts[1..], id, e);
    }
  }

  lemma {:induction false} EditOneKeepsIds(c: Comment, id: string, e: Edit)
    ensures EditOne(c, id, e).id == c.id
    ensures Ids(EditOne(c, id, e).replies) == Ids(c.replies)
    decreases c
  {
    if c.id != id && |c.replies| > 0 {
      EditKeepsIds(c.replies, id, e);
    }
  }

  /** Every comment's `likes == |likedBy|` holds in the listing. */
  predicate AllConsistent(ns: seq<Comment>) {
    forall k :: 0 <= k < |ns| ==> Consistent(LikeState(ns[k].likes, ns[k].likedBy))
  }

  /** A like toggle in a tree of consistent comments keeps every comment consistent. */
  lemma ToggleKeepsTreeConsistent(ts: seq<Comment>, id: string, uid: string)
    requires NoDup(Ids(ts)) && AllConsistent(Flat(ts))
    ensures AllConsistent(Flat(EditAt(ts, id, ToggleLike(uid))))
  {
    EditMatchesListing(ts, id, ToggleLike(uid));
    ListedToggleConsistent(Flat(ts), id, uid);
  }

  lemma {:induction false} ListedToggleConsistent(ns: seq<Comment>, id: string, uid: string)
    requires AllConsistent(ns)
    ensures AllConsistent(EditListed(ns, id, ToggleLike(uid)))
  {
    if ns != [] {
      ListedToggleConsistent(ns[1..], id, uid);
      ToggleKeepsConsistent(LikeState(ns[0].likes, ns[0].likedBy), uid);
      var r := EditListed(ns, id, ToggleLike(uid));
      forall k | 0 <= k < |r| ensures Consistent(LikeState(r[k].likes, r[k].likedBy)) {
        if k > 0 {
          assert r[k] == EditListed(ns[1..], id, ToggleLike(uid))[k - 1];
          assert ns[1..][k - 1] == ns[k];
        }
      }
    }
  }

  // ----- removing a comment together with its replies -----

  /** `removeCommentFromTree`: comments with the id are filtered out (with everything under them),
      and each kept comment has its replies replaced by their filtered version. */
  function RemoveAll(ts: seq<Comment>, id: string): seq<Comment>
    decreases ts
  {
    if ts == [] then []
    else if ts[0].id == id then RemoveAll(ts[1..], id)
    else [RemoveOne(ts[0], id)] + RemoveAll(ts[1..], id)
  }

  function RemoveOne(c: Comment, id: string): Comment
    decreases c
  {
    if |c.replies| > 0 then c.(replies := RemoveAll(c.replies, id)) else c
  }

  /** After removal the id occurs nowhere in the tree, at any depth. */
  lemma {:induction false} RemoveErases(ts: seq<Comment>, id: string)
    ensures id !in Ids(RemoveAll(ts, id))
    decreases ts
  {
    if ts != [] {
      RemoveErases(ts[1..], id);
      if ts[0].id != id {
        var r := RemoveAll(ts, id);
        assert r[0] == RemoveOne(ts[0], id) && r[1..] == RemoveAll(ts[1..], id);
        IdsCons(r);
        if |ts[0].replies| > 0 {
          RemoveErases(ts[0].replies, id);
        }
      }
    }
  }

  /** Removal invents nothing: every listed comment of the result is a listed comment of the input. */
  lemma {:induction false} RemoveKeepsOnlyExisting(ts: seq<Comment>, id: string)
    ensures forall n :: n in Flat(RemoveAll(ts, id)) ==> n in Flat(ts)
    decreases ts
  {
    if ts != [] {
      RemoveKeepsOnlyExisting(ts[1..], id);
      var c := ts[0];
      assert Flat(ts) == FlatOne(c) + Flat(ts[1..]);
      if c.id != id {
        var r := RemoveAll(ts, id);
        assert r[0] == RemoveOne(c, id) && r[1..] == RemoveAll(ts[1..], id);
        assert Flat(r) == FlatOne(RemoveOne(c, id)) + Flat(RemoveAll(ts[1..], id));
        if |c.replies| > 0 {
          RemoveKeepsOnlyExisting(c.replies, id);
          assert FlatOne(RemoveOne(c, id)) == [Node(c)] + Flat(RemoveAll(c.replies, id));
        }
      }
    }
  }

  /** Removing an id that does not occur changes nothing. */
  lemma {:induction false} RemoveAbsent(ts: seq<Comment>, id: string)
    requires id !in Ids(ts)
    ensures RemoveAll(ts, id) == ts
    decreases ts
  {
    if ts != [] {
      IdsCons(ts);
      RemoveAbsent(ts[1..], id);
      if |ts[0].replies| > 0 {
        RemoveAbsent(ts[0].replies, id);
      }
      assert [ts[0]] + ts[1..] == ts;
    }
  }

  /** How often `x` occurs in `s`. */
  function Occ(s: seq<string>, x: string): (n: nat)
    ensures n <= |s|
  {
    if s == [] then 0 else (if s[0] == x then 1 else 0) + Occ(s[1..], x)
  }

  lemma {:induction false} OccConcat(a: seq<string>, b: seq<string>, x: string)
    ensures Occ(a + b, x) == Occ(a, x) + Occ(b, x)
  {
    if a != [] {
      var ab := a + b;
      assert ab[0] == a[0] && ab[1..] == a[1..] + b;
      OccConcat(a[1..], b, x);
    } else {
      assert a + b == b;
    }
  }

  /** The tree loses at least one comment per occurrence of the id (more when a removed comment had
      replies), although the post's counter goes down by exactly one. */
  lemma {:induction false} RemoveShrinks(ts: seq<Comment>, id: string)
    ensures |Flat(RemoveAll(ts, id))| + Occ(Ids(ts), id) <= |Flat(ts)|
    decreases ts
  {
    if ts != [] {
      var c := ts[0];
      IdsCons(ts);
      OccConcat([c.id] + Ids(c.replies), Ids(ts[1..]), id);
      OccConcat([c.id], Ids(c.replies), id);
      RemoveShrinks(ts[1..], id);
      if c.id != id {
        var r := RemoveAll(ts, id);
        assert r[0] == RemoveOne(c, id) && r[1..] == RemoveAll(ts[1..], id);
        if |c.replies| > 0 {
          RemoveShrinks(c.replies, id);
        }
      }
    }
  }

  /** At the top level, removal keeps exactly the comments with another id, in their order (their ids
      are the top-level ids with `id` filtered out), each with its own replies pruned. */
  lemma {:induction false} RemoveTopLevel(ts: seq<Comment>, id: string)
    ensures |RemoveAll(ts, id)| == |ts| - TopCount(ts, id)
    ensures IdList(RemoveAll(ts, id)) == ArrayRemove(IdList(ts), id)
    ensures forall k :: 0 <= k < |RemoveAll(ts, id)| ==>
      exists j :: 0 <= j < |ts| && ts[j].id != id && RemoveAll(ts, id)[k] == RemoveOne(ts[j], id)
    decreases ts
  {
    if ts != [] {
      RemoveTopLevel(ts[1..], id);
      var r, rest := RemoveAll(ts, id), RemoveAll(ts[1..], id);
      assert IdList(ts)[0] == ts[0].id && IdList(ts)[1..] == IdList(ts[1..]);
      forall k | 0 <= k < |r|
        ensures exists j :: 0 <= j < |ts| && ts[j].id != id && r[k] == RemoveOne(ts[j], id)
      {
        if ts[0].id != id && k == 0 {
          assert r[0] == RemoveOne(ts[0], id);
        } else {
          var k' := if ts[0].id == id then k else k - 1;
          assert r[k] == rest[k'];
          var j :| 0 <= j < |ts[1..]| && ts[1..][j].id != id && rest[k'] == RemoveOne(ts[1..][j], id);
          assert ts[j + 1] == ts[1..][j];
        }
      }
    }
  }

  /** The listed comments removal takes away: the whole listing of each outermost comment carrying
      the id, that is the comment and everything under it. */
  function Cut(ts: seq<Comment>, id: string): seq<Comment>
    decreases ts
  {
    if ts == [] then []
    else (if ts[0].id == id then FlatOne(ts[0]) else Cut(ts[0].replies, id)) + Cut(ts[1..], id)
  }

  /** One step of removal, on the listing: a kept first comment is listed, then its pruned replies,
      then the pruned rest. */
  lemma RemoveCons(ts: seq<Comment>, id: string)
    requires ts != [] && ts[0].id != id
    ensures Flat(RemoveAll(ts, id)) == [Node(ts[0])] + Flat(RemoveAll(ts[0].replies, id)) + Flat(RemoveAll(ts[1..], id))
  {
    var r := RemoveAll(ts, id);
    assert r[0] == RemoveOne(ts[0], id) && r[1..] == RemoveAll(ts[1..], id);
    assert Flat(r) == FlatOne(RemoveOne(ts[0], id)) + Flat(RemoveAll(ts[1..], id));
  }

  /** The listing splits exactly into what stays and what is cut. */
  lemma {:induction false} RemoveSplitsListing(ts: seq<Comment>, id: string)
    ensures multiset(Flat(ts)) == multiset(Flat(RemoveAll(ts, id))) + multiset(Cut(ts, id))
    decreases ts
  {
    if ts != [] {
      var c := ts[0];
      RemoveSplitsListing(ts[1..], id);
      assert Flat(ts) == [Node(c)] + Flat(c.replies) + Flat(ts[1..]);
      if c.id != id {
        RemoveCons(ts, id);
        RemoveSplitsListing(c.replies, id);
      }
    }
  }

  /** Hence every listed comment that neither carries the id nor sits under one that does is still
      listed, and the listing shrinks by exactly the size of the cut. */
  lemma RemoveKeepsOthers(ts: seq<Comment>, id: string)
    ensures |Flat(RemoveAll(ts, id))| == |Flat(ts)| - |Cut(ts, id)|
    ensures forall n :: n in Flat(ts) && n !in Cut(ts, id) ==> n in Flat(RemoveAll(ts, id))
  {
    RemoveSplitsListing(ts, id);
    var a, b, d := Flat(ts), Flat(RemoveAll(ts, id)), Cut(ts, id);
    assert |multiset(a)| == |multiset(b)| + |multiset(d)|;
    forall n | n in a && n !in d ensures n in b {
      assert n in multiset(a) && n !in multiset(d);
    }
  }

  lemma {:induction false} OccAbsent(s: seq<string>, x: string)
    ensures Occ(s, x) == 0 <==> x !in s
  {
    if s != [] {
      OccAbsent(s[1..], x);
      assert s == [s[0]] + s[1..];
    }
  }

  lemma {:induction false} OccUnique(s: seq<string>, x: string)
    requires NoDup(s) && x in s
    ensures Occ(s, x) == 1
  {
    if s[0] == x {
      OccAbsent(s[1..], x);
      assert x !in s[1..] by {
        forall k | 0 <= k < |s[1..]| ensures s[1..][k] != x {
          assert s[1..][k] == s[k + 1];
        }
      }
    } else {
      assert NoDup(s[1..]) by {
        forall i, j | 0 <= i < j < |s[1..]| ensures s[1..][i] != s[1..][j] {
          assert s[1..][i] == s[i + 1] && s[1..][j] == s[j + 1];
        }
      }
      OccUnique(s[1..], x);
    }
  }

  /** How often `id` occurs in a forest is its count at the first comment, in its replies and in the rest. */
  lemma OccCons(ts: seq<Comment>, id: string)
    requires ts != []
    ensures Occ(Ids(ts), id) == (if ts[0].id == id then 1 else 0) + Occ(Ids(ts[0].replies), id) + Occ(Ids(ts[1..]), id)
    ensures id !in Ids(ts[0].replies) <==> Occ(Ids(ts[0].replies), id) == 0
    ensures id !in Ids(ts[1..]) <==> Occ(Ids(ts[1..]), id) == 0
  {
    IdsCons(ts);
    OccConcat([ts[0].id] + Ids(ts[0].replies), Ids(ts[1..]), id);
    OccConcat([ts[0].id], Ids(ts[0].replies), id);
    OccAbsent(Ids(ts[0].replies), id);
    OccAbsent(Ids(ts[1..]), id);
  }

  /** When ids are unique and `id` occurs, removal cuts out exactly one contiguous block of the
      listing, the comment with the id and everything under it, and keeps the rest in order. */
  lemma RemoveUniqueCutsSubtree(ts: seq<Comment>, id: string)
    requires NoDup(Ids(ts)) && id in Ids(ts)
    ensures exists pre: seq<Comment>, c: Comment, post: seq<Comment> ::
      c.id == id && Flat(ts) == pre + FlatOne(c) + post && Flat(RemoveAll(ts, id)) == pre + post
  {
    OccUnique(Ids(ts), id);
    var pre, c, post := CutBlock(ts, id);
  }

  /** The block `RemoveUniqueCutsSubtree` speaks of, found by descending to the one comment with
      the id; only that id needs to be unique. */
  lemma {:induction false} CutBlock(ts: seq<Comment>, id: string) returns (pre: seq<Comment>, d: Comment, post: seq<Comment>)
    requires Occ(Ids(ts), id) == 1
    ensures d.id == id && Flat(ts) == pre + FlatOne(d) + post && Flat(RemoveAll(ts, id)) == pre + post
    decreases ts, 1
  {
    OccCons(ts, id);
    if ts[0].id == id {
      RemoveAbsent(ts[1..], id);
      assert Flat(ts) == FlatOne(ts[0]) + Flat(ts[1..]);
      pre, d, post := [], ts[0], Flat(ts[1..]);
    } else if Occ(Ids(ts[0].replies), id) == 1 {
      pre, d, post := CutBlockInReplies(ts, id);
    } else {
      pre, d, post := CutBlockInRest(ts, id);
    }
  }

  lemma {:induction false} CutBlockInReplies(ts: seq<Comment>, id: string) returns (pre: seq<Comment>, d: Comment, post: seq<Comment>)
    requires ts != [] && ts[0].id != id && Occ(Ids(ts[0].replies), id) == 1 && id !in Ids(ts[1..])
    ensures d.id == id && Flat(ts) == pre + FlatOne(d) + post && Flat(RemoveAll(ts, id)) == pre + post
    decreases ts, 0
  {
    var c := ts[0];
    RemoveCons(ts, id);
    RemoveAbsent(ts[1..], id);
    var p, q;
    p, d, q := CutBlock(c.replies, id);
    assert Flat(ts) == [Node(c)] + Flat(c.replies) + Flat(ts[1..]);
    pre, post := Regroup(Node(c), Flat(c.replies), p, FlatOne(d), q, Flat(RemoveAll(c.replies, id)), Flat(ts[1..]));
  }

  /** Moving the head and the tail of a listing into the block's surroundings. */
  lemma Regroup<T>(n: T, f: seq<T>, p: seq<T>, b: seq<T>, q: seq<T>, g: seq<T>, rest: seq<T>) returns (pre: seq<T>, post: seq<T>)
    requires f == p + b + q && g == p + q
    ensures [n] + f + rest == pre + b + post && [n] + g + rest == pre + post
  {
    pre, post := [n] + p, q + rest;
  }

  lemma {:induction false} CutBlockInRest(ts: seq<Comment>, id: string) returns (pre: seq<Comment>, d: Comment, post: seq<Comment>)
    requires ts != [] && ts[0].id != id && id !in Ids(ts[0].replies) && Occ(Ids(ts[1..]), id) == 1
    ensures d.id == id && Flat(ts) == pre + FlatOne(d) + post && Flat(RemoveAll(ts, id)) == pre + post
    decreases ts, 0
  {
    var c := ts[0];
    RemoveCons(ts, id);
    RemoveAbsent(c.replies, id);
    var p, q;
    p, d, q := CutBlock(ts[1..], id);
    assert Flat(ts) == FlatOne(c) + Flat(ts[1..]);
    pre, post := FlatOne(c) + p, q;
  }
}
