/** The comment tree the service rebuilds on every read (lib/services/communityService.ts:332-350).

    The source makes one pass over the comments in creation order: it registers each comment in a
    map by id (a later comment with the same id replaces an earlier one), then appends a reply to
    the `replies` of the comment the map gives for its parent, drops a reply whose parent is not in
    the map yet, and appends every other comment to the roots. Comments are shared objects, so a
    reply attached to another reply is reachable from the roots through it. The model keeps that
    object graph as it is: a comment is named by its position in the input, and the result gives
    the positions of the roots and, for every position, the positions of its replies. */
module CommentForest {
  import opened Types

  /** The object graph the pass builds: `replies[j]` are the replies of the comment at position j. */
  datatype Forest = Forest(roots: seq<nat>, replies: seq<seq<nat>>)

  /** The entry the id map holds for `id` once the first `n` comments are registered: the last of
      them with that id. */
  function Lookup(cs: seq<Comment>, n: nat, id: string): (r: Option<nat>)
    requires n <= |cs|
    ensures r.Some? ==> r.value < n
  {
    if n == 0 then None
    else if cs[n - 1].id == id then Some(n - 1)
    else Lookup(cs, n - 1, id)
  }

  /** The lookup finds the last registered comment with the id, and nothing when there is none. */
  lemma {:induction false} LookupFinds(cs: seq<Comment>, n: nat, id: string)
    requires n <= |cs|
    ensures var r := Lookup(cs, n, id);
      (r.Some? ==> cs[r.value].id == id && forall k :: r.value < k < n ==> cs[k].id != id)
      && (r.None? ==> forall k :: 0 <= k < n ==> cs[k].id != id)
  {
    if n > 0 {
      LookupFinds(cs, n - 1, id);
    }
  }

  /** Where the pass puts a comment: among the roots, among the replies of the comment at a
      position, or nowhere. */
  datatype Placement = Root | Under(parent: nat) | Dropped

  /** The comment at `i` is registered before its parent is looked up, so the lookup sees cs[..i+1]. */
  function PlacementOf(cs: seq<Comment>, i: nat): Placement
    requires i < |cs|
  {
    if !IsReply(cs[i]) then Root
    else match Lookup(cs, i + 1, ParentOf(cs[i]))
      case Some(j) => Under(j)
      case None => Dropped
  }

  /** The positions among the first `n` comments that the pass puts at `w`, in input order. */
  function Placed(cs: seq<Comment>, n: nat, w: Placement): seq<nat>
    requires n <= |cs|
  {
    if n == 0 then []
    else
      Placed(cs, n - 1, w) + (if PlacementOf(cs, n - 1) == w then [n - 1] else [])
  }

  /** The placed positions lie below `n` and come in increasing (input) order. */
  lemma {:induction false} PlacedIncreasing(cs: seq<Comment>, n: nat, w: Placement)
    requires n <= |cs|
    ensures Below(Placed(cs, n, w), n) && Increasing(Placed(cs, n, w))
  {
    if n > 0 {
      PlacedIncreasing(cs, n - 1, w);
      var r' := Placed(cs, n - 1, w);
      if PlacementOf(cs, n - 1) == w {
        var r := r' + [n - 1];
        assert Placed(cs, n, w) == r;
        forall a, b | 0 <= a < b < |r| ensures r[a] < r[b] {
          if b < |r'| {
            assert r[a] == r'[a] && r[b] == r'[b];
          } else {
            assert r[a] == r'[a] < n - 1 == r[b];
          }
        }
      } else {
        assert Placed(cs, n, w) == r';
      }
    }
  }

  predicate Below(s: seq<nat>, n: nat) {
    forall a :: 0 <= a < |s| ==> s[a] < n
  }

  predicate Increasing(s: seq<nat>) {
    forall a, b :: 0 <= a < b < |s| ==> s[a] < s[b]
  }

  /** The forest the pass returns for the comments `cs`. */
  function ForestOf(cs: seq<Comment>): (f: Forest)
    ensures |f.replies| == |cs|
    ensures forall j {:trigger f.replies[j]} :: 0 <= j < |cs| ==> f.replies[j] == Placed(cs, |cs|, Under(j))
  {
    Forest(Placed(cs, |cs|, Root), seq(|cs|, j requires 0 <= j < |cs| => Placed(cs, |cs|, Under(j))))
  }

  /** The single pass of the source: an id map, the list of roots and a reply list per comment. */
  method BuildForest(cs: seq<Comment>) returns (f: Forest)
    ensures f == ForestOf(cs)
  {
    var index: map<string, nat> := map[];
    var roots: seq<nat> := [];
    var replies: seq<seq<nat>> := seq(|cs|, _ => []);
    var k := 0;
    while k < |cs|
      invariant 0 <= k <= |cs|
      invariant |replies| == |cs|
      invariant forall id :: Lookup(cs, k, id) == (if id in index then Some(index[id]) else None)
      invariant roots == Placed(cs, k, Root)
      invariant forall j {:trigger replies[j]} :: 0 <= j < |cs| ==> replies[j] == Placed(cs, k, Under(j))
    {
      var c := cs[k];
      ghost var p := PlacementOf(cs, k);
      ghost var before := replies;
      IndexStep(cs, k, index);
      index := index[c.id := k];
      if IsReply(c) {
        var pid := c.parentCommentId.value;
        if pid in index {
          var j := index[pid];
          assert p == Under(j);
          replies := replies[j := replies[j] + [k]];
        } else {
          assert p == Dropped;
        }
      } else {
        assert p == Root;
        roots := roots + [k];
      }
      PlacedStep(cs, k, Root);
      RepliesStep(cs, k, before, replies);
      k := k + 1;
    }
    f := Forest(roots, replies);
  }

  /** Registering the comment at `k` keeps the map equal to the lookup. */
  lemma IndexStep(cs: seq<Comment>, k: nat, index: map<string, nat>)
    requires k < |cs|
    requires forall id :: Lookup(cs, k, id) == (if id in index then Some(index[id]) else None)
    ensures var index' := index[cs[k].id := k];
      forall id :: Lookup(cs, k + 1, id) == (if id in index' then Some(index'[id]) else None)
  {
    forall id {
      LookupStep(cs, k, id);
    }
  }

  /** Appending the comment at `k` to the replies of its parent keeps every reply list equal to the
      placed positions. */
  lemma RepliesStep(cs: seq<Comment>, k: nat, replies: seq<seq<nat>>, replies': seq<seq<nat>>)
    requires k < |cs| && |replies| == |cs| == |replies'|
    requires forall j {:trigger replies[j]} :: 0 <= j < |cs| ==> replies[j] == Placed(cs, k, Under(j))
    requires forall j {:trigger replies'[j]} :: 0 <= j < |cs| ==> replies'[j] == replies[j] + (if PlacementOf(cs, k) == Under(j) then [k] else [])
    ensures forall j {:trigger replies'[j]} :: 0 <= j < |cs| ==> replies'[j] == Placed(cs, k + 1, Under(j))
  {
    forall j | 0 <= j < |cs| ensures replies'[j] == Placed(cs, k + 1, Under(j)) {
      PlacedStep(cs, k, Under(j));
    }
  }

  lemma LookupStep(cs: seq<Comment>, k: nat, id: string)
    requires k < |cs|
    ensures Lookup(cs, k + 1, id) == if cs[k].id == id then Some(k) else Lookup(cs, k, id)
  {
  }

  lemma PlacedStep(cs: seq<Comment>, k: nat, w: Placement)
    requires k < |cs|
    ensures Placed(cs, k + 1, w) == Placed(cs, k, w) + (if PlacementOf(cs, k) == w then [k] else [])
  {
  }

  // ----- what the forest promises -----

  /** A position is placed at `w` exactly when the pass decides so for it. */
  lemma {:induction false} PlacedMembers(cs: seq<Comment>, n: nat, w: Placement, i: nat)
    requires n <= |cs|
    ensures i in Placed(cs, n, w) <==> i < n && PlacementOf(cs, i) == w
  {
    if n > 0 {
      PlacedMembers(cs, n - 1, w, i);
    }
  }

  /** How often `x` occurs in `s`. */
  function Count(s: seq<nat>, x: nat): nat {
    if s == [] then 0 else (if s[0] == x then 1 else 0) + Count(s[1..], x)
  }

  /** How often `x` occurs in the first `n` reply lists. */
  function CountIn(ls: seq<seq<nat>>, n: nat, x: nat): nat
    requires n <= |ls|
  {
    if n == 0 then 0 else CountIn(ls, n - 1, x) + Count(ls[n - 1], x)
  }

  /** How often the comment at position `x` occurs in the forest, roots and reply lists together. */
  function Occurrences(f: Forest, x: nat): nat {
    Count(f.roots, x) + CountIn(f.replies, |f.replies|, x)
  }

  lemma {:induction false} CountIncreasing(s: seq<nat>, x: nat)
    requires Increasing(s)
    ensures Count(s, x) == if x in s then 1 else 0
  {
    if s != [] {
      CountIncreasing(s[1..], x);
      if s[0] == x {
        assert x !in s[1..] by {
          forall k | 0 <= k < |s[1..]| ensures s[1..][k] != x {
            assert s[1..][k] == s[k + 1];
          }
        }
      }
    }
  }

  /** The reply list of `j` holds `x` once when `x` is placed under `j`, and not at all otherwise. */
  lemma CountUnder(cs: seq<Comment>, l: seq<nat>, j: nat, x: nat)
    requires l == Placed(cs, |cs|, Under(j)) && x < |cs|
    ensures Count(l, x) == if PlacementOf(cs, x) == Under(j) then 1 else 0
  {
    PlacedIncreasing(cs, |cs|, Under(j));
    CountIncreasing(l, x);
    PlacedMembers(cs, |cs|, Under(j), x);
  }

  lemma {:induction false} CountInPlaced(cs: seq<Comment>, ls: seq<seq<nat>>, n: nat, x: nat)
    requires |ls| == |cs| && n <= |cs| && x < |cs|
    requires forall j {:trigger ls[j]} :: 0 <= j < |cs| ==> ls[j] == Placed(cs, |cs|, Under(j))
    ensures var p := PlacementOf(cs, x);
      CountIn(ls, n, x) == if p.Under? && p.parent < n then 1 else 0
  {
    if n > 0 {
      CountInPlaced(cs, ls, n - 1, x);
      CountUnder(cs, ls[n - 1], n - 1, x);
      assert CountIn(ls, n, x) == CountIn(ls, n - 1, x) + Count(ls[n - 1], x);
    }
  }

  /** Every comment occurs in the forest at most once: exactly once, unless it is a reply whose
      parent was not among the comments before it, in which case it does not occur at all. */
  lemma AtMostOnce(cs: seq<Comment>, x: nat)
    requires x < |cs|
    ensures Occurrences(ForestOf(cs), x) == if PlacementOf(cs, x) == Dropped then 0 else 1
  {
    var f := ForestOf(cs);
    assert Occurrences(f, x) == Count(f.roots, x) + CountIn(f.replies, |cs|, x);
    PlacedIncreasing(cs, |cs|, Root);
    assert f.roots == Placed(cs, |cs|, Root);
    CountIncreasing(f.roots, x);
    PlacedMembers(cs, |cs|, Root, x);
    assert Count(f.roots, x) == if PlacementOf(cs, x) == Root then 1 else 0;
    CountInPlaced(cs, f.replies, |cs|, x);
    LookupBelow(cs, x);
  }

  lemma LookupBelow(cs: seq<Comment>, x: nat)
    requires x < |cs|
    ensures PlacementOf(cs, x).Under? ==> PlacementOf(cs, x).parent < |cs|
  {
  }

  /** The roots are the comments without a parent, in input order. */
  lemma RootsInInputOrder(cs: seq<Comment>)
    ensures var r := ForestOf(cs).roots;
      (forall i: nat :: i in r <==> i < |cs| && !IsReply(cs[i]))
      && Increasing(r)
  {
    PlacedIncreasing(cs, |cs|, Root);
    assert ForestOf(cs).roots == Placed(cs, |cs|, Root);
    forall i: nat {
      PlacedMembers(cs, |cs|, Root, i);
    }
  }

  /** A reply hangs under the last comment before it (or itself) that carries its parent's id. */
  lemma ReplyUnderParent(cs: seq<Comment>, j: nat, i: nat)
    requires j < |cs| && i in ForestOf(cs).replies[j]
    ensures i < |cs| && IsReply(cs[i]) && cs[j].id == ParentOf(cs[i]) && j <= i
    ensures forall k :: j < k <= i ==> cs[k].id != ParentOf(cs[i])
  {
    PlacedMembers(cs, |cs|, Under(j), i);
    LookupFinds(cs, i + 1, ParentOf(cs[i]));
  }

  /** A reply whose parent does not occur among the comments up to it is dropped: it occurs
      nowhere in the forest, not even as a root. */
  lemma OrphanDropped(cs: seq<Comment>, i: nat)
    requires i < |cs| && IsReply(cs[i])
    requires forall k :: 0 <= k <= i ==> cs[k].id != ParentOf(cs[i])
    ensures Occurrences(ForestOf(cs), i) == 0
  {
    LookupFinds(cs, i + 1, ParentOf(cs[i]));
    AtMostOnce(cs, i);
  }

  /** When every reply's parent comes before it, every comment occurs in the forest exactly once. */
  lemma ExactlyOnce(cs: seq<Comment>)
    requires forall i :: 0 <= i < |cs| && IsReply(cs[i]) ==> exists k :: 0 <= k < i && cs[k].id == ParentOf(cs[i])
    ensures forall x :: 0 <= x < |cs| ==> Occurrences(ForestOf(cs), x) == 1
  {
    forall x | 0 <= x < |cs| ensures Occurrences(ForestOf(cs), x) == 1 {
      AtMostOnce(cs, x);
      if IsReply(cs[x]) {
        LookupFinds(cs, x + 1, ParentOf(cs[x]));
      }
    }
  }

  // ----- what the caller walks: the nested tree under the roots -----

  /** How many times the comment at `x` appears in the nested tree a caller walks from the roots:
      once per entry among the roots, and once for every appearance of a comment whose reply list
      holds it. Only reply lists of earlier positions are followed: in the pass's forest a reply
      list never holds an earlier comment (`ReplyUnderParent`), and a comment in its own reply list
      is reached through itself only. */
  function Appearances(f: Forest, x: nat): nat
    decreases x, 1
  {
    Count(f.roots, x) + Via(f, x, x)
  }

  /** The appearances of `x` under the comments at positions below `n`. */
  function Via(f: Forest, x: nat, n: nat): nat
    requires n <= x
    decreases x, 0, n
  {
    if n == 0 then 0
    else Via(f, x, n - 1) + (if n - 1 < |f.replies| then Count(f.replies[n - 1], x) * Appearances(f, n - 1) else 0)
  }

  /** Whether the comment at `x` is in the tree the caller gets: it is a root, or it is placed under
      an earlier comment that is itself in the tree. A reply under a dropped reply is not, and
      neither is a reply placed under itself. */
  predicate Returned(cs: seq<Comment>, x: nat)
    requires x < |cs|
    decreases x
  {
    match PlacementOf(cs, x)
    case Root => true
    case Under(j) => j < x && Returned(cs, j)
    case Dropped => false
  }

  /** When `x` is held once by the reply list at `q` and by no other, it appears under the
      comments below `n` as often as the comment at `q` appears, when `q` is below `n`. */
  lemma {:induction false} ViaOneParent(f: Forest, x: nat, n: nat, q: int)
    requires n <= x && n <= |f.replies|
    requires forall j {:trigger f.replies[j]} :: 0 <= j < n ==> Count(f.replies[j], x) == if j == q then 1 else 0
    ensures Via(f, x, n) == if 0 <= q < n then Appearances(f, q) else 0
  {
    if n > 0 {
      ViaOneParent(f, x, n - 1, q);
      ZeroOrOnce(Count(f.replies[n - 1], x), Appearances(f, n - 1));
    }
  }

  lemma ZeroOrOnce(c: nat, a: nat)
    requires c == 0 || c == 1
    ensures c * a == if c == 1 then a else 0
  {
  }

  /** Every comment appears in the returned tree once or not at all, and it appears exactly when
      its chain of parents ends at a root. */
  lemma {:induction false} ReturnedOnceOrNever(cs: seq<Comment>, x: nat)
    requires x < |cs|
    ensures Appearances(ForestOf(cs), x) == if Returned(cs, x) then 1 else 0
    decreases x
  {
    var f := ForestOf(cs);
    PlacedIncreasing(cs, |cs|, Root);
    CountIncreasing(f.roots, x);
    PlacedMembers(cs, |cs|, Root, x);
    var p := PlacementOf(cs, x);
    var q := if p.Under? then p.parent else -1;
    forall j | 0 <= j < x ensures Count(f.replies[j], x) == if j == q then 1 else 0 {
      CountUnder(cs, f.replies[j], j, x);
    }
    ViaOneParent(f, x, x, q);
    if p.Under? && p.parent < x {
      ReturnedOnceOrNever(cs, p.parent);
    }
  }

  /** A reply placed under a reply that was dropped vanishes with it, although it is in the
      graph (`AtMostOnce`). */
  lemma DroppedTakesItsReplies(cs: seq<Comment>, x: nat, j: nat)
    requires x < |cs| && j < |cs|
    requires PlacementOf(cs, x) == Under(j) && PlacementOf(cs, j) == Dropped
    ensures Appearances(ForestOf(cs), x) == 0
  {
    ReturnedOnceOrNever(cs, x);
  }

  /** When every reply's parent id belongs to an earlier comment and no reply names its own id as
      its parent, every comment appears in the returned tree exactly once. */
  lemma ReturnedExactlyOnce(cs: seq<Comment>)
    requires forall i :: 0 <= i < |cs| && IsReply(cs[i]) ==> exists k :: 0 <= k < i && cs[k].id == ParentOf(cs[i])
    requires forall i :: 0 <= i < |cs| && IsReply(cs[i]) ==> cs[i].id != ParentOf(cs[i])
    ensures forall x :: 0 <= x < |cs| ==> Appearances(ForestOf(cs), x) == 1
  {
    forall x | 0 <= x < |cs| ensures Appearances(ForestOf(cs), x) == 1 {
      AllReturned(cs, x);
      ReturnedOnceOrNever(cs, x);
    }
  }

  lemma {:induction false} AllReturned(cs: seq<Comment>, x: nat)
    requires forall i :: 0 <= i < |cs| && IsReply(cs[i]) ==> exists k :: 0 <= k < i && cs[k].id == ParentOf(cs[i])
    requires forall i :: 0 <= i < |cs| && IsReply(cs[i]) ==> cs[i].id != ParentOf(cs[i])
    requires x < |cs|
    ensures Returned(cs, x)
    decreases x
  {
    if IsReply(cs[x]) {
      var p := ParentOf(cs[x]);
      LookupStep(cs, x, p);
      LookupFinds(cs, x, p);
      var j := Lookup(cs, x, p).value;
      AllReturned(cs, j);
    }
  }

  lemma {:induction false} LookupExtend(cs: seq<Comment>, c: Comment, n: nat, id: string)
    requires n <= |cs|
    ensures Lookup(cs + [c], n, id) == Lookup(cs, n, id)
  {
    if n > 0 {
      LookupExtend(cs, c, n - 1, id);
    }
  }

  /** A new comment is read back last (comments are read in creation order). If it replies to a
      comment already present, it comes back as the last reply of that comment, not as a root. */
  lemma NewReplyNests(cs: seq<Comment>, c: Comment, j: nat)
    requires IsReply(c) && c.id != ParentOf(c)
    requires Lookup(cs, |cs|, ParentOf(c)) == Some(j)
    ensures j < |cs|
    ensures var r := ForestOf(cs + [c]).replies[j]; |r| > 0 && r[|r| - 1] == |cs|
    ensures |cs| !in ForestOf(cs + [c]).roots
  {
    var cs' := cs + [c];
    assert cs'[|cs|] == c;
    LookupExtend(cs, c, |cs|, ParentOf(c));
    assert Lookup(cs', |cs'|, ParentOf(c)) == Some(j);
    assert PlacementOf(cs', |cs|) == Under(j);
    PlacedStep(cs', |cs|, Under(j));
    assert ForestOf(cs').replies[j] == Placed(cs', |cs|, Under(j)) + [|cs|];
    PlacedMembers(cs', |cs'|, Root, |cs|);
  }

  /** A reply whose parent id is its own id finds itself in the map: it is put among its own replies
      (a cycle in the object graph) and not among the roots. */
  lemma SelfParentIsOwnReply(cs: seq<Comment>, i: nat)
    requires i < |cs| && IsReply(cs[i]) && ParentOf(cs[i]) == cs[i].id
    ensures i in ForestOf(cs).replies[i]
    ensures i !in ForestOf(cs).roots
  {
    assert PlacementOf(cs, i) == Under(i);
    PlacedMembers(cs, |cs|, Under(i), i);
    PlacedMembers(cs, |cs|, Root, i);
  }
}
