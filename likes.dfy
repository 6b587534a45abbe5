/** Like/unlike semantics shared by posts and comments: the remote toggle of the service
    (lib/services/communityService.ts:188-236, 419-441) and the local mirror of the cache
    (lib/stores/communityStore.ts:355-388, 582-604). */
module Likes {

  /** No user id occurs twice. */
  predicate NoDup(s: seq<string>) {
    forall i, j :: 0 <= i < j < |s| ==> s[i] != s[j]
  }

  /** `arrayUnion(x)`: the store adds `x` only when it is absent. */
  function ArrayUnion(s: seq<string>, x: string): (r: seq<string>)
    ensures forall y :: y in r <==> y in s || y == x
    ensures NoDup(s) ==> NoDup(r)
    ensures x in s ==> r == s
    ensures x !in s ==> |r| == |s| + 1
  {
    if x in s then s else s + [x]
  }

  /** `arrayRemove(x)`, and the cache's `filter(id => id !== x)`: every occurrence of `x` goes. */
  function ArrayRemove(s: seq<string>, x: string): (r: seq<string>)
    ensures forall y :: y in r <==> y in s && y != x
    ensures |r| <= |s|
    ensures x !in s ==> r == s
    ensures NoDup(s) ==> NoDup(r)
    ensures NoDup(s) && x in s ==> |r| == |s| - 1
  {
    if s == [] then []
    else if s[0] == x then ArrayRemove(s[1..], x)
    else
      NoDupTail(s);
      NoDupCons(s[0], ArrayRemove(s[1..], x));
      [s[0]] + ArrayRemove(s[1..], x)
  }

  lemma NoDupTail(s: seq<string>)
    requires s != []
    ensures NoDup(s) ==> NoDup(s[1..]) && s[0] !in s[1..]
  {
    if NoDup(s) {
      forall k | 0 <= k < |s[1..]| ensures s[1..][k] != s[0] {
        assert s[1..][k] == s[k + 1];
      }
    }
  }

  lemma NoDupCons(a: string, t: seq<string>)
    ensures a !in t && NoDup(t) ==> NoDup([a] + t)
  {
    if a !in t && NoDup(t) {
      var u := [a] + t;
      forall i, j | 0 <= i < j < |u| ensures u[i] != u[j] {
        if i == 0 { assert u[j] == t[j - 1]; } else { assert u[i] == t[i - 1] && u[j] == t[j - 1]; }
      }
    }
  }

  /** The `likes` counter together with the `likedBy` list of one post or comment. */
  datatype LikeState = LikeState(likes: int, likedBy: seq<string>)

  /** The central invariant: the counter equals the number of (distinct) likers. */
  predicate Consistent(s: LikeState) {
    s.likes == |s.likedBy| && NoDup(s.likedBy)
  }

  /** The service's toggle: decide from `likedBy`, then `increment(∓1)` with `arrayRemove`/`arrayUnion`. */
  function RemoteToggle(s: LikeState, uid: string): LikeState {
    if uid in s.likedBy then LikeState(s.likes - 1, ArrayRemove(s.likedBy, uid))
    else LikeState(s.likes + 1, ArrayUnion(s.likedBy, uid))
  }

  /** The cache's mirror, re-derived from its own copy: filter out, or append at the end. */
  function LocalToggle(s: LikeState, uid: string): LikeState {
    if uid in s.likedBy then LikeState(s.likes - 1, ArrayRemove(s.likedBy, uid))
    else LikeState(s.likes + 1, s.likedBy + [uid])
  }

  /** Both toggles flip membership of `uid` and move the counter by exactly one in that direction. */
  lemma ToggleFlips(s: LikeState, uid: string)
    ensures var r := RemoteToggle(s, uid);
      (uid in r.likedBy <==> uid !in s.likedBy)
      && r.likes == (if uid in s.likedBy then s.likes - 1 else s.likes + 1)
      && forall y :: y != uid ==> (y in r.likedBy <==> y in s.likedBy)
    ensures var l := LocalToggle(s, uid);
      (uid in l.likedBy <==> uid !in s.likedBy)
      && l.likes == (if uid in s.likedBy then s.likes - 1 else s.likes + 1)
      && forall y :: y != uid ==> (y in l.likedBy <==> y in s.likedBy)
  {
  }

  /** `likes == |likedBy|` survives a toggle, remote or local. */
  lemma ToggleKeepsConsistent(s: LikeState, uid: string)
    requires Consistent(s)
    ensures Consistent(RemoteToggle(s, uid))
    ensures Consistent(LocalToggle(s, uid))
  {
    if uid !in s.likedBy {
      var t := s.likedBy + [uid];
      forall i, j | 0 <= i < j < |t| ensures t[i] != t[j] {
        if j == |s.likedBy| {
          assert t[i] in s.likedBy;
        }
      }
    }
  }

  /** The cache's decision is the service's decision: given the same copy, both give the same state. */
  lemma MirrorAgrees(s: LikeState, uid: string)
    ensures LocalToggle(s, uid) == RemoteToggle(s, uid)
  {
  }

  lemma {:induction false} RemoveAppended(s: seq<string>, x: string)
    requires x !in s
    ensures ArrayRemove(s + [x], x) == s
  {
    if s == [] {
      assert [x][1..] == [];
    } else {
      assert (s + [x])[1..] == s[1..] + [x];
      RemoveAppended(s[1..], x);
      assert [s[0]] + s[1..] == s;
    }
  }

  /** Like then unlike restores the exact state, order of `likedBy` included. */
  lemma LikeThenUnlikeRestores(s: LikeState, uid: string)
    requires uid !in s.likedBy
    ensures LocalToggle(LocalToggle(s, uid), uid) == s
    ensures RemoteToggle(RemoteToggle(s, uid), uid) == s
  {
    RemoveAppended(s.likedBy, uid);
  }

  /** Unlike then like restores the counter and the set of likers of a consistent state ... */
  lemma UnlikeThenLikeRestoresLikers(s: LikeState, uid: string)
    requires Consistent(s) && uid in s.likedBy
    ensures var r := LocalToggle(LocalToggle(s, uid), uid);
      r.likes == s.likes && |r.likedBy| == |s.likedBy|
      && forall y :: y in r.likedBy <==> y in s.likedBy
  {
  }

  /** ... but not always the order: the returning liker moves to the end of `likedBy`. */
  lemma UnlikeThenLikeMayReorder()
    ensures var s := LikeState(2, ["a", "b"]);
      Consistent(s) && LocalToggle(LocalToggle(s, "a"), "a") == LikeState(2, ["b", "a"])
  {
    assert ArrayRemove(["a", "b"], "a") == ["b"] by {
      assert ["a", "b"][1..] == ["b"];
      assert ArrayRemove(["b"], "a") == ["b"] by { assert ["b"][1..] == []; }
    }
  }

  /** `n` successive remote toggles by the same user. */
  function Toggles(s: LikeState, uid: string, n: nat): LikeState {
    if n == 0 then s else RemoteToggle(Toggles(s, uid, n - 1), uid)
  }

  lemma ParityStep(n: nat)
    requires n > 0
    ensures (n % 2 == 1) == ((n - 1) % 2 != 1)
  {
  }

  /** Any number of toggles by one user keeps `likes == |likedBy|`, and afterwards the user is a
      liker exactly when the initial membership has been flipped an odd number of times. */
  lemma {:induction false} TogglesParity(s: LikeState, uid: string, n: nat)
    requires Consistent(s)
    ensures Consistent(Toggles(s, uid, n))
    ensures uid in Toggles(s, uid, n).likedBy <==> (uid in s.likedBy) != (n % 2 == 1)
  {
    if n > 0 {
      var t := Toggles(s, uid, n - 1);
      TogglesParity(s, uid, n - 1);
      ToggleKeepsConsistent(t, uid);
      ToggleFlips(t, uid);
      assert Toggles(s, uid, n) == RemoteToggle(t, uid);
      ParityStep(n);
    }
  }
}
