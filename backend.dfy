/** The service layer over the document database (lib/services/communityService.ts).

    The database is a value `Db`: one map from document id to record per collection. A write batch
    commits atomically or not at all; an `update` of a document that does not exist makes the whole
    batch fail, while a `set` or a `delete` always applies. Whether the network lets a call through
    is a parameter of each operation (`online`, `readOk`, ...). */
module Backend {
  import opened Types
  import opened Likes
  import opened Counters
  import opened Auth
  import opened CommentTree

  datatype Db = Db(
    users: map<string, UserProfile>,
    posts: map<string, Post>,
    comments: map<string, Comment>,
    cats: map<string, Cat>,
    emotions: map<string, EmotionRecord>)

  /** The field updates a post document receives. */
  datatype PostChange =
    | LikeChange(uid: string, like: bool)     // likes: increment(±1), likedBy: arrayUnion / arrayRemove
    | CommentCount(delta: int)                // comments: increment(delta)
    | AddView                                 // views: increment(1)
    | MergePatch(patch: PostPatch)            // ...updates

  /** The field updates a comment document receives. */
  datatype CommentChange = CommentLike(uid: string, like: bool)

  datatype Write =
    | SetPost(id: string, post: Post)
    | UpdatePost(id: string, change: PostChange)
    | DeletePost(id: string)
    | SetComment(id: string, comment: Comment)
    | UpdateComment(id: string, commentChange: CommentChange)
    | DeleteComment(id: string)
    | UpdateUser(uid: string, delta: StatsDelta)
    | UpdateCat(id: string, catPatch: CatPatch)
    | SetEmotion(id: string, emotion: EmotionRecord)

  /** `increment(±1)` of `likes` with `arrayUnion` / `arrayRemove` of the user. */
  function LikeUpdate(s: LikeState, uid: string, like: bool): LikeState {
    if like then LikeState(s.likes + 1, ArrayUnion(s.likedBy, uid))
    else LikeState(s.likes - 1, ArrayRemove(s.likedBy, uid))
  }

  function ChangePost(p: Post, ch: PostChange): Post {
    match ch
    case LikeChange(uid, like) =>
      var s := LikeUpdate(LikeState(p.likes, p.likedBy), uid, like);
      p.(likes := s.likes, likedBy := s.likedBy)
    case CommentCount(d) => p.(comments := p.comments + d)
    case AddView => p.(views := p.views + 1)
    case MergePatch(u) => MergePost(p, u)
  }

  function ChangeComment(c: Comment, ch: CommentChange): Comment {
    var s := LikeUpdate(LikeState(c.likes, c.likedBy), ch.uid, ch.like);
    c.(likes := s.likes, likedBy := s.likedBy)
  }

  /** One write on its own; `None` when it updates a document that does not exist. */
  function ApplyWrite(db: Db, w: Write): Option<Db> {
    match w
    case SetPost(id, p) => Some(db.(posts := db.posts[id := p]))
    case UpdatePost(id, ch) =>
      if id in db.posts then Some(db.(posts := db.posts[id := ChangePost(db.posts[id], ch)])) else None
    case DeletePost(id) => Some(db.(posts := db.posts - {id}))
    case SetComment(id, c) => Some(db.(comments := db.comments[id := c]))
    case UpdateComment(id, ch) =>
      if id in db.comments then Some(db.(comments := db.comments[id := ChangeComment(db.comments[id], ch)])) else None
    case DeleteComment(id) => Some(db.(comments := db.comments - {id}))
    case UpdateUser(uid, d) =>
      if uid in db.users then Some(db.(users := db.users[uid := db.users[uid].(stats := Plus(db.users[uid].stats, d))]))
      else None
    case UpdateCat(id, u) =>
      if id in db.cats then Some(db.(cats := db.cats[id := MergeCat(db.cats[id], u)])) else None
    case SetEmotion(id, e) => Some(db.(emotions := db.emotions[id := e]))
  }

  /** A batch: every write in order, or nothing at all when one of them fails. */
  function ApplyBatch(db: Db, ws: seq<Write>): Option<Db>
    decreases |ws|
  {
    if ws == [] then Some(db)
    else match ApplyWrite(db, ws[0])
      case None => None
      case Some(d) => ApplyBatch(d, ws[1..])
  }

  lemma ApplyPair(db: Db, w1: Write, w2: Write)
    ensures ApplyBatch(db, [w1, w2]) ==
      if ApplyWrite(db, w1).None? then None else ApplyWrite(ApplyWrite(db, w1).value, w2)
  {
    assert [w1, w2][1..] == [w2];
    if ApplyWrite(db, w1).Some? {
      ApplyOne(ApplyWrite(db, w1).value, w2);
    }
  }

  lemma ApplyOne(db: Db, w: Write)
    ensures ApplyBatch(db, [w]) == ApplyWrite(db, w)
  {
    assert [w][1..] == [];
  }

  /** The statistics of one user after a batch. */
  function StatsOf(db: Db, uid: string): UserStats
    requires uid in db.users
  {
    db.users[uid].stats
  }

  // ----- the batches the service sends -----

  /** `addPost`: insert the post and bump its author's counters, in one batch. */
  function AddPostBatch(post: Post, newId: string): seq<Write> {
    [SetPost(newId, post.(id := newId)), UpdateUser(post.authorId, PostDelta(post.kind))]
  }

  /** The new post is stored and its author gains one post and one of the post's type; nothing else
      changes. Without an author profile the batch fails and the post is not stored either. */
  lemma AddPostEffect(db: Db, post: Post, newId: string)
    ensures var r := ApplyBatch(db, AddPostBatch(post, newId));
      (r.Some? <==> post.authorId in db.users)
      && (post.authorId in db.users ==>
        r.Some?
        && r.value.posts == db.posts[newId := post.(id := newId)]
        && r.value.users == db.users[post.authorId := db.users[post.authorId].(stats :=
             Plus(StatsOf(db, post.authorId), PostDelta(post.kind)))]
        && r.value.comments == db.comments && r.value.cats == db.cats && r.value.emotions == db.emotions)
  {
    ApplyPair(db, SetPost(newId, post.(id := newId)), UpdateUser(post.authorId, PostDelta(post.kind)));
  }

  /** `toggleLike` on an existing post: the post's update, and the author's unless they liked their
      own post. */
  function ToggleLikeBatch(p: Post, uid: string): seq<Write> {
    var liked := uid in p.likedBy;
    [UpdatePost(p.id, LikeChange(uid, !liked))]
      + (if p.authorId != uid then [UpdateUser(p.authorId, LikeDelta(uid, p.authorId, liked))] else [])
  }

  /** The post a like toggle leaves behind. */
  function ToggledPost(p: Post, uid: string): Post {
    ChangePost(p, LikeChange(uid, uid !in p.likedBy))
  }

  /** The toggled post is the remote toggle of its like state, with every other field kept. */
  lemma ToggledPostMirrors(p: Post, uid: string)
    ensures var q := ToggledPost(p, uid);
      LikeState(q.likes, q.likedBy) == RemoteToggle(LikeState(p.likes, p.likedBy), uid)
      && q.(likes := p.likes, likedBy := p.likedBy) == p
      && (Consistent(LikeState(p.likes, p.likedBy)) ==> Consistent(LikeState(q.likes, q.likedBy)))
  {
    if Consistent(LikeState(p.likes, p.likedBy)) {
      ToggleKeepsConsistent(LikeState(p.likes, p.likedBy), uid);
    }
  }

  /** The database a like toggle leaves behind. */
  lemma ToggleLikeResult(db: Db, postId: string, uid: string)
    requires postId in db.posts && db.posts[postId].id == postId
    requires db.posts[postId].authorId == uid || db.posts[postId].authorId in db.users
    ensures var p := db.posts[postId];
      var posts := db.posts[postId := ToggledPost(p, uid)];
      ApplyBatch(db, ToggleLikeBatch(p, uid)) ==
        if p.authorId == uid then Some(db.(posts := posts))
        else Some(db.(posts := posts, users := db.users[p.authorId := db.users[p.authorId].(stats :=
          Plus(StatsOf(db, p.authorId), LikeDelta(uid, p.authorId, uid in p.likedBy)))]))
  {
    if db.posts[postId].authorId == uid {
      ToggleOwnLike(db, postId, uid);
    } else {
      ToggleOthersLike(db, postId, uid);
    }
  }

  lemma ToggleOwnLike(db: Db, postId: string, uid: string)
    requires postId in db.posts && db.posts[postId].id == postId && db.posts[postId].authorId == uid
    ensures var p := db.posts[postId];
      ApplyBatch(db, ToggleLikeBatch(p, uid)) == Some(db.(posts := db.posts[postId := ToggledPost(p, uid)]))
  {
    var p := db.posts[postId];
    var w1 := UpdatePost(postId, LikeChange(uid, uid !in p.likedBy));
    assert ToggleLikeBatch(p, uid) == [w1];
    ApplyOne(db, w1);
  }

  lemma ToggleOthersLike(db: Db, postId: string, uid: string)
    requires postId in db.posts && db.posts[postId].id == postId
    requires db.posts[postId].authorId != uid && db.posts[postId].authorId in db.users
    ensures var p := db.posts[postId];
      ApplyBatch(db, ToggleLikeBatch(p, uid)) ==
        Some(db.(posts := db.posts[postId := ToggledPost(p, uid)],
                 users := db.users[p.authorId := db.users[p.authorId].(stats :=
                   Plus(StatsOf(db, p.authorId), LikeDelta(uid, p.authorId, uid in p.likedBy)))]))
  {
    var p := db.posts[postId];
    var liked := uid in p.likedBy;
    assert ToggleLikeBatch(p, uid) == [UpdatePost(postId, LikeChange(uid, !liked)), UpdateUser(p.authorId, LikeDelta(uid, p.authorId, liked))];
    PostThenUser(db, postId, LikeChange(uid, !liked), p.authorId, LikeDelta(uid, p.authorId, liked));
  }

  /** A counter update of an existing user profile. */
  lemma UserWrite(db: Db, uid: string, d: StatsDelta)
    requires uid in db.users
    ensures ApplyWrite(db, UpdateUser(uid, d)) ==
      Some(db.(users := db.users[uid := db.users[uid].(stats := Plus(db.users[uid].stats, d))]))
  {
  }

  /** A post update followed by a user update, both of existing documents. */
  lemma PostThenUser(db: Db, postId: string, ch: PostChange, uid: string, d: StatsDelta)
    requires postId in db.posts && uid in db.users
    ensures ApplyBatch(db, [UpdatePost(postId, ch), UpdateUser(uid, d)]) ==
      Some(db.(posts := db.posts[postId := ChangePost(db.posts[postId], ch)],
               users := db.users[uid := db.users[uid].(stats := Plus(db.users[uid].stats, d))]))
  {
    var d1 := db.(posts := db.posts[postId := ChangePost(db.posts[postId], ch)]);
    assert ApplyWrite(db, UpdatePost(postId, ch)) == Some(d1);
    UserWrite(d1, uid, d);
    ApplyPair(db, UpdatePost(postId, ch), UpdateUser(uid, d));
  }

  /** A like toggle flips the user's like of the post exactly as the remote toggle does (and so keeps
      `likes == |likedBy|`), and moves the author's `likesReceived` the same way unless the author is
      the liker; nothing else changes. */
  lemma ToggleLikeEffect(db: Db, postId: string, uid: string)
    requires postId in db.posts && db.posts[postId].id == postId
    requires db.posts[postId].authorId == uid || db.posts[postId].authorId in db.users
    ensures var p := db.posts[postId];
      var r := ApplyBatch(db, ToggleLikeBatch(p, uid));
      r.Some? && postId in r.value.posts
      && var q := r.value.posts[postId];
      LikeState(q.likes, q.likedBy) == RemoteToggle(LikeState(p.likes, p.likedBy), uid)
      && q.(likes := p.likes, likedBy := p.likedBy) == p
      && r.value.posts == db.posts[postId := q]
      && (Consistent(LikeState(p.likes, p.likedBy)) ==> Consistent(LikeState(q.likes, q.likedBy)))
      && (p.authorId == uid ==> r.value.users == db.users)
      && (p.authorId != uid ==>
           r.value.users == db.users[p.authorId := db.users[p.authorId].(stats :=
             Plus(StatsOf(db, p.authorId), LikeDelta(uid, p.authorId, uid in p.likedBy)))])
      && r.value.comments == db.comments && r.value.cats == db.cats && r.value.emotions == db.emotions
  {
    ToggleLikeResult(db, postId, uid);
    ToggledPostMirrors(db.posts[postId], uid);
  }

  /** Liking another user's post whose author has no profile document fails as a whole. */
  lemma ToggleLikeNeedsAuthorProfile(db: Db, postId: string, uid: string)
    requires postId in db.posts && db.posts[postId].id == postId
    requires db.posts[postId].authorId != uid && db.posts[postId].authorId !in db.users
    ensures ApplyBatch(db, ToggleLikeBatch(db.posts[postId], uid)).None?
  {
    var p := db.posts[postId];
    ApplyPair(db, UpdatePost(p.id, LikeChange(uid, uid !in p.likedBy)), UpdateUser(p.authorId, LikeDelta(uid, p.authorId, uid in p.likedBy)));
  }

  /** `addComment`: insert the comment and count it on its post; when the post could be read and its
      author is someone else, that author's `commentsReceived` too. */
  function AddCommentBatch(db: Db, c: Comment, newId: string): seq<Write> {
    [SetComment(newId, c.(id := newId)), UpdatePost(c.postId, CommentCount(1))]
      + (if c.postId in db.posts && db.posts[c.postId].authorId != c.authorId
         then [UpdateUser(db.posts[c.postId].authorId, CommentDelta(c.authorId, db.posts[c.postId].authorId))]
         else [])
  }

  /** A comment on an existing post is stored, the post's `comments` rises by one and its author's
      `commentsReceived` rises by one unless they commented themselves. */
  lemma AddCommentEffect(db: Db, c: Comment, newId: string)
    requires c.postId in db.posts
    requires db.posts[c.postId].authorId == c.authorId || db.posts[c.postId].authorId in db.users
    ensures var r := ApplyBatch(db, AddCommentBatch(db, c, newId));
      var author := db.posts[c.postId].authorId;
      r.Some?
      && r.value.comments == db.comments[newId := c.(id := newId)]
      && r.value.posts == db.posts[c.postId := db.posts[c.postId].(comments := db.posts[c.postId].comments + 1)]
      && (author == c.authorId ==> r.value.users == db.users)
      && (author != c.authorId ==> r.value.users == db.users[author := db.users[author].(stats :=
            Plus(StatsOf(db, author), Zero.(commentsReceived := 1)))])
      && r.value.cats == db.cats && r.value.emotions == db.emotions
  {
    var w1 := SetComment(newId, c.(id := newId));
    var w2 := UpdatePost(c.postId, CommentCount(1));
    var author := db.posts[c.postId].authorId;
    var d1 := ApplyWrite(db, w1).value;
    var d2 := ApplyWrite(d1, w2).value;
    if author != c.authorId {
      var w3 := UpdateUser(author, CommentDelta(c.authorId, author));
      assert AddCommentBatch(db, c, newId) == [w1, w2, w3];
      assert [w1, w2, w3][1..] == [w2, w3];
      ApplyPair(d1, w2, w3);
    } else {
      assert AddCommentBatch(db, c, newId) == [w1, w2];
      ApplyPair(db, w1, w2);
    }
  }

  /** A comment on a post that does not exist is not stored: the post's counter update fails the batch. */
  lemma AddCommentToMissingPostFails(db: Db, c: Comment, newId: string)
    requires c.postId !in db.posts
    ensures ApplyBatch(db, AddCommentBatch(db, c, newId)).None?
  {
    ApplyPair(db, SetComment(newId, c.(id := newId)), UpdatePost(c.postId, CommentCount(1)));
  }

  /** `deleteComment`: delete the one document and count it off the post. */
  function DeleteCommentBatch(id: string, postId: string): seq<Write> {
    [DeleteComment(id), UpdatePost(postId, CommentCount(-1))]
  }

  /** Deleting a comment removes that document only: its replies stay stored (and come back as dropped
      orphans on the next read). The post's counter goes down by one even when the comment was not
      there to delete. */
  lemma DeleteCommentEffect(db: Db, id: string, postId: string)
    ensures var r := ApplyBatch(db, DeleteCommentBatch(id, postId));
      (r.Some? <==> postId in db.posts)
      && (r.Some? ==>
        r.value.comments == db.comments - {id}
        && (forall k :: k in db.comments && k != id ==> k in r.value.comments && r.value.comments[k] == db.comments[k])
        && r.value.posts == db.posts[postId := db.posts[postId].(comments := db.posts[postId].comments - 1)]
        && r.value.users == db.users && r.value.cats == db.cats)
  {
    var d1 := db.(comments := db.comments - {id});
    assert ApplyWrite(db, DeleteComment(id)) == Some(d1);
    ApplyPair(db, DeleteComment(id), UpdatePost(postId, CommentCount(-1)));
    if postId in db.posts {
      var r := d1.(posts := db.posts[postId := db.posts[postId].(comments := db.posts[postId].comments - 1)]);
      assert ApplyWrite(d1, UpdatePost(postId, CommentCount(-1))) == Some(r);
      assert forall k :: k in db.comments && k != id ==> k in r.comments && r.comments[k] == db.comments[k];
    }
  }

  // ----- companions -----

  /** The ids of the companions a user owns. */
  function Owned(cats: map<string, Cat>, userId: string): set<string> {
    set id | id in cats && cats[id].userId == userId
  }

  /** The companions once the grant has reached those in `done`. */
  function GainSome(cats: map<string, Cat>, a: Activity, points: int, done: set<string>): (r: map<string, Cat>)
    ensures r.Keys == cats.Keys
  {
    map id | id in cats :: if id in done then Gain(cats[id], a, points) else cats[id]
  }

  /** What `addExperience` makes of every companion: the owner's ones gain, the others stay. */
  function GainAll(cats: map<string, Cat>, userId: string, a: Activity, points: int): map<string, Cat> {
    GainSome(cats, a, points, Owned(cats, userId))
  }

  /** Before the first update nothing has changed. */
  lemma GainNone(cats: map<string, Cat>, a: Activity, points: int)
    ensures GainSome(cats, a, points, {}) == cats
  {
    var r := GainSome(cats, a, points, {});
    assert r.Keys == cats.Keys;
    forall k | k in r ensures r[k] == cats[k] {
    }
  }

  /** One more companion reached. */
  lemma GainOneMore(cats: map<string, Cat>, a: Activity, points: int, done: set<string>, id: string)
    requires id in cats && id !in done
    ensures GainSome(cats, a, points, done)[id := Gain(cats[id], a, points)] == GainSome(cats, a, points, done + {id})
  {
    var l := GainSome(cats, a, points, done)[id := Gain(cats[id], a, points)];
    var r := GainSome(cats, a, points, done + {id});
    assert l.Keys == r.Keys;
    forall k | k in l ensures l[k] == r[k] {
    }
  }

  /** Part way through, every companion is either untouched or has gained, and only the user's
      companions can have gained. */
  lemma GainSomeEffect(cats: map<string, Cat>, userId: string, a: Activity, points: int, done: set<string>)
    requires done <= Owned(cats, userId)
    ensures var r := GainSome(cats, a, points, done);
      forall id :: id in cats ==>
        r[id] == cats[id] || (cats[id].userId == userId && r[id] == Gain(cats[id], a, points))
  {
  }

  /** After a complete grant every companion of the user has gained the points, has the level its
      experience calls for and has one more of the activity's stat; other users' companions are
      untouched. */
  lemma GainAllEffect(cats: map<string, Cat>, userId: string, a: Activity, points: int)
    ensures var r := GainAll(cats, userId, a, points);
      r.Keys == cats.Keys
      && forall id :: id in cats ==>
        (cats[id].userId == userId ==>
          r[id].experience == cats[id].experience + points && LevelConsistent(r[id])
          && r[id].stats == BumpStat(cats[id].stats, a) && r[id].userId == userId)
        && (cats[id].userId != userId ==> r[id] == cats[id])
  {
  }

  /** The update the source sends for one companion, computed from the snapshot it read. */
  function GainPatch(c: Cat, a: Activity, points: int): CatPatch {
    var e := c.experience + points;
    CatPatch(None, Some(LevelFor(e)), Some(e), None, Some(BumpStat(c.stats, a)))
  }

  /** Merging that update into the document it was read from is the gain. */
  lemma GainPatchIsGain(c: Cat, a: Activity, points: int)
    ensures MergeCat(c, GainPatch(c, a, points)) == Gain(c, a, points)
  {
  }

  /** The update loop of `catService.addExperience`: `updateDoc` of the user's companions one at a
      time, in an arbitrary order (that of the query is not known), each with the update computed
      from the queried snapshot; the first failed update stops the loop and leaves the earlier ones
      in place. `budget` is how many updates the network lets through; `done` is the set of
      companions updated. */
  method GainEach(cats: map<string, Cat>, userId: string, a: Activity, points: int, budget: nat)
    returns (ok: bool, r: map<string, Cat>, ghost done: set<string>)
    ensures done <= Owned(cats, userId)
    ensures ok <==> done == Owned(cats, userId)
    ensures ok <==> budget >= |Owned(cats, userId)|
    ensures !ok ==> |done| == budget
    ensures r == GainSome(cats, a, points, done)
  {
    var owned := Owned(cats, userId);
    var todo := owned;
    var left: nat := budget;
    done := {};
    r := cats;
    GainNone(cats, a, points);
    while todo != {}
      invariant done !! todo && done + todo == owned
      invariant r == GainSome(cats, a, points, done)
      invariant left + |owned| == budget + |todo|
      decreases |todo|
    {
      var id :| id in todo;
      if left == 0 {
        assert id in owned && id !in done;
        assert |todo| > 0;
        return false, r, done;
      }
      var c := cats[id];
      var updated := MergeCat(c, GainPatch(c, a, points));
      GainPatchIsGain(c, a, points);
      GainOneMore(cats, a, points, done, id);
      r := r[id := updated];
      left := left - 1;
      done := done + {id};
      todo := todo - {id};
    }
    assert done == owned by {
      assert done + {} == done;
    }
    ok := true;
  }

  /** The document store: the database and the atomic commit every service call goes through. */
  class DocumentStore {
    var db: Db

    constructor(initial: Db)
      ensures db == initial
    {
      db := initial;
    }

    /** `batch.commit()` (and a single `updateDoc`/`setDoc`/`deleteDoc`, a batch of one). */
    method Commit(batch: seq<Write>, online: bool) returns (ok: bool)
      modifies this
      ensures ok <==> online && ApplyBatch(old(db), batch).Some?
      ensures db == if ok then ApplyBatch(old(db), batch).value else old(db)
    {
      ok := false;
      if online {
        var r := ApplyBatch(db, batch);
        if r.Some? {
          db := r.value;
          ok := true;
        }
      }
    }

    /** `postService.addPost`. */
    method AddPost(post: Post, newId: string, online: bool) returns (ok: bool)
      modifies this
      ensures ok <==> online && post.authorId in old(db).users
      ensures ok ==> ApplyBatch(old(db), AddPostBatch(post, newId)) == Some(db)
      ensures !ok ==> db == old(db)
    {
      AddPostEffect(db, post, newId);
      var batch := [SetPost(newId, post.(id := newId))];
      batch := batch + [UpdateUser(post.authorId, PostDelta(post.kind))];
      ok := Commit(batch, online);
    }

    /** `postService.toggleLike`: read the post (a failed read throws), do nothing when it does not
        exist, else commit the toggle decided from the stored `likedBy`. */
    method ToggleLike(postId: string, uid: string, readOk: bool, online: bool) returns (ok: bool)
      modifies this
      ensures !readOk ==> !ok && db == old(db)
      ensures readOk && postId !in old(db).posts ==> ok && db == old(db)
      ensures readOk && postId in old(db).posts ==>
        var batch := ToggleLikeBatch(old(db).posts[postId].(id := postId), uid);
        (ok <==> online && ApplyBatch(old(db), batch).Some?)
        && (ok ==> ApplyBatch(old(db), batch) == Some(db))
        && (!ok ==> db == old(db))
    {
      if !readOk {
        return false;
      }
      if postId !in db.posts {
        return true;
      }
      var p := db.posts[postId].(id := postId);
      var liked := uid in p.likedBy;
      var batch := [UpdatePost(postId, LikeChange(uid, !liked))];
      if p.authorId != uid {
        batch := batch + [UpdateUser(p.authorId, LikeDelta(uid, p.authorId, liked))];
      }
      ok := Commit(batch, online);
    }

    /** `postService.incrementViews`: fails when the post does not exist. */
    method IncrementViews(postId: string, online: bool) returns (ok: bool)
      modifies this
      ensures ok <==> online && postId in old(db).posts
      ensures ok ==> db == old(db).(posts := old(db).posts[postId := old(db).posts[postId].(views := old(db).posts[postId].views + 1)])
      ensures !ok ==> db == old(db)
    {
      ApplyOne(db, UpdatePost(postId, AddView));
      ok := Commit([UpdatePost(postId, AddView)], online);
    }

    /** `userStatsService.incrementPostCount`: the counters `addPost` bumps, as a separate update. */
    method IncrementPostCount(uid: string, kind: PostType, online: bool) returns (ok: bool)
      requires kind != General
      modifies this
      ensures ok <==> online && uid in old(db).users
      ensures ok ==> db == old(db).(users := old(db).users[uid := old(db).users[uid].(stats := Plus(old(db).users[uid].stats, PostDelta(kind)))])
      ensures !ok ==> db == old(db)
    {
      ApplyOne(db, UpdateUser(uid, PostDelta(kind)));
      ok := Commit([UpdateUser(uid, PostDelta(kind))], online);
    }

    /** `userStatsService.incrementLikesReceived(uid, value)`. */
    method IncrementLikesReceived(uid: string, value: int, online: bool) returns (ok: bool)
      modifies this
      ensures ok <==> online && uid in old(db).users
      ensures ok ==> db == old(db).(users := old(db).users[uid := old(db).users[uid].(stats :=
        old(db).users[uid].stats.(likesReceived := old(db).users[uid].stats.likesReceived + value))])
      ensures !ok ==> db == old(db)
    {
      ApplyOne(db, UpdateUser(uid, Zero.(likesReceived := value)));
      ok := Commit([UpdateUser(uid, Zero.(likesReceived := value))], online);
    }

    /** `userStatsService.incrementCommentsReceived`. */
    method IncrementCommentsReceived(uid: string, online: bool) returns (ok: bool)
      modifies this
      ensures ok <==> online && uid in old(db).users
      ensures ok ==> db == old(db).(users := old(db).users[uid := old(db).users[uid].(stats :=
        old(db).users[uid].stats.(commentsReceived := old(db).users[uid].stats.commentsReceived + 1))])
      ensures !ok ==> db == old(db)
    {
      ApplyOne(db, UpdateUser(uid, Zero.(commentsReceived := 1)));
      ok := Commit([UpdateUser(uid, Zero.(commentsReceived := 1))], online);
    }

    /** `commentService.addComment`: the insert and the post's counter are queued first; the post is
        then read to find its author (a failed read throws before anything is committed). */
    method AddComment(c: Comment, newId: string, readOk: bool, online: bool) returns (ok: bool)
      modifies this
      ensures !readOk ==> !ok && db == old(db)
      ensures readOk ==>
        var batch := AddCommentBatch(old(db), c, newId);
        (ok <==> online && ApplyBatch(old(db), batch).Some?)
        && (ok ==> ApplyBatch(old(db), batch) == Some(db))
        && (!ok ==> db == old(db))
    {
      var batch := [SetComment(newId, c.(id := newId))];
      batch := batch + [UpdatePost(c.postId, CommentCount(1))];
      if !readOk {
        return false;
      }
      if c.postId in db.posts {
        var author := db.posts[c.postId].authorId;
        if author != c.authorId {
          batch := batch + [UpdateUser(author, CommentDelta(c.authorId, author))];
        }
      }
      assert batch == AddCommentBatch(db, c, newId);
      ok := Commit(batch, online);
    }

    /** `commentService.deleteComment`. */
    method DeleteComment(id: string, postId: string, online: bool) returns (ok: bool)
      modifies this
      ensures ok <==> online && postId in old(db).posts
      ensures ok ==> ApplyBatch(old(db), DeleteCommentBatch(id, postId)) == Some(db)
      ensures !ok ==> db == old(db)
    {
      DeleteCommentEffect(db, id, postId);
      var batch := [Write.DeleteComment(id)];
      batch := batch + [UpdatePost(postId, CommentCount(-1))];
      ok := Commit(batch, online);
    }

    /** `commentService.toggleCommentLike`: like `toggleLike`, without any author statistics. */
    method ToggleCommentLike(commentId: string, uid: string, readOk: bool, online: bool) returns (ok: bool)
      modifies this
      ensures !readOk ==> !ok && db == old(db)
      ensures readOk && commentId !in old(db).comments ==> ok && db == old(db)
      ensures readOk && commentId in old(db).comments ==>
        var c := old(db).comments[commentId];
        var s := RemoteToggle(LikeState(c.likes, c.likedBy), uid);
        (ok <==> online)
        && db == if ok then old(db).(comments := old(db).comments[commentId := c.(likes := s.likes, likedBy := s.likedBy)]) else old(db)
    {
      if !readOk {
        return false;
      }
      if commentId !in db.comments {
        return true;
      }
      var liked := uid in db.comments[commentId].likedBy;
      ApplyOne(db, UpdateComment(commentId, CommentLike(uid, !liked)));
      ok := Commit([UpdateComment(commentId, CommentLike(uid, !liked))], online);
    }

    /** `catService.addExperience`: query the user's companions (a failed query throws), then update
        them one at a time; the first failed update throws and leaves the earlier ones in place.
        `writesOk` is how many updates the network lets through. */
    method AddExperience(userId: string, a: Activity, points: int, queryOk: bool, writesOk: nat)
      returns (ok: bool, ghost done: set<string>)
      modifies this
      ensures !queryOk ==> db == old(db) && done == {}
      ensures done <= Owned(old(db).cats, userId)
      ensures db.cats == GainSome(old(db).cats, a, points, done)
      ensures queryOk && !ok ==> |done| == writesOk
      ensures ok <==> queryOk && writesOk >= |Owned(old(db).cats, userId)|
      ensures ok ==> db == old(db).(cats := GainAll(old(db).cats, userId, a, points))
      ensures db == old(db).(cats := db.cats) && db.cats.Keys == old(db).cats.Keys
      ensures forall id :: id in old(db).cats ==>
        db.cats[id] == old(db).cats[id]
        || (old(db).cats[id].userId == userId && db.cats[id] == Gain(old(db).cats[id], a, points))
    {
      if !queryOk {
        GainNone(db.cats, a, points);
        return false, {};
      }
      var cats;
      ok, cats, done := GainEach(db.cats, userId, a, points, writesOk);
      GainSomeEffect(db.cats, userId, a, points, done);
      db := db.(cats := cats);
    }

    /** `emotionService.addEmotionRecord`: insert the record, then grant 10 "emotion" experience. The
        record stays stored when the grant fails, although the call reports a failure. */
    method AddEmotionRecord(e: EmotionRecord, newId: string, online: bool, queryOk: bool, writesOk: nat)
      returns (ok: bool, ghost done: set<string>)
      modifies this
      ensures !online ==> !ok && db == old(db)
      ensures done <= Owned(old(db).cats, e.userId)
      ensures db.cats == GainSome(old(db).cats, EmotionLogging, EmotionRecordPoints, done)
      ensures online && queryOk && !ok ==> |done| == writesOk
      ensures online ==> newId in db.emotions && db.emotions[newId] == e.(id := newId)
      ensures online ==> db.emotions == old(db).emotions[newId := e.(id := newId)]
      ensures ok <==> online && queryOk && writesOk >= |Owned(old(db).cats, e.userId)|
      ensures ok ==> db.cats == GainAll(old(db).cats, e.userId, EmotionLogging, EmotionRecordPoints)
      ensures online && !queryOk ==> db.cats == old(db).cats
      ensures db.cats.Keys == old(db).cats.Keys
      ensures forall id :: id in old(db).cats ==>
        db.cats[id] == old(db).cats[id]
        || (old(db).cats[id].userId == e.userId && db.cats[id] == Gain(old(db).cats[id], EmotionLogging, EmotionRecordPoints))
      ensures db.users == old(db).users && db.posts == old(db).posts && db.comments == old(db).comments
    {
      ApplyOne(db, SetEmotion(newId, e.(id := newId)));
      var stored := Commit([SetEmotion(newId, e.(id := newId))], online);
      if !stored {
        GainNone(db.cats, EmotionLogging, EmotionRecordPoints);
        return false, {};
      }
      ok, done := AddExperience(e.userId, EmotionLogging, EmotionRecordPoints, queryOk, writesOk);
    }
  }
}
