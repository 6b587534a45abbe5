/** The community cache (lib/stores/communityStore.ts): posts with their paging cursor and filters,
    the open post, the comment tree of the open post, the user's companions and emotion records,
    and a loading flag and an error message per family.

    Every action is one atomic step. The outcome of each service call it awaits is a parameter
    (`Reply` for calls that return a value, `Outcome` for the others), and the action returns the
    service calls it issued, in order. The logged-in user of the authentication store is a
    parameter too: lib/stores/authStore.ts is not part of this model. */
module Store {
  import opened Types
  import opened Likes
  import opened Counters
  import opened Queries
  import opened CommentTree

  /** What a `catch` receives: an `Error` with its message, or any other thrown value. */
  datatype Thrown = ErrorObject(message: string) | NonError

  /** The settled value of an awaited service call that returns something. */
  datatype Reply<T> = Returned(value: T) | Raised(thrown: Thrown)

  /** The settled value of an awaited service call that returns nothing. */
  datatype Outcome = Completed | Threw(thrown: Thrown)

  /** `error instanceof Error ? error.message : fallback`. */
  function MessageOr(t: Thrown, fallback: string): string {
    if t.ErrorObject? then t.message else fallback
  }

  /** The fields of the logged-in user the store reads. */
  datatype AuthUser = AuthUser(uid: string, nickname: Option<string>, displayName: Option<string>, photoURL: Option<string>)

  const LoginRequired := "로그인이 필요한 기능입니다."
  const NotYourPostToEdit := "본인의 게시글만 수정할 수 있습니다."
  const NotYourPostToDelete := "본인의 게시글만 삭제할 수 있습니다."
  const DefaultAuthorName := "사용자"
  const PhotoAvatar := "🖼️"
  const PlainAvatar := "👤"

  /** `user.nickname || user.displayName || "사용자"`. */
  function AuthorName(u: AuthUser): (name: string)
    ensures name != ""
    ensures Truthy(u.nickname) ==> name == u.nickname.value
    ensures !Truthy(u.nickname) && Truthy(u.displayName) ==> name == u.displayName.value
    ensures !Truthy(u.nickname) && !Truthy(u.displayName) ==> name == DefaultAuthorName
  {
    if Truthy(u.nickname) then u.nickname.value
    else if Truthy(u.displayName) then u.displayName.value
    else DefaultAuthorName
  }

  function AuthorAvatar(u: AuthUser): string {
    if Truthy(u.photoURL) then PhotoAvatar else PlainAvatar
  }

  /** A post as the store hands it to the service: the author fields come from the logged-in user. */
  function Authored(data: Post, u: AuthUser): (p: Post)
    ensures p.authorId == u.uid && p.authorName == AuthorName(u)
    ensures p.authorAvatar == (if Truthy(u.photoURL) then PhotoAvatar else PlainAvatar)
    ensures p.(authorId := data.authorId, authorName := data.authorName, authorAvatar := data.authorAvatar) == data
  {
    data.(authorId := u.uid, authorName := AuthorName(u), authorAvatar := AuthorAvatar(u))
  }

  /** A comment as the store hands it to the service. */
  function AuthoredComment(data: Comment, u: AuthUser): (c: Comment)
    ensures c.authorId == u.uid && c.authorName == AuthorName(u)
    ensures c.authorAvatar == (if Truthy(u.photoURL) then PhotoAvatar else PlainAvatar)
    ensures c.(authorId := data.authorId, authorName := data.authorName, authorAvatar := data.authorAvatar) == data
  {
    data.(authorId := u.uid, authorName := AuthorName(u), authorAvatar := AuthorAvatar(u))
  }

  /** The service calls the store makes. */
  datatype Call =
    | FetchPage(request: PageRequest)
    | FetchPost(id: string)
    | CreatePost(post: Post)
    | GrantExperience(userId: string, activity: Activity, points: int)
    | ChangePost(id: string, patch: PostPatch)
    | RemovePost(id: string)
    | ToggleLikeOfPost(postId: string, uid: string)
    | CountView(postId: string)
    | FetchComments(postId: string)
    | CreateComment(comment: Comment)
    | ChangeComment(id: string, commentPatch: CommentPatch)
    | RemoveComment(id: string, postId: string)
    | ToggleLikeOfComment(commentId: string, uid: string)
    | FetchCats(userId: string)
    | CreateCat(cat: Cat)
    | ChangeCat(id: string, catPatch: CatPatch)
    | FetchEmotions(userId: string)
    | CreateEmotion(emotion: EmotionRecord)
    | ChangeEmotion(id: string, emotionPatch: EmotionPatch)
    | RemoveEmotion(id: string)

  /** The experience grant that follows a new post: 20, 15 or 10 points for a review, a discussion or
      an emotion post, none for a general one. */
  function RewardCalls(uid: string, kind: PostType): (cs: seq<Call>)
    ensures |cs| <= 1
    ensures kind == General <==> cs == []
    ensures kind == Review ==> cs == [GrantExperience(uid, Reviewing, 20)]
    ensures kind == Discussion ==> cs == [GrantExperience(uid, Discussing, 15)]
    ensures kind == Emotion ==> cs == [GrantExperience(uid, EmotionLogging, 10)]
  {
    var g := PostReward(kind);
    if g.Some? then [GrantExperience(uid, g.value.0, g.value.1)] else []
  }

  // ----- edits of the cached posts -----

  /** What an action does to the cached copies of one post. */
  datatype PostEdit =
    | PatchPost(patch: PostPatch)
    | FlipLike(uid: string)
    | OneMoreView
    | CommentsBy(delta: int)

  function EditPost(p: Post, e: PostEdit): (r: Post)
    ensures r.id == p.id && r.authorId == p.authorId && r.kind == p.kind
    ensures e.PatchPost? ==> r == MergePost(p, e.patch)
    ensures e.FlipLike? ==>
      r.(likes := p.likes, likedBy := p.likedBy) == p
      && (e.uid in r.likedBy <==> e.uid !in p.likedBy)
      && r.likes == (if e.uid in p.likedBy then p.likes - 1 else p.likes + 1)
      && forall y :: y != e.uid ==> (y in r.likedBy <==> y in p.likedBy)
    ensures e.OneMoreView? ==> r.(views := p.views) == p && r.views == p.views + 1
    ensures e.CommentsBy? ==> r.(comments := p.comments) == p && r.comments == p.comments + e.delta
  {
    match e
    case PatchPost(u) => MergePost(p, u)
    case FlipLike(uid) =>
      var s := LocalToggle(LikeState(p.likes, p.likedBy), uid);
      ToggleFlips(LikeState(p.likes, p.likedBy), uid);
      p.(likes := s.likes, likedBy := s.likedBy)
    case OneMoreView => p.(views := p.views + 1)
    case CommentsBy(d) => p.(comments := p.comments + d)
  }

  /** `posts.map(post => post.id === id ? edited : post)`. */
  function EditPosts(ps: seq<Post>, id: string, e: PostEdit): (r: seq<Post>)
    ensures |r| == |ps|
    ensures forall i :: 0 <= i < |ps| ==> r[i] == if ps[i].id == id then EditPost(ps[i], e) else ps[i]
  {
    seq(|ps|, i requires 0 <= i < |ps| => if ps[i].id == id then EditPost(ps[i], e) else ps[i])
  }

  /** `currentPost?.id === id ? edited : currentPost`. */
  function EditCurrent(cp: Option<Post>, id: string, e: PostEdit): (r: Option<Post>)
    ensures r.Some? <==> cp.Some?
    ensures cp.Some? && cp.value.id == id ==> r.value == EditPost(cp.value, e)
    ensures cp.Some? && cp.value.id != id ==> r == cp
  {
    if cp.Some? && cp.value.id == id then Some(EditPost(cp.value, e)) else cp
  }

  /** Toggling a like twice on the cached posts gives back the same list when the user had not
      liked the post. */
  lemma FlipTwiceRestores(ps: seq<Post>, id: string, uid: string)
    requires forall i :: 0 <= i < |ps| && ps[i].id == id ==> uid !in ps[i].likedBy
    ensures EditPosts(EditPosts(ps, id, FlipLike(uid)), id, FlipLike(uid)) == ps
  {
    var r := EditPosts(EditPosts(ps, id, FlipLike(uid)), id, FlipLike(uid));
    forall i | 0 <= i < |ps| ensures r[i] == ps[i] {
      if ps[i].id == id {
        LikeThenUnlikeRestores(LikeState(ps[i].likes, ps[i].likedBy), uid);
      }
    }
  }

  /** When the user had liked it, two toggles give back every counter and every set of likers
      (the returning like goes to the end of `likedBy`). */
  lemma FlipTwiceRestoresLikers(ps: seq<Post>, id: string, uid: string)
    requires forall i :: 0 <= i < |ps| ==> Consistent(LikeState(ps[i].likes, ps[i].likedBy))
    ensures var r := EditPosts(EditPosts(ps, id, FlipLike(uid)), id, FlipLike(uid));
      forall i :: 0 <= i < |ps| ==>
        r[i].likes == ps[i].likes && (forall y :: y in r[i].likedBy <==> y in ps[i].likedBy)
        && r[i].(likes := ps[i].likes, likedBy := ps[i].likedBy) == ps[i]
  {
    var r := EditPosts(EditPosts(ps, id, FlipLike(uid)), id, FlipLike(uid));
    forall i | 0 <= i < |ps|
      ensures r[i].likes == ps[i].likes && (forall y :: y in r[i].likedBy <==> y in ps[i].likedBy)
    {
      if ps[i].id == id {
        var s := LikeState(ps[i].likes, ps[i].likedBy);
        if uid in s.likedBy {
          UnlikeThenLikeRestoresLikers(s, uid);
        } else {
          LikeThenUnlikeRestores(s, uid);
        }
      }
    }
  }

  /** A toggle keeps `likes == |likedBy|` on every cached post. */
  lemma FlipKeepsConsistent(ps: seq<Post>, id: string, uid: string)
    requires forall i :: 0 <= i < |ps| ==> Consistent(LikeState(ps[i].likes, ps[i].likedBy))
    ensures var r := EditPosts(ps, id, FlipLike(uid));
      forall i :: 0 <= i < |r| ==> Consistent(LikeState(r[i].likes, r[i].likedBy))
  {
    var r := EditPosts(ps, id, FlipLike(uid));
    forall i | 0 <= i < |r| ensures Consistent(LikeState(r[i].likes, r[i].likedBy)) {
      ToggleKeepsConsistent(LikeState(ps[i].likes, ps[i].likedBy), uid);
    }
  }

  /** The cached copy agrees with the service's toggle whenever both start from the same post. */
  lemma FlipMirrorsService(p: Post, uid: string)
    ensures var q := EditPost(p, FlipLike(uid));
      LikeState(q.likes, q.likedBy) == RemoteToggle(LikeState(p.likes, p.likedBy), uid)
    ensures var q := EditPost(p, FlipLike(uid));
      (uid in q.likedBy <==> uid !in p.likedBy) && q.likes == p.likes + (if uid in p.likedBy then -1 else 1)
  {
    ToggleFlips(LikeState(p.likes, p.likedBy), uid);
    MirrorAgrees(LikeState(p.likes, p.likedBy), uid);
  }

  /** `posts.filter(post => post.id !== id)`. */
  function RemovePosts(ps: seq<Post>, id: string): seq<Post> {
    if ps == [] then []
    else if ps[0].id == id then RemovePosts(ps[1..], id)
    else [ps[0]] + RemovePosts(ps[1..], id)
  }

  /** The filter keeps exactly the posts with another id, in their order, and changes nothing when
      no post has the id. */
  lemma {:induction false} RemovePostsKeeps(ps: seq<Post>, id: string)
    ensures var r := RemovePosts(ps, id);
      (forall p :: p in r <==> p in ps && p.id != id)
      && |r| <= |ps|
      && ((forall i :: 0 <= i < |ps| ==> ps[i].id != id) ==> r == ps)
  {
    if ps != [] {
      var tail := ps[1..];
      RemovePostsKeeps(tail, id);
      assert ps == [ps[0]] + tail;
      assert forall x :: x in ps <==> x == ps[0] || x in tail;
      if (forall i :: 0 <= i < |ps| ==> ps[i].id != id) {
        assert forall i :: 0 <= i < |tail| ==> tail[i].id != id by {
          forall i | 0 <= i < |tail| ensures tail[i].id != id {
            assert tail[i] == ps[i + 1];
          }
        }
      }
    }
  }

  /** After a removal the open post is closed when it is the one removed. */
  function CloseIfRemoved(cp: Option<Post>, id: string): (r: Option<Post>)
    ensures r.None? <==> cp.None? || cp.value.id == id
    ensures r.Some? ==> r == cp
  {
    if cp.Some? && cp.value.id == id then None else cp
  }

  /** `posts.find(p => p.id === id)`: the first cached post with the id. */
  function Find(ps: seq<Post>, id: string): Option<Post> {
    if ps == [] then None
    else if ps[0].id == id then Some(ps[0])
    else Find(ps[1..], id)
  }

  /** The search finds a post with the id, the first one, and nothing exactly when there is none. */
  lemma {:induction false} FindFirst(ps: seq<Post>, id: string)
    ensures var r := Find(ps, id);
      (r.Some? ==> r.value in ps && r.value.id == id)
      && (r.None? <==> forall i :: 0 <= i < |ps| ==> ps[i].id != id)
      && (r.Some? ==> exists i :: 0 <= i < |ps| && ps[i] == r.value && forall k :: 0 <= k < i ==> ps[k].id != id)
  {
    if ps != [] && ps[0].id != id {
      FindFirst(ps[1..], id);
      var r := Find(ps, id);
      if r.Some? {
        var i :| 0 <= i < |ps[1..]| && ps[1..][i] == r.value && forall k :: 0 <= k < i ==> ps[1..][k].id != id;
        assert ps[i + 1] == r.value;
        forall k | 0 <= k < i + 1 ensures ps[k].id != id {
          if k > 0 {
            assert ps[k] == ps[1..][k - 1];
          }
        }
      } else {
        forall i | 0 <= i < |ps| ensures ps[i].id != id {
          if i > 0 {
            assert ps[i] == ps[1..][i - 1];
          }
        }
      }
    } else if ps != [] {
      assert ps[0] == Find(ps, id).value;
    }
  }

  /** `posts.find(p => p.id === id) || currentPost`: the copy the authorship check looks at. It
      falls back to the open post whatever that post's id is. */
  function CachedCopy(ps: seq<Post>, cp: Option<Post>, id: string): Option<Post> {
    var f := Find(ps, id);
    if f.Some? then f else cp
  }

  /** The authorship check: no copy, or a copy written by the user. */
  predicate MayChange(cached: Option<Post>, uid: string) {
    cached.None? || cached.value.authorId == uid
  }

  /** A post of another author in the list is refused; a post the store has never seen, with no open
      post, is let through to the service unchecked. */
  lemma OwnershipCheck(ps: seq<Post>, cp: Option<Post>, id: string, uid: string)
    ensures forall i :: 0 <= i < |ps| && ps[i].id == id && (forall k :: 0 <= k < i ==> ps[k].id != id) ==>
      (MayChange(CachedCopy(ps, cp, id), uid) <==> ps[i].authorId == uid)
    ensures (forall i :: 0 <= i < |ps| ==> ps[i].id != id) ==>
      (MayChange(CachedCopy(ps, cp, id), uid) <==> cp.None? || cp.value.authorId == uid)
  {
    FindFirst(ps, id);
    forall i | 0 <= i < |ps| && ps[i].id == id && (forall k :: 0 <= k < i ==> ps[k].id != id)
      ensures MayChange(CachedCopy(ps, cp, id), uid) <==> ps[i].authorId == uid
    {
      var r := Find(ps, id);
      var j :| 0 <= j < |ps| && ps[j] == r.value && forall k :: 0 <= k < j ==> ps[k].id != id;
      assert !(j < i) && !(i < j);
    }
  }

  /** The fallback ignores the open post's id: a user's own post that is not in the list is refused
      while another author's post is open. */
  lemma OpenPostOfAnotherBlocksOwnEdit()
    ensures var own := NoPost.(id := "mine", authorId := "me");
      var open := NoPost.(id := "theirs", authorId := "them");
      !MayChange(CachedCopy([], Some(open), own.id), own.authorId)
  {
  }

  /** A post with every field empty, as a starting point for concrete examples. */
  const NoPost := Post("", General, "", "", "", "", "", None, None, None, None, None, [], 0, [], 0, 0, None, None)

  // ----- edits of the cached companions and emotion records -----

  /** `cats.map(cat => cat.id === id ? { ...cat, ...updates } : cat)`. */
  function PatchCats(cs: seq<Cat>, id: string, u: CatPatch): (r: seq<Cat>)
    ensures |r| == |cs|
    ensures forall i :: 0 <= i < |cs| ==> r[i] == if cs[i].id == id then MergeCat(cs[i], u) else cs[i]
  {
    seq(|cs|, i requires 0 <= i < |cs| => if cs[i].id == id then MergeCat(cs[i], u) else cs[i])
  }

  function PatchEmotions(es: seq<EmotionRecord>, id: string, u: EmotionPatch): (r: seq<EmotionRecord>)
    ensures |r| == |es|
    ensures forall i :: 0 <= i < |es| ==> r[i] == if es[i].id == id then MergeEmotion(es[i], u) else es[i]
  {
    seq(|es|, i requires 0 <= i < |es| => if es[i].id == id then MergeEmotion(es[i], u) else es[i])
  }

  /** `emotions.filter(emotion => emotion.id !== id)`. */
  function RemoveEmotions(es: seq<EmotionRecord>, id: string): seq<EmotionRecord> {
    if es == [] then []
    else if es[0].id == id then RemoveEmotions(es[1..], id)
    else [es[0]] + RemoveEmotions(es[1..], id)
  }

  /** The filter keeps exactly the records with another id, and changes nothing when no record has
      the id. */
  lemma {:induction false} RemoveEmotionsKeeps(es: seq<EmotionRecord>, id: string)
    ensures var r := RemoveEmotions(es, id);
      (forall e :: e in r <==> e in es && e.id != id)
      && |r| <= |es|
      && ((forall i :: 0 <= i < |es| ==> es[i].id != id) ==> r == es)
  {
    if es != [] {
      var tail := es[1..];
      RemoveEmotionsKeeps(tail, id);
      assert es == [es[0]] + tail;
      assert forall x :: x in es <==> x == es[0] || x in tail;
      if (forall i :: 0 <= i < |es| ==> es[i].id != id) {
        assert forall i :: 0 <= i < |tail| ==> tail[i].id != id by {
          forall i | 0 <= i < |tail| ensures tail[i].id != id {
            assert tail[i] == es[i + 1];
          }
        }
      }
    }
  }

  // ----- the whole state -----

  datatype StoreState = StoreState(
    currentUser: Option<string>,
    posts: seq<Post>,
    currentPost: Option<Post>,
    postsLoading: bool,
    postsError: Option<string>,
    filters: Filters,
    lastDoc: Option<Cursor>,
    hasMorePosts: bool,
    comments: seq<Comment>,
    commentsLoading: bool,
    commentsError: Option<string>,
    cats: seq<Cat>,
    catsLoading: bool,
    catsError: Option<string>,
    emotions: seq<EmotionRecord>,
    emotionsLoading: bool,
    emotionsError: Option<string>)

  const Initial := StoreState(None, [], None, false, None, NoFilters, None, true, [], false, None, [], false, None, [], false, None)

  /** A page has arrived: replace or extend the list, keep its cursor, and keep asking for more
      while pages come back full. */
  function WithPage(s: StoreState, docs: seq<Post>, reset: bool): (r: StoreState)
    ensures r.posts == (if reset then docs else s.posts + docs)
    ensures r.hasMorePosts <==> |docs| == PageSize
    ensures r.lastDoc == PageOf(docs).lastDoc
    ensures r.(posts := s.posts, lastDoc := s.lastDoc, hasMorePosts := s.hasMorePosts, postsLoading := s.postsLoading) == s
    ensures !r.postsLoading
  {
    s.(posts := if reset then docs else s.posts + docs, lastDoc := PageOf(docs).lastDoc,
       hasMorePosts := |docs| == PageSize, postsLoading := false)
  }

  /** Two pages read one after the other without a reset are the concatenation of both, after the
      posts already there, and the cursor is that of the pair read as one page. */
  lemma TwoPagesAppend(s: StoreState, a: seq<Post>, b: seq<Post>)
    requires b != []
    ensures var r := WithPage(WithPage(s, a, false), b, false);
      r.posts == s.posts + (a + b) && r.lastDoc == PageOf(a + b).lastDoc
  {
    CursorOfConcatenation(a, b);
    assert s.posts + a + b == s.posts + (a + b);
  }

  /** A short page ends the paging, and an empty one also clears the cursor. */
  lemma ShortPageStops(s: StoreState, docs: seq<Post>, reset: bool)
    requires |docs| < PageSize
    ensures !WithPage(s, docs, reset).hasMorePosts
    ensures docs == [] ==> WithPage(s, docs, reset).lastDoc.None?
  {
  }

  /** The request `loadMorePosts` issues, if any: none once paging has stopped or without a cursor;
      the filtered query exactly when some filter key is set. */
  function MoreRequest(s: StoreState): (q: Option<PageRequest>)
    ensures q.None? <==> !s.hasMorePosts || s.lastDoc.None?
    ensures q.Some? ==> (q.value.Filtered? <==> KeyCount(s.filters) > 0)
    ensures q.Some? ==> q.value.pageSize == PageSize && q.value.after == s.lastDoc
    ensures q.Some? && q.value.Filtered? ==> q.value.filters == s.filters
  {
    if !s.hasMorePosts || s.lastDoc.None? then None
    else if KeyCount(s.filters) > 0 then Some(Filtered(s.filters, PageSize, s.lastDoc))
    else Some(AllPosts(PageSize, s.lastDoc))
  }

  /** Loading more after an empty page asks for nothing. */
  lemma NoMoreAfterEmptyPage(s: StoreState, reset: bool)
    ensures MoreRequest(WithPage(s, [], reset)).None?
  {
  }

  /** Which errors `clearErrors` resets. */
  function Cleared(s: StoreState): (r: StoreState)
    ensures r.postsError.None? && r.commentsError.None? && r.catsError.None? && r.emotionsError.None?
    ensures r.(postsError := s.postsError, commentsError := s.commentsError, catsError := s.catsError, emotionsError := s.emotionsError) == s
  {
    s.(postsError := None, commentsError := None, catsError := None, emotionsError := None)
  }

  /** Clearing the errors twice is clearing them once. */
  lemma ClearIdempotent(s: StoreState)
    ensures Cleared(Cleared(s)) == Cleared(s)
  {
  }

  class CommunityStore {
    var currentUser: Option<string>
    var posts: seq<Post>
    var currentPost: Option<Post>
    var postsLoading: bool
    var postsError: Option<string>
    var filters: Filters
    var lastDoc: Option<Cursor>
    var hasMorePosts: bool
    var comments: seq<Comment>
    var commentsLoading: bool
    var commentsError: Option<string>
    var cats: seq<Cat>
    var catsLoading: bool
    var catsError: Option<string>
    var emotions: seq<EmotionRecord>
    var emotionsLoading: bool
    var emotionsError: Option<string>

    function State(): StoreState
      reads this
    {
      StoreState(currentUser, posts, currentPost, postsLoading, postsError, filters, lastDoc, hasMorePosts,
        comments, commentsLoading, commentsError, cats, catsLoading, catsError, emotions, emotionsLoading, emotionsError)
    }

    /** The initial state: nothing loaded, no filters, no cursor, and more posts assumed. */
    constructor()
      ensures State() == Initial
    {
      currentUser := None;
      posts := [];
      currentPost := None;
      postsLoading := false;
      postsError := None;
      filters := NoFilters;
      lastDoc := None;
      hasMorePosts := true;
      comments := [];
      commentsLoading := false;
      commentsError := None;
      cats := [];
      catsLoading := false;
      catsError := None;
      emotions := [];
      emotionsLoading := false;
      emotionsError := None;
    }

    /** Apply a page the service returned. */
    method TakePage(docs: seq<Post>, reset: bool)
      modifies this
      ensures State() == WithPage(old(State()), docs, reset)
    {
      if reset {
        posts := docs;
      } else {
        posts := posts + docs;
      }
      lastDoc := PageOf(docs).lastDoc;
      hasMorePosts := |docs| == PageSize;
      postsLoading := false;
    }

    /** `fetchPosts(reset)`: the first page of all posts, newest first. */
    method FetchPosts(reset: bool, reply: Reply<seq<Post>>) returns (issued: seq<Call>)
      modifies this
      ensures issued == [FetchPage(AllPosts(PageSize, None))]
      ensures reply.Returned? ==> State() == WithPage(old(State()).(postsError := None), reply.value, reset)
      ensures reply.Raised? ==> State() == old(State()).(
        postsError := Some(MessageOr(reply.thrown, "게시글을 불러오는데 실패했습니다.")), postsLoading := false)
    {
      postsLoading := true;
      postsError := None;
      issued := [FetchPage(AllPosts(PageSize, None))];
      match reply
      case Returned(docs) =>
        TakePage(docs, reset);
      case Raised(t) =>
        postsError := Some(MessageOr(t, "게시글을 불러오는데 실패했습니다."));
        postsLoading := false;
    }

    /** `fetchPostById(id)`: the service answers `null` for a missing post. */
    method FetchPostById(id: string, reply: Reply<Option<Post>>) returns (issued: seq<Call>)
      modifies this
      ensures issued == [FetchPost(id)]
      ensures reply.Returned? ==> State() == old(State()).(currentPost := reply.value, postsError := None, postsLoading := false)
      ensures reply.Raised? ==> State() == old(State()).(
        postsError := Some(MessageOr(reply.thrown, "게시글을 불러오는데 실패했습니다.")), postsLoading := false)
    {
      postsLoading := true;
      postsError := None;
      issued := [FetchPost(id)];
      match reply
      case Returned(p) =>
        currentPost := p;
        postsLoading := false;
      case Raised(t) =>
        postsError := Some(MessageOr(t, "게시글을 불러오는데 실패했습니다."));
        postsLoading := false;
    }

    /** `searchPosts(filters, reset)`: the filters are stored before the first filtered page is asked for. */
    method SearchPosts(f: Filters, reset: bool, reply: Reply<seq<Post>>) returns (issued: seq<Call>)
      modifies this
      ensures issued == [FetchPage(Filtered(f, PageSize, None))]
      ensures reply.Returned? ==> State() == WithPage(old(State()).(postsError := None, filters := f), reply.value, reset)
      ensures reply.Raised? ==> State() == old(State()).(
        filters := f, postsError := Some(MessageOr(reply.thrown, "검색에 실패했습니다.")), postsLoading := false)
    {
      postsLoading := true;
      postsError := None;
      filters := f;
      issued := [FetchPage(Filtered(f, PageSize, None))];
      match reply
      case Returned(docs) =>
        TakePage(docs, reset);
      case Raised(t) =>
        postsError := Some(MessageOr(t, "검색에 실패했습니다."));
        postsLoading := false;
    }

    /** `loadMorePosts()`: the next page after the cursor, appended. */
    method LoadMorePosts(reply: Reply<seq<Post>>) returns (issued: seq<Call>)
      modifies this
      ensures MoreRequest(old(State())).None? ==> issued == [] && State() == old(State())
      ensures MoreRequest(old(State())).Some? ==> issued == [FetchPage(MoreRequest(old(State())).value)]
      ensures MoreRequest(old(State())).Some? && reply.Returned? ==> State() == WithPage(old(State()), reply.value, false)
      ensures MoreRequest(old(State())).Some? && reply.Raised? ==> State() == old(State()).(
        postsError := Some(MessageOr(reply.thrown, "더 많은 게시글을 불러오는데 실패했습니다.")), postsLoading := false)
    {
      if !hasMorePosts || lastDoc.None? {
        return [];
      }
      postsLoading := true;
      if KeyCount(filters) > 0 {
        issued := [FetchPage(Filtered(filters, PageSize, lastDoc))];
      } else {
        issued := [FetchPage(AllPosts(PageSize, lastDoc))];
      }
      match reply
      case Returned(docs) =>
        TakePage(docs, false);
      case Raised(t) =>
        postsError := Some(MessageOr(t, "더 많은 게시글을 불러오는데 실패했습니다."));
        postsLoading := false;
    }

    /** `addPost(data)`: create the post under the logged-in user, grant the companions their
        experience, then put the post first in the list. Any failure is recorded and rethrown; a
        failed grant leaves the post created but not listed. */
    method AddPost(user: Option<AuthUser>, data: Post, saved: Reply<string>, granted: Outcome)
      returns (r: Result<string, Thrown>, issued: seq<Call>)
      modifies this
      ensures user.None? ==> r == Err(ErrorObject(LoginRequired)) && issued == []
      ensures user.Some? ==> |issued| >= 1 && issued[0] == CreatePost(Authored(data, user.value))
      ensures user.Some? && saved.Returned? ==>
        issued == [CreatePost(Authored(data, user.value))] + RewardCalls(user.value.uid, data.kind)
      ensures user.Some? && saved.Raised? ==> issued == [CreatePost(Authored(data, user.value))]
      ensures r.Ok? <==> user.Some? && saved.Returned? && (data.kind == General || granted.Completed?)
      ensures r.Ok? ==>
        r.value == saved.value && State() == old(State()).(posts := [Authored(data, user.value).(id := saved.value)] + old(posts))
      ensures r.Err? ==> State() == old(State()).(postsError := Some(MessageOr(r.error, "게시글 작성에 실패했습니다.")))
    {
      if user.None? {
        r, issued := Err(ErrorObject(LoginRequired)), [];
        postsError := Some(LoginRequired);
        return;
      }
      var u := user.value;
      var post := Authored(data, u);
      issued := [CreatePost(post)];
      if saved.Raised? {
        r := Err(saved.thrown);
        postsError := Some(MessageOr(saved.thrown, "게시글 작성에 실패했습니다."));
        return;
      }
      var postId := saved.value;
      var reward := PostReward(post.kind);
      if reward.Some? {
        issued := issued + [GrantExperience(u.uid, reward.value.0, reward.value.1)];
        if granted.Threw? {
          r := Err(granted.thrown);
          postsError := Some(MessageOr(granted.thrown, "게시글 작성에 실패했습니다."));
          return;
        }
      }
      posts := [post.(id := postId)] + posts;
      r := Ok(postId);
    }

    /** `updatePost(id, updates)`: refuse a post whose cached copy has another author, then merge the
        updates into every cached copy with the id. */
    method UpdatePost(user: Option<AuthUser>, id: string, u: PostPatch, done: Outcome)
      returns (r: Option<Thrown>, issued: seq<Call>)
      modifies this
      ensures user.None? ==> r == Some(ErrorObject(LoginRequired)) && issued == []
      ensures user.Some? && !MayChange(CachedCopy(old(posts), old(currentPost), id), user.value.uid) ==>
        r == Some(ErrorObject(NotYourPostToEdit)) && issued == []
      ensures user.Some? && MayChange(CachedCopy(old(posts), old(currentPost), id), user.value.uid) ==>
        issued == [ChangePost(id, u)] && (r.None? <==> done.Completed?)
      ensures r.None? ==> State() == old(State()).(
        posts := EditPosts(old(posts), id, PatchPost(u)), currentPost := EditCurrent(old(currentPost), id, PatchPost(u)))
      ensures r.Some? ==> State() == old(State()).(postsError := Some(MessageOr(r.value, "게시글 수정에 실패했습니다.")))
    {
      if user.None? {
        r, issued := Some(ErrorObject(LoginRequired)), [];
        postsError := Some(LoginRequired);
        return;
      }
      if !MayChange(CachedCopy(posts, currentPost, id), user.value.uid) {
        r, issued := Some(ErrorObject(NotYourPostToEdit)), [];
        postsError := Some(NotYourPostToEdit);
        return;
      }
      issued := [ChangePost(id, u)];
      if done.Threw? {
        r := Some(done.thrown);
        postsError := Some(MessageOr(done.thrown, "게시글 수정에 실패했습니다."));
        return;
      }
      posts := EditPosts(posts, id, PatchPost(u));
      currentPost := EditCurrent(currentPost, id, PatchPost(u));
      r := None;
    }

    /** `deletePost(id)`: the same authorship check, then drop the id from the list and close it if open. */
    method DeletePost(user: Option<AuthUser>, id: string, done: Outcome)
      returns (r: Option<Thrown>, issued: seq<Call>)
      modifies this
      ensures user.None? ==> r == Some(ErrorObject(LoginRequired)) && issued == []
      ensures user.Some? && !MayChange(CachedCopy(old(posts), old(currentPost), id), user.value.uid) ==>
        r == Some(ErrorObject(NotYourPostToDelete)) && issued == []
      ensures user.Some? && MayChange(CachedCopy(old(posts), old(currentPost), id), user.value.uid) ==>
        issued == [RemovePost(id)] && (r.None? <==> done.Completed?)
      ensures r.None? ==> State() == old(State()).(
        posts := RemovePosts(old(posts), id),
        currentPost := CloseIfRemoved(old(currentPost), id))
      ensures r.Some? ==> State() == old(State()).(postsError := Some(MessageOr(r.value, "게시글 삭제에 실패했습니다.")))
    {
      if user.None? {
        r, issued := Some(ErrorObject(LoginRequired)), [];
        postsError := Some(LoginRequired);
        return;
      }
      if !MayChange(CachedCopy(posts, currentPost, id), user.value.uid) {
        r, issued := Some(ErrorObject(NotYourPostToDelete)), [];
        postsError := Some(NotYourPostToDelete);
        return;
      }
      issued := [RemovePost(id)];
      if done.Threw? {
        r := Some(done.thrown);
        postsError := Some(MessageOr(done.thrown, "게시글 삭제에 실패했습니다."));
        return;
      }
      posts := RemovePosts(posts, id);
      currentPost := CloseIfRemoved(currentPost, id);
      r := None;
    }

    /** `togglePostLike(postId)`: after the service's toggle, mirror it on every cached copy. */
    method TogglePostLike(user: Option<AuthUser>, postId: string, done: Outcome)
      returns (r: Option<Thrown>, issued: seq<Call>)
      modifies this
      ensures user.None? ==> r == Some(ErrorObject(LoginRequired)) && issued == []
      ensures user.Some? ==> issued == [ToggleLikeOfPost(postId, user.value.uid)] && (r.None? <==> done.Completed?)
      ensures r.None? ==> State() == old(State()).(
        posts := EditPosts(old(posts), postId, FlipLike(user.value.uid)),
        currentPost := EditCurrent(old(currentPost), postId, FlipLike(user.value.uid)))
      ensures r.Some? ==> State() == old(State()).(postsError := Some(MessageOr(r.value, "좋아요 처리에 실패했습니다.")))
    {
      if user.None? {
        r, issued := Some(ErrorObject(LoginRequired)), [];
        postsError := Some(LoginRequired);
        return;
      }
      var uid := user.value.uid;
      issued := [ToggleLikeOfPost(postId, uid)];
      if done.Threw? {
        r := Some(done.thrown);
        postsError := Some(MessageOr(done.thrown, "좋아요 처리에 실패했습니다."));
        return;
      }
      posts := EditPosts(posts, postId, FlipLike(uid));
      currentPost := EditCurrent(currentPost, postId, FlipLike(uid));
      r := None;
    }

    /** `incrementPostViews(postId)`: no login needed, and a failure changes nothing at all. */
    method IncrementPostViews(postId: string, done: Outcome) returns (issued: seq<Call>)
      modifies this
      ensures issued == [CountView(postId)]
      ensures done.Completed? ==> State() == old(State()).(
        posts := EditPosts(old(posts), postId, OneMoreView), currentPost := EditCurrent(old(currentPost), postId, OneMoreView))
      ensures done.Threw? ==> State() == old(State())
    {
      issued := [CountView(postId)];
      if done.Completed? {
        posts := EditPosts(posts, postId, OneMoreView);
        currentPost := EditCurrent(currentPost, postId, OneMoreView);
      }
    }

    method SetCurrentPost(p: Option<Post>)
      modifies this
      ensures State() == old(State()).(currentPost := p)
    {
      currentPost := p;
    }

    /** `setFilters`: only the filters change; nothing is fetched. */
    method SetFilters(f: Filters)
      modifies this
      ensures State() == old(State()).(filters := f)
    {
      filters := f;
    }

    method SetCurrentUser(u: Option<string>)
      modifies this
      ensures State() == old(State()).(currentUser := u)
    {
      currentUser := u;
    }

    /** `fetchComments(postId)`: the tree the service built replaces the cached one. */
    method FetchComments(postId: string, reply: Reply<seq<Comment>>) returns (issued: seq<Call>)
      modifies this
      ensures issued == [Call.FetchComments(postId)]
      ensures reply.Returned? ==> State() == old(State()).(comments := reply.value, commentsError := None, commentsLoading := false)
      ensures reply.Raised? ==> State() == old(State()).(
        commentsError := Some(MessageOr(reply.thrown, "댓글을 불러오는데 실패했습니다.")), commentsLoading := false)
    {
      commentsLoading := true;
      commentsError := None;
      issued := [Call.FetchComments(postId)];
      match reply
      case Returned(ts) =>
        comments := ts;
        commentsLoading := false;
      case Raised(t) =>
        commentsError := Some(MessageOr(t, "댓글을 불러오는데 실패했습니다."));
        commentsLoading := false;
    }

    /** `addComment(data)`: create it, place it in the tree (a reply only under a top-level comment
        with its parent's id) and count it on every cached copy of its post. */
    method AddComment(user: Option<AuthUser>, data: Comment, saved: Reply<string>)
      returns (r: Result<string, Thrown>, issued: seq<Call>)
      modifies this
      ensures user.None? ==> r == Err(ErrorObject(LoginRequired)) && issued == []
      ensures user.Some? ==> issued == [CreateComment(AuthoredComment(data, user.value))] && (r.Ok? <==> saved.Returned?)
      ensures r.Ok? ==> r.value == saved.value && State() == old(State()).(
        comments := AddToTree(old(comments), AuthoredComment(data, user.value).(id := saved.value, replies := [])),
        posts := EditPosts(old(posts), data.postId, CommentsBy(1)),
        currentPost := EditCurrent(old(currentPost), data.postId, CommentsBy(1)))
      ensures r.Err? ==> State() == old(State()).(commentsError := Some(MessageOr(r.error, "댓글 작성에 실패했습니다.")))
    {
      if user.None? {
        r, issued := Err(ErrorObject(LoginRequired)), [];
        commentsError := Some(LoginRequired);
        return;
      }
      var c := AuthoredComment(data, user.value);
      issued := [CreateComment(c)];
      if saved.Raised? {
        r := Err(saved.thrown);
        commentsError := Some(MessageOr(saved.thrown, "댓글 작성에 실패했습니다."));
        return;
      }
      comments := AddToTree(comments, c.(id := saved.value, replies := []));
      posts := EditPosts(posts, c.postId, CommentsBy(1));
      currentPost := EditCurrent(currentPost, c.postId, CommentsBy(1));
      r := Ok(saved.value);
    }

    /** `updateComment(id, updates)`: merge the updates into the comment at whatever depth. */
    method UpdateComment(user: Option<AuthUser>, id: string, u: CommentPatch, done: Outcome)
      returns (r: Option<Thrown>, issued: seq<Call>)
      modifies this
      ensures user.None? ==> r == Some(ErrorObject(LoginRequired)) && issued == []
      ensures user.Some? ==> issued == [ChangeComment(id, u)] && (r.None? <==> done.Completed?)
      ensures r.None? ==> State() == old(State()).(comments := EditAt(old(comments), id, Patch(u)))
      ensures r.Some? ==> State() == old(State()).(commentsError := Some(MessageOr(r.value, "댓글 수정에 실패했습니다.")))
    {
      if user.None? {
        r, issued := Some(ErrorObject(LoginRequired)), [];
        commentsError := Some(LoginRequired);
        return;
      }
      issued := [ChangeComment(id, u)];
      if done.Threw? {
        r := Some(done.thrown);
        commentsError := Some(MessageOr(done.thrown, "댓글 수정에 실패했습니다."));
        return;
      }
      comments := EditAt(comments, id, Patch(u));
      r := None;
    }

    /** `deleteComment(id, postId)`: remove the comment and everything under it from the tree, and
        count one comment off every cached copy of the post. */
    method DeleteComment(user: Option<AuthUser>, id: string, postId: string, done: Outcome)
      returns (r: Option<Thrown>, issued: seq<Call>)
      modifies this
      ensures user.None? ==> r == Some(ErrorObject(LoginRequired)) && issued == []
      ensures user.Some? ==> issued == [RemoveComment(id, postId)] && (r.None? <==> done.Completed?)
      ensures r.None? ==> State() == old(State()).(
        comments := RemoveAll(old(comments), id),
        posts := EditPosts(old(posts), postId, CommentsBy(-1)),
        currentPost := EditCurrent(old(currentPost), postId, CommentsBy(-1)))
      ensures r.Some? ==> State() == old(State()).(commentsError := Some(MessageOr(r.value, "댓글 삭제에 실패했습니다.")))
    {
      if user.None? {
        r, issued := Some(ErrorObject(LoginRequired)), [];
        commentsError := Some(LoginRequired);
        return;
      }
      issued := [RemoveComment(id, postId)];
      if done.Threw? {
        r := Some(done.thrown);
        commentsError := Some(MessageOr(done.thrown, "댓글 삭제에 실패했습니다."));
        return;
      }
      comments := RemoveAll(comments, id);
      posts := EditPosts(posts, postId, CommentsBy(-1));
      currentPost := EditCurrent(currentPost, postId, CommentsBy(-1));
      r := None;
    }

    /** `toggleCommentLike(commentId)`: mirror the toggle on the comment at whatever depth. A failure
        is recorded but not rethrown. */
    method ToggleCommentLike(user: Option<AuthUser>, commentId: string, done: Outcome) returns (issued: seq<Call>)
      modifies this
      ensures user.None? ==> issued == [] && State() == old(State()).(commentsError := Some(LoginRequired))
      ensures user.Some? ==> issued == [ToggleLikeOfComment(commentId, user.value.uid)]
      ensures user.Some? && done.Completed? ==>
        State() == old(State()).(comments := EditAt(old(comments), commentId, ToggleLike(user.value.uid)))
      ensures user.Some? && done.Threw? ==>
        State() == old(State()).(commentsError := Some(MessageOr(done.thrown, "댓글 좋아요 처리에 실패했습니다.")))
    {
      if user.None? {
        commentsError := Some(LoginRequired);
        return [];
      }
      issued := [ToggleLikeOfComment(commentId, user.value.uid)];
      if done.Threw? {
        commentsError := Some(MessageOr(done.thrown, "댓글 좋아요 처리에 실패했습니다."));
        return;
      }
      comments := EditAt(comments, commentId, ToggleLike(user.value.uid));
    }

    /** `fetchCats(userId)`: the given user's companions, or the logged-in user's when the id is
        missing or empty. */
    method FetchCats(userId: Option<string>, user: Option<AuthUser>, reply: Reply<seq<Cat>>) returns (issued: seq<Call>)
      modifies this
      ensures !Truthy(userId) && user.None? ==> issued == [] && State() == old(State()).(catsError := Some(LoginRequired), catsLoading := false)
      ensures Truthy(userId) || user.Some? ==>
        issued == [Call.FetchCats(if Truthy(userId) then userId.value else user.value.uid)]
      ensures (Truthy(userId) || user.Some?) && reply.Returned? ==>
        State() == old(State()).(cats := reply.value, catsError := None, catsLoading := false)
      ensures (Truthy(userId) || user.Some?) && reply.Raised? ==>
        State() == old(State()).(catsError := Some(MessageOr(reply.thrown, "고양이 정보를 불러오는데 실패했습니다.")), catsLoading := false)
    {
      var uid: string;
      if Truthy(userId) {
        uid := userId.value;
      } else if user.Some? {
        uid := user.value.uid;
      } else {
        catsError := Some(LoginRequired);
        catsLoading := false;
        return [];
      }
      catsLoading := true;
      catsError := None;
      issued := [Call.FetchCats(uid)];
      match reply
      case Returned(cs) =>
        cats := cs;
        catsLoading := false;
      case Raised(t) =>
        catsError := Some(MessageOr(t, "고양이 정보를 불러오는데 실패했습니다."));
        catsLoading := false;
    }

    /** `addCat(data)`: create the companion for the logged-in user and append it. */
    method AddCat(user: Option<AuthUser>, data: Cat, saved: Reply<string>) returns (r: Result<string, Thrown>, issued: seq<Call>)
      modifies this
      ensures user.None? ==> r == Err(ErrorObject(LoginRequired)) && issued == []
      ensures user.Some? ==> issued == [CreateCat(data.(userId := user.value.uid))] && (r.Ok? <==> saved.Returned?)
      ensures r.Ok? ==>
        r.value == saved.value && State() == old(State()).(cats := old(cats) + [data.(userId := user.value.uid, id := saved.value)])
      ensures r.Err? ==> State() == old(State()).(catsError := Some(MessageOr(r.error, "고양이 추가에 실패했습니다.")))
    {
      if user.None? {
        r, issued := Err(ErrorObject(LoginRequired)), [];
        catsError := Some(LoginRequired);
        return;
      }
      var cat := data.(userId := user.value.uid);
      issued := [CreateCat(cat)];
      if saved.Raised? {
        r := Err(saved.thrown);
        catsError := Some(MessageOr(saved.thrown, "고양이 추가에 실패했습니다."));
        return;
      }
      cats := cats + [cat.(id := saved.value)];
      r := Ok(saved.value);
    }

    /** `updateCat(id, updates)`: no login needed. */
    method UpdateCat(id: string, u: CatPatch, done: Outcome) returns (r: Option<Thrown>, issued: seq<Call>)
      modifies this
      ensures issued == [ChangeCat(id, u)] && (r.None? <==> done.Completed?)
      ensures r.None? ==> State() == old(State()).(cats := PatchCats(old(cats), id, u))
      ensures r.Some? ==> State() == old(State()).(catsError := Some(MessageOr(r.value, "고양이 정보 수정에 실패했습니다.")))
    {
      issued := [ChangeCat(id, u)];
      if done.Threw? {
        r := Some(done.thrown);
        catsError := Some(MessageOr(done.thrown, "고양이 정보 수정에 실패했습니다."));
        return;
      }
      cats := PatchCats(cats, id, u);
      r := None;
    }

    /** `fetchEmotions(userId)`: as `fetchCats`, for emotion records. */
    method FetchEmotions(userId: Option<string>, user: Option<AuthUser>, reply: Reply<seq<EmotionRecord>>) returns (issued: seq<Call>)
      modifies this
      ensures !Truthy(userId) && user.None? ==> issued == [] && State() == old(State()).(emotionsError := Some(LoginRequired), emotionsLoading := false)
      ensures Truthy(userId) || user.Some? ==>
        issued == [Call.FetchEmotions(if Truthy(userId) then userId.value else user.value.uid)]
      ensures (Truthy(userId) || user.Some?) && reply.Returned? ==>
        State() == old(State()).(emotions := reply.value, emotionsError := None, emotionsLoading := false)
      ensures (Truthy(userId) || user.Some?) && reply.Raised? ==>
        State() == old(State()).(emotionsError := Some(MessageOr(reply.thrown, "감정 기록을 불러오는데 실패했습니다.")), emotionsLoading := false)
    {
      var uid: string;
      if Truthy(userId) {
        uid := userId.value;
      } else if user.Some? {
        uid := user.value.uid;
      } else {
        emotionsError := Some(LoginRequired);
        emotionsLoading := false;
        return [];
      }
      emotionsLoading := true;
      emotionsError := None;
      issued := [Call.FetchEmotions(uid)];
      match reply
      case Returned(es) =>
        emotions := es;
        emotionsLoading := false;
      case Raised(t) =>
        emotionsError := Some(MessageOr(t, "감정 기록을 불러오는데 실패했습니다."));
        emotionsLoading := false;
    }

    /** `addEmotion(data)`: create the record for the logged-in user and put it first. */
    method AddEmotion(user: Option<AuthUser>, data: EmotionRecord, saved: Reply<string>) returns (r: Result<string, Thrown>, issued: seq<Call>)
      modifies this
      ensures user.None? ==> r == Err(ErrorObject(LoginRequired)) && issued == []
      ensures user.Some? ==> issued == [CreateEmotion(data.(userId := user.value.uid))] && (r.Ok? <==> saved.Returned?)
      ensures r.Ok? ==>
        r.value == saved.value && State() == old(State()).(emotions := [data.(userId := user.value.uid, id := saved.value)] + old(emotions))
      ensures r.Err? ==> State() == old(State()).(emotionsError := Some(MessageOr(r.error, "감정 기록 추가에 실패했습니다.")))
    {
      if user.None? {
        r, issued := Err(ErrorObject(LoginRequired)), [];
        emotionsError := Some(LoginRequired);
        return;
      }
      var e := data.(userId := user.value.uid);
      issued := [CreateEmotion(e)];
      if saved.Raised? {
        r := Err(saved.thrown);
        emotionsError := Some(MessageOr(saved.thrown, "감정 기록 추가에 실패했습니다."));
        return;
      }
      emotions := [e.(id := saved.value)] + emotions;
      r := Ok(saved.value);
    }

    /** `updateEmotion(id, updates)`: no login needed. */
    method UpdateEmotion(id: string, u: EmotionPatch, done: Outcome) returns (r: Option<Thrown>, issued: seq<Call>)
      modifies this
      ensures issued == [ChangeEmotion(id, u)] && (r.None? <==> done.Completed?)
      ensures r.None? ==> State() == old(State()).(emotions := PatchEmotions(old(emotions), id, u))
      ensures r.Some? ==> State() == old(State()).(emotionsError := Some(MessageOr(r.value, "감정 기록 수정에 실패했습니다.")))
    {
      issued := [ChangeEmotion(id, u)];
      if done.Threw? {
        r := Some(done.thrown);
        emotionsError := Some(MessageOr(done.thrown, "감정 기록 수정에 실패했습니다."));
        return;
      }
      emotions := PatchEmotions(emotions, id, u);
      r := None;
    }

    /** `deleteEmotion(id)`: no login needed. */
    method DeleteEmotion(id: string, done: Outcome) returns (r: Option<Thrown>, issued: seq<Call>)
      modifies this
      ensures issued == [RemoveEmotion(id)] && (r.None? <==> done.Completed?)
      ensures r.None? ==> State() == old(State()).(emotions := RemoveEmotions(old(emotions), id))
      ensures r.Some? ==> State() == old(State()).(emotionsError := Some(MessageOr(r.value, "감정 기록 삭제에 실패했습니다.")))
    {
      issued := [RemoveEmotion(id)];
      if done.Threw? {
        r := Some(done.thrown);
        emotionsError := Some(MessageOr(done.thrown, "감정 기록 삭제에 실패했습니다."));
        return;
      }
      emotions := RemoveEmotions(emotions, id);
      r := None;
    }

    /** `clearErrors()`: the four error fields, and nothing else. */
    method ClearErrors()
      modifies this
      ensures State() == Cleared(old(State()))
    {
      postsError := None;
      commentsError := None;
      catsError := None;
      emotionsError := None;
    }
  }
}
