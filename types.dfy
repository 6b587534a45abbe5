/** The records of the community feature (lib/types/community.ts) and the small wrappers used throughout.
    Timestamps (`createdAt`, `updatedAt`) are clock values and are not part of this model. */
module Types {

  datatype Option<+T> = None | Some(value: T)

  datatype Result<+T, +E> = Ok(value: T) | Err(error: E)

  /** `type` of a post. */
  datatype PostType = Review | Discussion | Emotion | General

  /** `status` of a post. */
  datatype PostStatus = Hot | New | Solved

  /** The fields a post list may be sorted by (`CommunityFilters.sortBy`). */
  datatype SortField = ByCreatedAt | ByLikes | ByComments | ByViews

  datatype SortOrder = Asc | Desc

  /** The activities that earn a companion experience; each has its own stat counter. */
  datatype Activity = Reviewing | Discussing | EmotionLogging

  datatype Post = Post(
    id: string,
    kind: PostType,
    authorId: string,
    authorName: string,
    authorAvatar: string,
    title: string,
    content: string,
    movieTitle: Option<string>,
    rating: Option<int>,
    emotion: Option<string>,
    emotionEmoji: Option<string>,
    emotionIntensity: Option<int>,
    tags: seq<string>,
    likes: int,
    likedBy: seq<string>,
    comments: int,
    views: int,
    isActive: Option<bool>,
    status: Option<PostStatus>)

  /** A comment; `replies` is never stored, it is rebuilt on every read. */
  datatype Comment = Comment(
    id: string,
    postId: string,
    authorId: string,
    authorName: string,
    authorAvatar: string,
    content: string,
    likes: int,
    likedBy: seq<string>,
    parentCommentId: Option<string>,
    replies: seq<Comment>)

  /** A comment is a reply when it names a parent; an empty `parentCommentId` is falsy in the
      source and therefore makes a root. */
  predicate IsReply(c: Comment) {
    c.parentCommentId.Some? && c.parentCommentId.value != ""
  }

  /** The parent id of a reply. */
  function ParentOf(c: Comment): string
    requires IsReply(c)
  {
    c.parentCommentId.value
  }

  /** A JavaScript string value is truthy when it is present and not empty. */
  predicate Truthy(s: Option<string>) {
    s.Some? && s.value != ""
  }

  /** The three per-activity counters of a companion, and nothing else. */
  datatype CatStats = CatStats(reviews: int, discussions: int, emotions: int)

  /** A companion ("cat"). */
  datatype Cat = Cat(
    id: string,
    userId: string,
    name: string,
    emoji: string,
    level: int,
    kind: string,
    experience: int,
    maxExperience: int,
    description: string,
    specialty: string,
    achievements: seq<string>,
    stats: CatStats)

  datatype EmotionRecord = EmotionRecord(
    id: string,
    userId: string,
    movieTitle: string,
    emotion: string,
    emoji: string,
    text: string,
    intensity: int,
    tags: seq<string>)

  /** `CommunityFilters`: every filter is optional. */
  datatype Filters = Filters(
    kind: Option<PostType>,
    status: Option<PostStatus>,
    sortBy: Option<SortField>,
    sortOrder: Option<SortOrder>,
    tags: Option<seq<string>>,
    authorId: Option<string>)

  const NoFilters := Filters(None, None, None, None, None, None)

  /** `Object.keys(filters).length`: the number of filters that are present. */
  function KeyCount(f: Filters): (n: nat)
    ensures n <= 6
    ensures n == 0 <==> f == NoFilters
  {
    (if f.kind.Some? then 1 else 0) + (if f.status.Some? then 1 else 0)
    + (if f.sortBy.Some? then 1 else 0) + (if f.sortOrder.Some? then 1 else 0)
    + (if f.tags.Some? then 1 else 0) + (if f.authorId.Some? then 1 else 0)
  }

  /** The per-user statistics kept on a profile document. */
  datatype UserStats = UserStats(
    postsCount: int,
    reviewsCount: int,
    discussionsCount: int,
    emotionsCount: int,
    likesReceived: int,
    commentsReceived: int)

  // ----- partial updates (`Partial<...>` merged with a spread) -----

  /** The editable fields of a post an update may carry; absent fields are kept. */
  datatype PostPatch = PostPatch(
    title: Option<string>,
    content: Option<string>,
    tags: Option<seq<string>>,
    status: Option<PostStatus>,
    isActive: Option<bool>)

  function Pick<T>(o: Option<T>, current: T): T {
    if o.Some? then o.value else current
  }

  /** `{ ...post, ...updates }`: present fields replace, everything else is kept. */
  function MergePost(p: Post, u: PostPatch): (r: Post)
    ensures r.(title := p.title, content := p.content, tags := p.tags, status := p.status, isActive := p.isActive) == p
    ensures u.title.Some? ==> r.title == u.title.value
    ensures u.title.None? ==> r.title == p.title
    ensures u.content.Some? ==> r.content == u.content.value
    ensures u.content.None? ==> r.content == p.content
    ensures u.tags.Some? ==> r.tags == u.tags.value
    ensures u.tags.None? ==> r.tags == p.tags
    ensures u.status.Some? ==> r.status == u.status
    ensures u.status.None? ==> r.status == p.status
    ensures u.isActive.Some? ==> r.isActive == u.isActive
    ensures u.isActive.None? ==> r.isActive == p.isActive
    ensures u == PostPatch(None, None, None, None, None) ==> r == p
  {
    p.(title := Pick(u.title, p.title), content := Pick(u.content, p.content), tags := Pick(u.tags, p.tags),
       status := if u.status.Some? then u.status else p.status,
       isActive := if u.isActive.Some? then u.isActive else p.isActive)
  }

  /** The fields of a companion an update may carry. */
  datatype CatPatch = CatPatch(
    name: Option<string>,
    level: Option<int>,
    experience: Option<int>,
    achievements: Option<seq<string>>,
    stats: Option<CatStats>)

  function MergeCat(c: Cat, u: CatPatch): (r: Cat)
    ensures r.(name := c.name, level := c.level, experience := c.experience, achievements := c.achievements, stats := c.stats) == c
    ensures u.name.Some? ==> r.name == u.name.value
    ensures u.name.None? ==> r.name == c.name
    ensures u.level.Some? ==> r.level == u.level.value
    ensures u.level.None? ==> r.level == c.level
    ensures u.experience.Some? ==> r.experience == u.experience.value
    ensures u.experience.None? ==> r.experience == c.experience
    ensures u.achievements.Some? ==> r.achievements == u.achievements.value
    ensures u.achievements.None? ==> r.achievements == c.achievements
    ensures u.stats.Some? ==> r.stats == u.stats.value
    ensures u.stats.None? ==> r.stats == c.stats
    ensures u == CatPatch(None, None, None, None, None) ==> r == c
  {
    c.(name := Pick(u.name, c.name), level := Pick(u.level, c.level), experience := Pick(u.experience, c.experience),
       achievements := Pick(u.achievements, c.achievements), stats := Pick(u.stats, c.stats))
  }

  /** The fields of an emotion record an update may carry. */
  datatype EmotionPatch = EmotionPatch(
    emotion: Option<string>,
    emoji: Option<string>,
    text: Option<string>,
    intensity: Option<int>,
    tags: Option<seq<string>>)

  function MergeEmotion(e: EmotionRecord, u: EmotionPatch): (r: EmotionRecord)
    ensures r.(emotion := e.emotion, emoji := e.emoji, text := e.text, intensity := e.intensity, tags := e.tags) == e
    ensures u.emotion.Some? ==> r.emotion == u.emotion.value
    ensures u.emotion.None? ==> r.emotion == e.emotion
    ensures u.emoji.Some? ==> r.emoji == u.emoji.value
    ensures u.emoji.None? ==> r.emoji == e.emoji
    ensures u.text.Some? ==> r.text == u.text.value
    ensures u.text.None? ==> r.text == e.text
    ensures u.intensity.Some? ==> r.intensity == u.intensity.value
    ensures u.intensity.None? ==> r.intensity == e.intensity
    ensures u.tags.Some? ==> r.tags == u.tags.value
    ensures u.tags.None? ==> r.tags == e.tags
    ensures u == EmotionPatch(None, None, None, None, None) ==> r == e
  {
    e.(emotion := Pick(u.emotion, e.emotion), emoji := Pick(u.emoji, e.emoji), text := Pick(u.text, e.text),
       intensity := Pick(u.intensity, e.intensity), tags := Pick(u.tags, e.tags))
  }
}
