/** Denormalised counters: the user-statistics increments that accompany posts, likes and comments
    (lib/services/communityService.ts:143-167, 209-231, 269-311, 378-385), and the companion
    experience rules (lib/services/communityService.ts:481-514, lib/stores/communityStore.ts:253-259). */
module Counters {
  import opened Types

  /** One `increment(...)` per statistic, as a single update of a user document applies them. */
  datatype StatsDelta = StatsDelta(
    posts: int,
    reviews: int,
    discussions: int,
    emotions: int,
    likesReceived: int,
    commentsReceived: int)

  const Zero := StatsDelta(0, 0, 0, 0, 0, 0)

  function Plus(s: UserStats, d: StatsDelta): UserStats {
    UserStats(
      s.postsCount + d.posts,
      s.reviewsCount + d.reviews,
      s.discussionsCount + d.discussions,
      s.emotionsCount + d.emotions,
      s.likesReceived + d.likesReceived,
      s.commentsReceived + d.commentsReceived)
  }

  /** The sum of the three per-type post counters. */
  function TypedTotal(s: UserStats): int {
    s.reviewsCount + s.discussionsCount + s.emotionsCount
  }

  /** What creating a post of `kind` does to its author's statistics: `postsCount` plus the one
      counter of that type; a general post has no type counter. */
  function PostDelta(kind: PostType): (d: StatsDelta)
    ensures d.posts == 1 && d.likesReceived == 0 && d.commentsReceived == 0
    ensures d.reviews == (if kind == Review then 1 else 0)
    ensures d.discussions == (if kind == Discussion then 1 else 0)
    ensures d.emotions == (if kind == Emotion then 1 else 0)
  {
    match kind
    case Review => Zero.(posts := 1, reviews := 1)
    case Discussion => Zero.(posts := 1, discussions := 1)
    case Emotion => Zero.(posts := 1, emotions := 1)
    case General => Zero.(posts := 1)
  }

  /** Posting bumps `postsCount` by one and the typed counters by one in total, or by none for a
      general post; the received counters do not move. */
  lemma PostBumpsExactlyOne(s: UserStats, kind: PostType)
    ensures Plus(s, PostDelta(kind)).postsCount == s.postsCount + 1
    ensures TypedTotal(Plus(s, PostDelta(kind))) == TypedTotal(s) + (if kind == General then 0 else 1)
    ensures Plus(s, PostDelta(kind)).likesReceived == s.likesReceived
    ensures Plus(s, PostDelta(kind)).commentsReceived == s.commentsReceived
  {
  }

  /** The author's side of a like toggle: `likesReceived` moves with the like, except that liking
      one's own post changes nothing. */
  function LikeDelta(liker: string, author: string, wasLiked: bool): (d: StatsDelta)
    ensures d.likesReceived == (if liker == author then 0 else if wasLiked then -1 else 1)
    ensures d.(likesReceived := 0) == Zero
  {
    if liker == author then Zero
    else Zero.(likesReceived := if wasLiked then -1 else 1)
  }

  /** The post author's side of a new comment; one's own comments are not counted. */
  function CommentDelta(commenter: string, author: string): (d: StatsDelta)
    ensures d.commentsReceived == (if commenter == author then 0 else 1)
    ensures d.(commentsReceived := 0) == Zero
  {
    if commenter == author then Zero else Zero.(commentsReceived := 1)
  }

  // ----- companion experience -----

  /** The level shown for an amount of experience: one level per 100 points, starting at 1
      (`Math.floor(experience / 100) + 1`; Dafny's division by a positive constant is floor division). */
  function LevelFor(experience: int): (level: int)
    ensures 100 * (level - 1) <= experience < 100 * level
  {
    experience / 100 + 1
  }

  /** The level is the only one whose 100-point band holds the experience. */
  lemma LevelUnique(experience: int, level: int)
    requires 100 * (level - 1) <= experience < 100 * level
    ensures level == LevelFor(experience)
  {
  }

  /** More experience never lowers the level. */
  lemma LevelMonotone(e1: int, e2: int)
    requires e1 <= e2
    ensures LevelFor(e1) <= LevelFor(e2)
  {
  }

  /** A companion whose level is the one its experience calls for. */
  predicate LevelConsistent(c: Cat) {
    c.level == LevelFor(c.experience)
  }

  /** Bump the stat counter the activity names, leaving the other two alone. */
  function BumpStat(s: CatStats, a: Activity): (r: CatStats)
    ensures r.reviews == s.reviews + (if a == Reviewing then 1 else 0)
    ensures r.discussions == s.discussions + (if a == Discussing then 1 else 0)
    ensures r.emotions == s.emotions + (if a == EmotionLogging then 1 else 0)
  {
    match a
    case Reviewing => s.(reviews := s.reviews + 1)
    case Discussing => s.(discussions := s.discussions + 1)
    case EmotionLogging => s.(emotions := s.emotions + 1)
  }

  /** What one rewarded activity does to one companion: experience grows by `points`, the level is
      recomputed from it and the activity's stat counter rises by one; nothing else changes. */
  function Gain(c: Cat, a: Activity, points: int): (r: Cat)
    ensures r.experience == c.experience + points
    ensures LevelConsistent(r)
    ensures r.stats == BumpStat(c.stats, a)
    ensures r.(experience := c.experience, level := c.level, stats := c.stats) == c
  {
    var e := c.experience + points;
    c.(experience := e, level := LevelFor(e), stats := BumpStat(c.stats, a))
  }

  /** A gain of non-negative points never lowers a consistent companion's level, and the three
      stats together rise by exactly one. */
  lemma GainProgresses(c: Cat, a: Activity, points: int)
    requires LevelConsistent(c) && points >= 0
    ensures Gain(c, a, points).level >= c.level
    ensures Gain(c, a, points).stats.reviews + Gain(c, a, points).stats.discussions + Gain(c, a, points).stats.emotions
         == c.stats.reviews + c.stats.discussions + c.stats.emotions + 1
  {
    LevelMonotone(c.experience, c.experience + points);
  }

  /** The experience a new post earns its author's companions: 20 for a review, 15 for a
      discussion, 10 for an emotion post, nothing for a general post. */
  function PostReward(kind: PostType): (g: Option<(Activity, int)>)
    ensures g.None? <==> kind == General
    ensures kind == Review ==> g == Some((Reviewing, 20))
    ensures kind == Discussion ==> g == Some((Discussing, 15))
    ensures kind == Emotion ==> g == Some((EmotionLogging, 10))
  {
    match kind
    case Review => Some((Reviewing, 20))
    case Discussion => Some((Discussing, 15))
    case Emotion => Some((EmotionLogging, 10))
    case General => None
  }

  /** The experience an emotion-journal entry earns (lib/services/communityService.ts:547). */
  const EmotionRecordPoints := 10
}
