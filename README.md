# Community cache and service layer, in Dafny

This project models the community feature of a movie-community web client. The feature has four parts:

- **The shared records** (`lib/types/community.ts`): posts, comments, companions ("cats"), emotion-journal records and the post filters.
- **The service layer** (`lib/services/communityService.ts`). It reads and writes those records in a document database.
- **The account service** (`lib/services/authService.ts`). Only its checkable rules are modelled: registration checks, guards for a missing user, the default profile, and the error-code-to-message switch.
- **The client-side cache** (`lib/stores/communityStore.ts`). It holds the loaded posts with their paging cursor and filters, the comment tree, the companions and the emotion records. Each family has a loading flag and an error field.

The modules:

- **`Types`**: the records, their enumerations, and `{ ...record, ...updates }` merges.
- **`Likes`**: the like toggle. It has the service's remote form and the cache's local mirror. Its central invariant is `likes == |likedBy|`.
- **`Counters`**: the denormalised user statistics that accompany posts, likes and comments. It also holds the companion level formula (one level per 100 experience) and one activity's gain.
- **`CommentForest`**: the single pass that turns the creation-ordered comment list into a tree. It is modelled as an index graph, so a comment that ends up under itself can be represented.
  - `BuildForest` is the loop.
  - `ForestOf` is its specification.
- **`CommentTree`**: the cache's recursive tree helpers (attach a new comment, edit a comment, toggle a comment's like, remove a comment). Each helper is related to the preorder listing of the tree.
- **`Queries`**: the constraint list of a filtered post query, the fixed query for all posts, and the page cursor.
  - `BuildFilteredConstraints` and `PushWheres` are the sequences of pushes.
  - `FilteredConstraints` is their specification.
- **`Auth`**: the modelled parts of the account service.
- **`Backend`**: the database as a value and the batch semantics.
  - An update of a missing document fails the whole batch.
  - A batch applies all of its writes or none of them.
  - The class `DocumentStore` holds the database. Its methods are the service operations, each committed atomically.
  - `GainEach` is the companion experience loop.
- **`Store`**: the class `CommunityStore`, one field per field of the cache, with one method per action.

How the outside world enters the model:

- The network is nondeterministic, so every store action takes as parameters the reply or outcome of each service call it awaits.
- Each store action returns the list of service calls it issued. This is how the contracts state that the login check issues nothing and which experience grant follows a post.
- The logged-in user is a parameter too. `lib/stores/authStore.ts` is not part of this model.

Some behaviours are modelled as the code has them, and lemmas exhibit them:

- **Orphan replies are dropped.** A reply whose parent is not read before it is dropped from the tree. It is not shown as a root.
- **A self-parented reply nests under itself.** The pass registers a comment before looking up its parent, so a reply that names itself as parent sits among its own replies.
- **Replies to replies are not cached.** A new reply to a reply is not added to the cached tree, because the cache attaches new replies to top-level comments only.
- **The ownership check can fall back to the wrong post.** When the post is not in the list, `updatePost`/`deletePost` check the open post, whatever its id.
- **Unlike-then-like can reorder likers.** The returning liker moves to the end of `likedBy`.

## Model

| member | source | states |
|---|---|---|
| Types.KeyCount | lib/stores/communityStore.ts:218 | the number of present filters is at most 6 and is 0 exactly for the empty filter object |
| Types.MergePost | lib/stores/communityStore.ts:298-303 | for each of title, content, tags, status and activity: the update's value when it carries one, the post's own value otherwise; every other field is kept; an empty update changes nothing |
| Types.MergeCat | lib/stores/communityStore.ts:676-681 | for each of name, level, experience, achievements and stats: the update's value when it carries one, the companion's own value otherwise; every other field is kept; an empty update changes nothing |
| Types.MergeEmotion | lib/stores/communityStore.ts:751-756 | for each of emotion, emoji, text, intensity and tags: the update's value when it carries one, the record's own value otherwise; every other field is kept; an empty update changes nothing |
| Likes.ArrayUnion | lib/services/communityService.ts:218-222 | adding a liker gives the old members plus that user; it changes nothing when the user is present and grows the list by one otherwise; no duplicates are created |
| Likes.ArrayRemove | lib/services/communityService.ts:202-206 | removing a liker removes every occurrence of the user and keeps everyone else; on a duplicate-free list that contains the user, the list shrinks by exactly one |
| Likes.ToggleFlips | lib/services/communityService.ts:192-231 | both toggles flip the user's membership, move `likes` by exactly -1 or +1 in the matching direction, and keep every other liker's membership |
| Likes.ToggleKeepsConsistent | lib/services/communityService.ts:200-222 | the invariant that `likes` equals the number of likers survives a remote and a local toggle |
| Likes.MirrorAgrees | lib/stores/communityStore.ts:355-388 | from the same copy, the cache's mirror computes exactly the service's toggle |
| Likes.LikeThenUnlikeRestores | lib/stores/communityStore.ts:355-388 | like then unlike restores the exact state, order of `likedBy` included |
| Likes.UnlikeThenLikeRestoresLikers | lib/stores/communityStore.ts:355-388 | unlike then like restores the counter and the set of likers of a consistent state |
| Likes.UnlikeThenLikeMayReorder | lib/stores/communityStore.ts:364-366 | unlike then like can reorder `likedBy` (concrete instance) |
| Likes.TogglesParity | lib/services/communityService.ts:188-236 | after any number of toggles by one user, the invariant that `likes` equals the number of likers still holds, and the user is a liker exactly when the start state and the parity of the count say so |
| Counters.PostDelta | lib/services/communityService.ts:151-166 | a new post adds 1 to `postsCount` and 1 to the counter of its own type only, touching no other statistic |
| Counters.PostBumpsExactlyOne | lib/services/communityService.ts:151-166 | after a post, `postsCount` rises by one and the typed counters rise by one in total, or by none for a general post; like and comment counters are unchanged |
| Counters.LikeDelta | lib/services/communityService.ts:208-231 | the author's `likesReceived` moves by -1 or +1 with the like, and by 0 when the liker is the author; nothing else moves |
| Counters.CommentDelta | lib/services/communityService.ts:378-385 | the post author's `commentsReceived` rises by one unless the commenter is the author; nothing else moves |
| Counters.LevelFor | lib/services/communityService.ts:489-490 | the level is the one whose 100-point band `[100*(level-1), 100*level)` holds the experience |
| Counters.LevelUnique | lib/services/communityService.ts:490 | only one level has a band that holds a given experience |
| Counters.LevelMonotone | lib/services/communityService.ts:490 | more experience never gives a lower level |
| Counters.BumpStat | lib/services/communityService.ts:495-509 | the stat named by the activity rises by one; the other two are unchanged |
| Counters.Gain | lib/services/communityService.ts:488-510 | one companion gains `points` of experience, its level becomes the one its experience calls for, one stat rises, and nothing else changes |
| Counters.GainProgresses | lib/services/communityService.ts:488-510 | a gain of non-negative points never lowers a consistent companion's level and adds exactly one to its stat total |
| Counters.PostReward | lib/stores/communityStore.ts:253-259 | reviews earn 20, discussions 15 and emotion posts 10 experience in the matching activity; general posts earn nothing |
| Auth.CodeMessage | lib/services/authService.ts:356-374 | exactly the eight listed codes have a message of their own, and every such message is non-empty |
| Auth.HandleAuthError | lib/services/authService.ts:355-377 | a listed code gives its own message; any other error gives its message, or the generic message when that is empty; the result is never empty |
| Auth.MessageNamesItsCode | lib/services/authService.ts:356-374 | the message of a listed code leads back to that code |
| Auth.KnownMessagesDistinct | lib/services/authService.ts:356-374 | no two listed codes share a message |
| Auth.OwnMessagesSurvive | lib/services/authService.ts:375-376 | a code-less error with a message, such as a validation error of `register`, comes through the mapping unchanged |
| Auth.CreateUserProfile | lib/services/authService.ts:165-199 | a new profile copies the account fields, starts with six zero stats, an empty bio, empty favourites and the default preferences; the nickname is the given name, else the account's name; the given name overrides the display name |
| Auth.GetUserProfile | lib/services/authService.ts:211-227 | the profile is the stored document; a missing document and a failed read both give nothing, not an error |
| Auth.CreatedProfileReadsBack | lib/services/authService.ts:201-222 | a profile just stored reads back as written, with zero stats |
| Auth.AnonymousName | lib/services/authService.ts:140 | the anonymous name is the fixed prefix followed by at most the first 8 characters of the uid |
| Auth.AnonymousProfileNamed | lib/services/authService.ts:139-141 | an anonymous profile is named and nicknamed after its uid |
| Auth.RegisterCheck | lib/services/authService.ts:51-57 | a password mismatch is reported first; otherwise registration is refused exactly when the password is shorter than 6 characters |
| Auth.Register | lib/services/authService.ts:49-82 | a failed check gives its own message; a failed account creation, or a failure of the profile writes after it, is mapped through the error switch; a profile is returned exactly when the checks pass and the creation and both profile writes succeed |
| Auth.RejectedBeforeCreation | lib/services/authService.ts:51-63 | a registration refused by the checks fails the same way whatever the provider and the profile writes would answer, so no account is created |
| Auth.RegisteredProfileNamed | lib/services/authService.ts:67-77 | a successful registration gives the account's profile with the registration's name as display name and nickname |
| Auth.ChangePassword | lib/services/authService.ts:274-289 | the change succeeds exactly with a current user, a password of at least 6 characters and a successful update |
| Auth.ChangeEmail | lib/services/authService.ts:292-304 | the change succeeds exactly with a current user, a successful account update and a successful profile update |
| Auth.DeleteAccount | lib/services/authService.ts:307-335 | deletion succeeds exactly with a current user and no failed step |
| Auth.NoUserGuards | lib/services/authService.ts:274-311 | without a current user, changing the password, changing the email and deleting the account all fail with the login-required message |
| Auth.SamePasswordRule | lib/services/authService.ts:280-282 | registration and password change accept exactly the same passwords |
| CommentTree.AttachReply | lib/stores/communityStore.ts:467-471 | attaching a reply keeps the number of top-level comments |
| CommentTree.AttachSize | lib/stores/communityStore.ts:467-471 | the tree's listing grows by one copy of the new comment per top-level comment that carries the parent id |
| CommentTree.AddSize | lib/stores/communityStore.ts:465-472 | a new root is listed last; a new reply is listed once under each matching top-level comment |
| CommentTree.ReplyToNestedIsNotShown | lib/stores/communityStore.ts:466-471 | a reply whose parent is not a top-level comment leaves the cached tree unchanged |
| CommentTree.ReplyToRootIsLast | lib/stores/communityStore.ts:466-471 | the new reply becomes the last reply of the top-level comment with its parent id; every other comment is unchanged |
| CommentTree.ApplyEdit | lib/stores/communityStore.ts:584-594 | an edit changes at most the content, `likes` and `likedBy`; a like toggle is the cache's local toggle; a patch sets exactly the fields it carries |
| CommentTree.EditAt | lib/stores/communityStore.ts:505-518 | editing the tree keeps the number of top-level comments |
| CommentTree.EditListed | lib/stores/communityStore.ts:505-518 | the reference edit keeps the length of the listing |
| CommentTree.EditMatchesListing | lib/stores/communityStore.ts:505-518 | with unique ids, editing the tree at any depth is editing the one listed comment with that id; everything else keeps its place |
| CommentTree.EditOneMatchesListing | lib/stores/communityStore.ts:505-518 | the same holds for one comment with its replies |
| CommentTree.EditKeepsIds | lib/stores/communityStore.ts:505-518 | an edit keeps every id in its place, whether or not the ids are unique |
| CommentTree.ToggleKeepsTreeConsistent | lib/stores/communityStore.ts:582-604 | a like toggle in a tree of consistent comments keeps every comment consistent |
| CommentTree.ListedToggleConsistent | lib/stores/communityStore.ts:584-594 | toggling every listed comment with the id keeps every comment consistent |
| CommentTree.RemoveErases | lib/stores/communityStore.ts:539-549 | after removal the id occurs nowhere in the tree, at any depth |
| CommentTree.RemoveKeepsOnlyExisting | lib/stores/communityStore.ts:539-549 | removal invents no comment |
| CommentTree.RemoveAbsent | lib/stores/communityStore.ts:539-549 | removing an id that does not occur changes nothing |
| CommentTree.RemoveShrinks | lib/stores/communityStore.ts:539-549 | the listing loses at least one comment per occurrence of the id, more when a removed comment had replies |
| CommentTree.RemoveTopLevel | lib/stores/communityStore.ts:539-549 | at the top level exactly the comments with another id remain, in their order (the top-level ids filtered), each with its replies pruned |
| CommentTree.RemoveSplitsListing | lib/stores/communityStore.ts:539-549 | the listing splits exactly (as a multiset) into what remains and the cut: each outermost comment with the id together with everything under it |
| CommentTree.RemoveKeepsOthers | lib/stores/communityStore.ts:539-549 | every listed comment that neither carries the id nor sits under one that does is still listed; the listing shrinks by exactly the size of the cut |
| CommentTree.RemoveUniqueCutsSubtree | lib/stores/communityStore.ts:539-549 | with unique ids, removing a present id cuts out one contiguous block of the listing, that comment and everything under it, and keeps everything before and after it in order |
| CommentForest.Lookup | lib/services/communityService.ts:338-341 | the id map only holds positions already registered |
| CommentForest.LookupFinds | lib/services/communityService.ts:336-341 | the map yields the last registered comment with the id, and nothing when there is none |
| CommentForest.PlacedIncreasing | lib/services/communityService.ts:336-348 | the comments put in one place lie among those read so far and come in input order |
| CommentForest.ForestOf | lib/services/communityService.ts:332-350 | the forest has one reply list per comment, holding in input order the comments the pass puts under it |
| CommentForest.BuildForest | lib/services/communityService.ts:332-350 | the loop with its map, root list and reply lists builds exactly the specified forest |
| CommentForest.PlacedMembers | lib/services/communityService.ts:336-348 | a comment is put in a place exactly when the pass decides so for it |
| CommentForest.AtMostOnce | lib/services/communityService.ts:336-348 | every comment occurs in the object graph the pass builds (the root list and the reply lists together) exactly once, unless it is a dropped reply, which occurs nowhere in it |
| CommentForest.RootsInInputOrder | lib/services/communityService.ts:345-347 | the roots are exactly the comments without a parent, in input order |
| CommentForest.ReplyUnderParent | lib/services/communityService.ts:340-344 | a reply hangs under the last comment up to it that carries its parent's id |
| CommentForest.OrphanDropped | lib/services/communityService.ts:340-344 | a reply whose parent is not read before it occurs nowhere in the object graph, not even as a root |
| CommentForest.ExactlyOnce | lib/services/communityService.ts:332-350 | when every reply's parent is read before it, every comment occurs exactly once in the object graph |
| CommentForest.ReturnedOnceOrNever | lib/services/communityService.ts:332-350 | in the nested tree a caller walks from the returned roots, each comment appears once or not at all: once exactly when its chain of parents ends at a root |
| CommentForest.DroppedTakesItsReplies | lib/services/communityService.ts:336-348 | a reply placed under a dropped reply does not appear in the returned tree, although it is in the object graph |
| CommentForest.ReturnedExactlyOnce | lib/services/communityService.ts:332-350 | when every reply's parent id belongs to an earlier comment and no reply names itself as parent, every comment appears in the returned tree exactly once |
| CommentForest.NewReplyNests | lib/services/communityService.ts:317-350 | a comment read last that replies to a present comment is the last reply of that comment and not a root |
| CommentForest.SelfParentIsOwnReply | lib/services/communityService.ts:337-343 | a reply naming itself as parent sits among its own replies and not among the roots |
| Queries.PushOrdered | lib/services/communityService.ts:74-105 | pushing a constraint of a later kind keeps the list in the fixed kind order |
| Queries.RankDistinct | lib/services/communityService.ts:74-105 | in an ordered list no two constraints share a kind |
| Queries.WheresOrdered | lib/services/communityService.ts:77-91 | the `where` part is in the fixed order and holds only `where` constraints |
| Queries.WheresSelect | lib/services/communityService.ts:77-91 | each `where` constraint is present exactly when its filter is present and truthy: type, status, a non-empty author id, a non-empty tag list |
| Queries.Ordering | lib/services/communityService.ts:94-98 | the sort defaults to newest first; with a sort field, the order is ascending exactly when asked for |
| Queries.FilteredShape | lib/services/communityService.ts:74-105 | a filtered query is in the fixed order, contains its ordering, ends with the limit, and contains a cursor exactly when one is given |
| Queries.TailShape | lib/services/communityService.ts:93-105 | any ordered `where` part followed by the ordering, the optional cursor and the limit has that shape |
| Queries.PushWheres | lib/services/communityService.ts:75-91 | the pushes of the `where` constraints build exactly the specified `where` part |
| Queries.BuildFilteredConstraints | lib/services/communityService.ts:74-107 | the source's sequence of pushes builds exactly the specified constraint list |
| Queries.OneOrderingOneLimit | lib/services/communityService.ts:93-105 | every ordering in a filtered query is its one ordering, and every limit is the page size |
| Queries.AllPostsIsUnfiltered | lib/services/communityService.ts:42-50 | the query for all posts holds the same constraints as the filtered query with no filter |
| Queries.FalsyFiltersSelectNothing | lib/services/communityService.ts:77-98 | an empty author id, an empty tag list and a sort order without a sort field add nothing, though they count as present filters |
| Queries.PageOf | lib/services/communityService.ts:60-62 | a page's cursor is its last document, and there is none exactly for an empty page |
| Queries.CursorOfConcatenation | lib/services/communityService.ts:115-117 | after two consecutive pages the cursor is that of the second page, unless the second page is empty |
| Backend.AddPostEffect | lib/services/communityService.ts:141-169 | the post insert and the author's statistics go in one batch; it succeeds exactly when the author has a profile; then the post is stored, the author gains one post and one of its type, and nothing else changes |
| Backend.ToggledPostMirrors | lib/services/communityService.ts:200-222 | the toggled post is the remote toggle of its like state with every other field kept, and it stays consistent |
| Backend.ToggleLikeResult | lib/services/communityService.ts:188-236 | the exact database after a like toggle: the post toggled, and the author's `likesReceived` moved unless they liked their own post |
| Backend.ToggleLikeEffect | lib/services/communityService.ts:188-236 | a like toggle succeeds, flips the like as the remote toggle does, keeps the invariant that `likes` equals the number of likers, moves the author's counter by the same step unless the liker is the author, and changes nothing else |
| Backend.ToggleLikeNeedsAuthorProfile | lib/services/communityService.ts:209-234 | liking another user's post whose author has no profile fails as a whole |
| Backend.AddCommentEffect | lib/services/communityService.ts:354-390 | a comment on an existing post is stored, the post's `comments` rises by one, the author's `commentsReceived` rises unless they commented themselves, and nothing else changes |
| Backend.AddCommentToMissingPostFails | lib/services/communityService.ts:367-388 | a comment on a missing post is not stored, because the post's counter update fails the batch |
| Backend.DeleteCommentEffect | lib/services/communityService.ts:402-416 | deletion succeeds exactly when the post exists; it removes only that comment document, leaving its replies stored, and lowers the post's `comments` by one |
| Backend.GainSomeEffect | lib/services/communityService.ts:486-513 | part way through the grant, every companion is either untouched or has gained, and only the user's companions gain |
| Backend.GainAllEffect | lib/services/communityService.ts:481-514 | after a full grant, each of the user's companions has gained the points, has the level its experience calls for and has one more of the activity's stat; other users' companions are unchanged |
| Backend.GainPatchIsGain | lib/services/communityService.ts:489-510 | merging the update computed from the read snapshot is the gain |
| Backend.GainEach | lib/services/communityService.ts:486-513 | the update loop reaches only the user's companions, reaches all of them exactly when every write succeeds; after a failed write the ones reached before it, as many as the writes let through, stay gained; exactly the reached ones are gained |
| Backend.DocumentStore.Commit | lib/services/communityService.ts:167 | a commit applies the whole batch or nothing, and fails when offline or when a write fails |
| Backend.DocumentStore.AddPost | lib/services/communityService.ts:138-170 | `addPost` succeeds exactly when online and the author has a profile; then the database is the batch's result; otherwise it is unchanged |
| Backend.DocumentStore.ToggleLike | lib/services/communityService.ts:188-236 | a failed read changes nothing; a missing post is a successful no-op; otherwise the toggle batch is committed |
| Backend.DocumentStore.IncrementViews | lib/services/communityService.ts:239-244 | `views` rises by one on an existing post; a missing post fails |
| Backend.DocumentStore.IncrementPostCount | lib/services/communityService.ts:271-290 | the author's counters move as for a new post of that type; a missing profile fails |
| Backend.DocumentStore.IncrementLikesReceived | lib/services/communityService.ts:293-302 | `likesReceived` moves by the given amount only |
| Backend.DocumentStore.IncrementCommentsReceived | lib/services/communityService.ts:305-311 | `commentsReceived` rises by one only |
| Backend.DocumentStore.AddComment | lib/services/communityService.ts:354-390 | a failed read of the post changes nothing; otherwise the comment batch is committed, or nothing is |
| Backend.DocumentStore.DeleteComment | lib/services/communityService.ts:402-416 | the delete batch is committed exactly when online and the post exists |
| Backend.DocumentStore.ToggleCommentLike | lib/services/communityService.ts:419-441 | a comment's like is toggled as the remote toggle does, with no statistics; a missing comment is a no-op |
| Backend.DocumentStore.AddExperience | lib/services/communityService.ts:481-514 | a failed query changes nothing; with a successful query, the companions become exactly the user's reached ones gained; full success exactly when every write succeeds; after a failed write the companions updated before it (as many as the writes let through) keep their gain; only companions change, each either untouched or gained |
| Backend.DocumentStore.AddEmotionRecord | lib/services/communityService.ts:537-550 | the record is stored under its new id, then the companions are granted 10 emotion experience; a failed grant leaves the record stored, with the companions reached before the failed write gained; the companions stay the same set, each untouched or gained, and untouched when the query fails |
| Store.AuthorName | lib/stores/communityStore.ts:246 | the author name is the nickname, else the display name, else the default name; it is never empty |
| Store.Authored | lib/stores/communityStore.ts:243-248 | a new post carries the logged-in user's id, name and avatar (the photo avatar exactly when the user has a non-empty photo URL), and everything else from the given data |
| Store.AuthoredComment | lib/stores/communityStore.ts:448-453 | a new comment carries the logged-in user's id, name and avatar (the photo avatar exactly when the user has a non-empty photo URL), and everything else from the given data |
| Store.RewardCalls | lib/stores/communityStore.ts:253-259 | a review, a discussion or an emotion post is followed by one grant of 20, 15 or 10 points; a general post is followed by none |
| Store.EditPost | lib/stores/communityStore.ts:298-303 | an edit of a cached post keeps its id, author and type; a patch is merged; a like flip toggles the user's membership in the likers, moves the counter by one in that direction and keeps every other field; a view adds one to `views` only; a comment change moves `comments` by its delta only |
| Store.EditPosts | lib/stores/communityStore.ts:298-303 | the posts with the id are edited; every other post is unchanged and in place |
| Store.EditCurrent | lib/stores/communityStore.ts:304-307 | the open post is edited exactly when it has the id |
| Store.FlipTwiceRestores | lib/stores/communityStore.ts:355-388 | two like toggles by a user who had not liked the post give back the exact cached list |
| Store.FlipTwiceRestoresLikers | lib/stores/communityStore.ts:355-388 | two toggles of consistent posts give back every counter and every set of likers, and every other field |
| Store.FlipKeepsConsistent | lib/stores/communityStore.ts:355-388 | a toggle keeps the invariant that `likes` equals the number of likers on every cached post |
| Store.FlipMirrorsService | lib/stores/communityStore.ts:355-388 | the cache's toggle of a post equals the service's toggle of the same copy: membership flips and `likes` moves by one |
| Store.RemovePostsKeeps | lib/stores/communityStore.ts:334 | the filter keeps exactly the posts with another id and changes nothing when no post has the id |
| Store.CloseIfRemoved | lib/stores/communityStore.ts:335-336 | the open post is closed exactly when it is the removed one; otherwise it is kept |
| Store.FindFirst | lib/stores/communityStore.ts:291 | the search yields the first cached post with the id, and nothing exactly when there is none |
| Store.OwnershipCheck | lib/stores/communityStore.ts:290-294 | for a cached post, the user may change it exactly when they wrote the first copy; for an uncached id, exactly when no post is open or the open post is theirs |
| Store.OpenPostOfAnotherBlocksOwnEdit | lib/stores/communityStore.ts:325-329 | a user's own post that is not in the list is refused while another author's post is open |
| Store.PatchCats | lib/stores/communityStore.ts:676-681 | the companions with the id are merged with the update; every other companion is unchanged |
| Store.PatchEmotions | lib/stores/communityStore.ts:751-756 | the records with the id are merged with the update; every other record is unchanged |
| Store.RemoveEmotionsKeeps | lib/stores/communityStore.ts:774 | the filter keeps exactly the records with another id and changes nothing when no record has the id |
| Store.WithPage | lib/stores/communityStore.ts:138-151 | a page replaces the list on reset and is appended otherwise; more posts are expected exactly when the page was full (20); the cursor comes from the page; loading ends |
| Store.TwoPagesAppend | lib/stores/communityStore.ts:222-227 | two pages read without a reset are appended in order, with the cursor of the two pages read together |
| Store.ShortPageStops | lib/stores/communityStore.ts:142-149 | a short page ends the paging, and an empty page also clears the cursor |
| Store.MoreRequest | lib/stores/communityStore.ts:211-220 | no request is made once paging stopped or without a cursor; otherwise one page of 20 after the cursor is requested, filtered exactly when some filter is present |
| Store.NoMoreAfterEmptyPage | lib/stores/communityStore.ts:211-213 | after an empty page, loading more requests nothing |
| Store.Cleared | lib/stores/communityStore.ts:788-795 | exactly the four error fields are reset; the loading flags and the data are untouched |
| Store.ClearIdempotent | lib/stores/communityStore.ts:788-795 | clearing the errors twice is clearing them once |
| Store.CommunityStore.constructor | lib/stores/communityStore.ts:110-130 | the initial state: nothing loaded, no filters, no cursor, more posts expected |
| Store.CommunityStore.TakePage | lib/stores/communityStore.ts:138-151 | the state after a page is the specified page update |
| Store.CommunityStore.FetchPosts | lib/stores/communityStore.ts:133-162 | one request for the first page of all posts; on success the page is taken; on failure only the error and the loading flag change |
| Store.CommunityStore.FetchPostById | lib/stores/communityStore.ts:164-178 | the post read, or none when it is missing, becomes the open post; a failure only sets the error |
| Store.CommunityStore.SearchPosts | lib/stores/communityStore.ts:180-209 | the filters are stored before the first filtered page is requested; on success the page is taken; on failure only the error and the loading flag change beyond the filters |
| Store.CommunityStore.LoadMorePosts | lib/stores/communityStore.ts:211-237 | nothing is requested and nothing changes when paging stopped or there is no cursor; otherwise the page is appended, or only the error is set |
| Store.CommunityStore.AddPost | lib/stores/communityStore.ts:239-283 | without a user it fails with the login-required error and issues nothing; otherwise it creates the authored post, and issues the grant only when the creation succeeded; only on full success is the post prepended; any failure only sets the posts error |
| Store.CommunityStore.UpdatePost | lib/stores/communityStore.ts:285-318 | the login check, then the authorship check, each issuing nothing when it fails; on success every cached copy with the id is merged; a failure only sets the posts error |
| Store.CommunityStore.DeletePost | lib/stores/communityStore.ts:320-347 | the login and authorship checks, then the posts with the id are removed and the open post is closed if it is the one removed; a failure only sets the posts error |
| Store.CommunityStore.TogglePostLike | lib/stores/communityStore.ts:349-398 | without a user nothing is issued; after the service's toggle, every cached copy with the id is toggled locally; a failure only sets the posts error |
| Store.CommunityStore.IncrementPostViews | lib/stores/communityStore.ts:400-417 | no login is needed; on success `views` rises by one on every cached copy; a failure changes nothing at all |
| Store.CommunityStore.SetCurrentPost | lib/stores/communityStore.ts:419-421 | only the open post changes |
| Store.CommunityStore.SetFilters | lib/stores/communityStore.ts:423-425 | only the filters change, and nothing is requested |
| Store.CommunityStore.SetCurrentUser | lib/stores/communityStore.ts:111 | only the current user changes |
| Store.CommunityStore.FetchComments | lib/stores/communityStore.ts:428-442 | the tree the service built replaces the cached tree; a failure only sets the comments error |
| Store.CommunityStore.AddComment | lib/stores/communityStore.ts:444-497 | without a user it fails and issues nothing; on success the new comment is placed in the tree and `comments` rises by one on every cached copy of its post; a failure only sets the comments error |
| Store.CommunityStore.UpdateComment | lib/stores/communityStore.ts:500-532 | on success the comment with the id is merged with the update at whatever depth; a failure only sets the comments error |
| Store.CommunityStore.DeleteComment | lib/stores/communityStore.ts:534-575 | on success the tree becomes the removal's result (see the `CommentTree.Remove…` lemmas: the comment and everything under it leave, everything else stays in order), and `comments` drops by one on every cached copy of the post; a failure only sets the comments error |
| Store.CommunityStore.ToggleCommentLike | lib/stores/communityStore.ts:577-617 | after the service's toggle, the comment with the id is toggled locally at whatever depth; failures only set the comments error and are not rethrown |
| Store.CommunityStore.FetchCats | lib/stores/communityStore.ts:620-636 | the given user's companions, or the logged-in user's, replace the list; with neither, only the error is set and nothing is requested |
| Store.CommunityStore.AddCat | lib/stores/communityStore.ts:638-670 | a companion created for the logged-in user is appended; a failure only sets the companions error |
| Store.CommunityStore.UpdateCat | lib/stores/communityStore.ts:672-692 | no login is needed; the companions with the id are merged with the update; a failure only sets the error |
| Store.CommunityStore.FetchEmotions | lib/stores/communityStore.ts:695-711 | the given user's records, or the logged-in user's, replace the list; with neither, only the error is set |
| Store.CommunityStore.AddEmotion | lib/stores/communityStore.ts:713-745 | a record created for the logged-in user is put first; a failure only sets the emotions error |
| Store.CommunityStore.UpdateEmotion | lib/stores/communityStore.ts:747-767 | no login is needed; the records with the id are merged with the update; a failure only sets the error |
| Store.CommunityStore.DeleteEmotion | lib/stores/communityStore.ts:769-785 | no login is needed; the records with the id are removed; a failure only sets the error |
| Store.CommunityStore.ClearErrors | lib/stores/communityStore.ts:788-795 | the state becomes the cleared state: the four errors reset, nothing else touched |

## Left out

- **Clock values.** `new Date()` and `serverTimestamp()` are not modelled. `createdAt` and `updatedAt` are not modelled either, so a merge's refreshed `updatedAt` is not visible.
- **Query evaluation by the database.** Which documents a query selects and in what order is not modelled. The service's reads (`getAllPosts`, `getFilteredPosts`, `getPostById`, `getCommentsByPostId`, `getCatsByUserId`, `getEmotionsByUserId`) are modelled through the constraints they send and the reply the store receives. The comment read is modelled through the tree it builds from the returned list. The order in which `addExperience` visits the companions is arbitrary in the model.
- **Single-document writes.** `postService.updatePost`/`deletePost`, `commentService.updateComment`, `catService.addCat`/`updateCat` and `emotionService.updateEmotionRecord`/`deleteEmotionRecord` are each one database call with no logic. They appear only as the calls the store issues, with their outcome as a parameter.
- **Real-time listeners.** `subscribeToPost` and the account-state listener are callbacks with I/O.
- **Concurrency.** Every action is one atomic step, so racing toggles and out-of-order page arrivals are not represented.
- **Sign-in and profile plumbing.** `login`, `loginWithGoogle`, `logout`, `updateUserProfile` and `uploadProfileImage` are sequences of provider and storage calls. Only their outcomes enter `Register`, `ChangeEmail` and `DeleteAccount`.
- **The logged-in user.** `lib/stores/authStore.ts` is not part of this model. The user is a parameter of each action.
- **String lengths.** Lengths of strings are counted in characters of `seq<char>`. JavaScript counts UTF-16 code units; the two agree for the Korean text used here.
- **Patch fields.** Partial updates carry only the fields the application edits. Post updates carry title, content, tags, status and activity. Comment updates carry content, likes and likedBy. Companion updates carry name, level, experience, achievements and stats. Emotion updates carry emotion, emoji, text, intensity and tags.
- **Store.CommunityStore.DeleteComment:** `removeCommentFromTree` also overwrites `replies` inside the comments of the old state. The model treats the tree as a value, so this sharing with the previous state is not represented.
- **Backend.DocumentStore.AddExperience:** the loop's writes are computed one at a time, but the grant reaches the database in one assignment after the loop. No other operation observes the intermediate states.
- **CommentForest.AtMostOnce:** it counts entries of the root list and the reply lists. What a caller walks from the returned roots is stated by `CommentForest.ReturnedOnceOrNever`. Replies under a dropped reply are in the graph but not in the returned tree.
- **CommentForest.ExactlyOnce:** it is about the object graph. A reply that names its own id as parent, under an id shared with an earlier comment, is in the graph once but cannot be reached from the roots; `CommentForest.ReturnedExactlyOnce` excludes that case.
- **The documented 1–5 scale** of `rating`, `emotionIntensity` and emotion-record `intensity` is not stated. No code checks or relies on it.
- **UI and scripts.** The UI components and the data-migration script are not modelled. The seed data of the migration script breaks the level formula, so the formula is never a precondition.
