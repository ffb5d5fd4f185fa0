# Social network backend: cache, store and route model

This project models the core of a social-network backend written in
TypeScript on Express, Redis, MongoDB and Bull queues:

- the **Redis cache services** for posts, comments and reactions
  (`post.cache.ts`, `comment.cache.ts`, `reaction.cache.ts`);
- the **MongoDB persistence services** for posts, comments, reactions and
  images (`post.service.ts`, `comment.service.ts`, `reaction.service.ts`,
  `image.service.ts`);
- the **route controllers** that orchestrate them: creating, updating,
  deleting and paging posts, adding and reading comments, adding, removing
  and reading reactions, and following users and listing followers.

The model is built in these layers:

- **The Redis server** is the class `CacheStore.Store`. It holds four maps:
  - hashes (`posts:<id>`, `users:<id>`);
  - lists (`comments:<id>`, `reactions:<id>`);
  - sorted sets (`post`, scored by the author's `uId`);
  - plain sets (`following:<id>`, `followers:<id>`).

  It also holds an `up` flag. When `up` is false, every cache call fails
  with `ServerError("Server error. Try again.")` and changes nothing. This
  is what each service's `catch` block produces.
- **The MongoDB collections** are the sequences of the class
  `Documents.Db`:
  - posts and users are field maps, so that `$set`, `$inc` and `$ne`
    filters are direct;
  - comments, reactions, images and notifications are typed records.
- **The side effects** are recorded in an `Effects.Outbox`:
  - socket.io emits, with their event name and audience;
  - queued Bull jobs, with their name, payload and the shared retry policy
    (3 attempts, 5000 ms fixed back-off).
- **JSON.stringify/JSON.parse** is modelled as an injective length-prefixed
  encoding (`Netstring`), so that the round trips are proved:
  - for comments, reactions and reaction counts (`Records`);
  - for numbers (`Numbers`).

  `Helpers.parseJson` becomes `Records.ParseJson`. JavaScript's
  `${value}` templates and truthiness are written out in `Wrappers`:
  `undefined` renders as `"undefined"`, and the empty string is falsy.
- **Routes that write** are methods:
  - they mutate the store and the outbox;
  - they return the HTTP status and message, or the error the route
    throws.
- **Routes that only read** are either methods, whose postconditions tie
  the reply to the cache or the store, or functions.

## Model

| member | source | states |
|---|---|---|
| PostCache.SavePostToCache | src/shared/services/redis/post.cache.ts:19-102 | a down cache or a non-numeric `uId` fails with the server error and leaves hashes and sorted sets alone; otherwise the post id joins the `post` sorted set scored by `parseInt(uId)`, the post hash gets every field and the user's `postsCount` is written one higher |
| PostCache.SavedPostReadsBack | src/shared/services/redis/post.cache.ts:86-88 | after the save, reading the post hash back gives every saved field, and `commentsCount`, `reactions` and `createdAt` parse back to the saved values (the date exactly, because dates are modelled as integer milliseconds) |
| PostCache.SavedFields | src/shared/services/redis/post.cache.ts:86-88 | the HSET loop leaves each of the post's fields holding its templated value |
| PostCache.SavedParsedFields | src/shared/services/redis/post.cache.ts:46-65 | the saved counters, counts object, date and `gifUrl` are stored as their JSON or template strings |
| PostCache.SaveRaisesPostsCount | src/shared/services/redis/post.cache.ts:91-94 | a numeric `postsCount` n becomes n + 1 |
| PostCache.SaveTouchesTwoHashes | src/shared/services/redis/post.cache.ts:76-94 | every hash other than the post's and the author's is unchanged by the save |
| PostCache.UndefinedGifCountsAsImage | src/shared/services/redis/post.cache.ts:195 | a post saved with no `gifUrl` stores the string "undefined", which is truthy, so every such post passes the image filter |
| PostCache.GetPostsFromCache | src/shared/services/redis/post.cache.ts:105-144 | the reply has one post per id in the ZRANGE window, in order, each read from its hash with its counters, counts and date parsed |
| PostCache.ReadPostsLoop | src/shared/services/redis/post.cache.ts:131-136 | the parsing loop produces exactly the reading of each hash in turn |
| PostCache.GetTotalPostsInCache | src/shared/services/redis/post.cache.ts:148-165 | the reply is the cardinality of the `post` sorted set |
| PostCache.GetPostsWithImagesFromCache | src/shared/services/redis/post.cache.ts:169-209 | the reply is the window's posts that have both `imgId` and `imgVersion`, or a `gifUrl` |
| PostCache.GetPostsWithVideosFromCache | src/shared/services/redis/post.cache.ts:213-257 | the reply is the window's posts that have both `videoId` and `videoVersion` |
| PostCache.KeepMediaLoop | src/shared/services/redis/post.cache.ts:194-201 | the filtering loop keeps exactly the posts the media filter accepts, in order |
| PostCache.KeepMediaMembers | src/shared/services/redis/post.cache.ts:195 | a post is in the filtered list if and only if it is in the input and shows the media kind |
| PostCache.KeepMediaAppend | src/shared/services/redis/post.cache.ts:242-249 | filtering distributes over concatenation, so the filter keeps the relative order |
| PostCache.GetUserPostsFromCache | src/shared/services/redis/post.cache.ts:261-304 | the reply has one post per member scored exactly `uId`, highest rank first, and as many posts as ZCOUNT reports |
| PostCache.GetTotalUserPostsInCache | src/shared/services/redis/post.cache.ts:308-326 | the reply is the number of `post` members with score `uId`, never more than the whole set |
| PostCache.DeletePostFromCache | src/shared/services/redis/post.cache.ts:329-361 | the id leaves the `post` set, the `posts:<id>` key is deleted and the user's `postsCount` is written one lower; a down cache changes nothing |
| PostCache.DeleteLowersPostsCount | src/shared/services/redis/post.cache.ts:338-353 | a numeric `postsCount` n becomes n − 1, the post hash is gone and every other hash is unchanged |
| PostCache.DeleteKeepsCommentsAndReactions | src/shared/services/redis/post.cache.ts:344-347 | deleting the post leaves its `comments:` and `reactions:` lists in the cache |
| PostCache.HSetEach | src/shared/services/redis/post.cache.ts:86-88 | one HSET per field–value pair on the post hash, in order: the new hash is the old one with each pair written, and nothing else in the cache changes |
| PostCache.UpdatePostInCache | src/shared/services/redis/post.cache.ts:364-418 | the ten editable fields are written as templates, the rest of the hash is kept, and the reply is the new hash with its `createdAt` parsed |
| PostCache.UpdateChangesTenFields | src/shared/services/redis/post.cache.ts:370-392 | after the update each of the ten fields holds the templated edit value, the hash has the old fields plus those ten, and every other field is unchanged |
| CommentCache.SavePostCommentToCache | src/shared/services/redis/comment.cache.ts:18-40 | the encoded comment is pushed at the head of `comments:<postId>` and the post's `commentsCount` is rewritten one higher; a down cache changes nothing |
| CommentCache.SavedCommentIsHead | src/shared/services/redis/comment.cache.ts:27 | after LPUSH the comment heads the list, which is one longer, and the earlier comments follow unchanged |
| CommentCache.SaveRaisesCommentsCount | src/shared/services/redis/comment.cache.ts:30-35 | a numeric count n becomes n + 1; a missing count becomes 1; other hashes are unchanged |
| CommentCache.SavedCommentReadsBack | src/shared/services/redis/comment.cache.ts:27 | the pushed entry decodes to the saved comment |
| CommentCache.GetCommentsFromCache | src/shared/services/redis/comment.cache.ts:44-67 | the reply decodes every entry of the post's list, position by position |
| CommentCache.DecodeComments | src/shared/services/redis/comment.cache.ts:57-59 | the parsing loop decodes each entry in turn |
| CommentCache.GetCommentsNamesFromCache | src/shared/services/redis/comment.cache.ts:71-103 | the reply is always a one-element list holding the list's length and the username of every entry, duplicates kept |
| CommentCache.GetSingleCommentFromCache | src/shared/services/redis/comment.cache.ts:107-136 | the reply is a one-element list holding the first cached comment with that id, or undefined exactly when no entry has that id |
| CommentCache.FindComment | src/shared/services/redis/comment.cache.ts:125-127 | the result is the first entry with that id, and it is absent exactly when no entry has that id |
| ReactionCache.SavePostReactionToCache | src/shared/services/redis/reaction.cache.ts:18-55 | with a previous reaction, the user's first cached reaction is removed; with a truthy type, the new reaction is pushed at the head; the counts are written when the type is truthy or the removal found an entry (a failed removal is not awaited and does not fail the save); a down cache changes nothing |
| ReactionCache.ReplaceKeepsOneEntry | src/shared/services/redis/reaction.cache.ts:35-49 | replacing the reaction of a user who had one cached entry leaves exactly one, the new one, at the head, and the list keeps its length |
| ReactionCache.EmptyTypePushesNothing | src/shared/services/redis/reaction.cache.ts:40 | an empty reaction type pushes nothing, so only the removal of the previous reaction happens |
| ReactionCache.CountsWrittenTwice | src/shared/services/redis/reaction.cache.ts:36-49 | writing the counts once in the removal and again in the save leaves the same state as writing them once |
| ReactionCache.RemovePostReactionFromCache | src/shared/services/redis/reaction.cache.ts:59-95 | the first cached entry by the user is removed, nothing else in the list changes, and the counts field is written; with no entry by the user the LREM of `undefined` fails the awaited MULTI, so the call is a server error and neither the list nor the counts change |
| ReactionCache.LRemOfFirstMatch | src/shared/services/redis/reaction.cache.ts:81-84 | LREM of the re-encoded first match removes exactly the entry at that position |
| ReactionCache.RemovalDropsOneEntry | src/shared/services/redis/reaction.cache.ts:59-95 | the removal drops at most one of the user's entries, and the list shrinks by one exactly when the user had one |
| ReactionCache.NoMatchNoEntries | src/shared/services/redis/reaction.cache.ts:136-144 | when the previous-reaction lookup finds nothing, the list holds no entry by that user |
| ReactionCache.UserEntriesAppend | src/shared/services/redis/reaction.cache.ts:136-144 | counting a user's entries distributes over concatenation |
| ReactionCache.GetPreviousReaction | src/shared/services/redis/reaction.cache.ts:136-144 | the loop returns the first decoded entry whose username matches |
| ReactionCache.FirstMatch | src/shared/services/redis/reaction.cache.ts:141-143 | the result is the first position whose entry matches, and it is absent exactly when none matches |
| ReactionCache.GetReactionsFromCache | src/shared/services/redis/reaction.cache.ts:97-113 | a non-empty list gives every decoded entry and the list's length; an empty one gives `([], 0)` |
| ReactionCache.DecodeReactions | src/shared/services/redis/reaction.cache.ts:104-107 | the parsing loop decodes each entry in turn |
| ReactionCache.GetSingleReactionByUsernameFromCache | src/shared/services/redis/reaction.cache.ts:115-134 | the reply is the first cached reaction with that post id and username, and it is absent exactly when no entry has both |
| PostService.AddPostToDB | src/shared/services/db/post.service.ts:12-21 | the post document is appended and the author's `postsCount` is incremented; no other collection changes |
| PostService.AddRaisesCounts | src/shared/services/db/post.service.ts:12-21 | the post count grows by one, and the author's `postsCount` rises by one with every other field kept |
| PostService.GetPosts | src/shared/services/db/post.service.ts:27-57 | a negative skip or a limit of at most 0 is an error; otherwise at most `limit` posts come back, all from the collection and all passing the selected filter |
| PostService.SelectFilter | src/shared/services/db/post.service.ts:31-43 | a query with truthy `imgId` and `gifUrl` selects the image-or-gif filter; otherwise one with truthy `videoId` selects the video filter; otherwise the query itself is the filter |
| PostService.RouteQueriesSelectFilters | src/shared/services/db/post.service.ts:31-43 | the three queries the routes send select the image, video and match-all filters |
| PostService.Match | src/shared/services/db/post.service.ts:47-48 | the filter keeps exactly the documents that pass it |
| PostService.EmptyQueryMatchesAll | src/shared/services/db/post.service.ts:42-48 | the empty query keeps every document |
| PostService.AbsentFieldPassesNotEmpty | src/shared/services/db/post.service.ts:34 | a `$ne: ''` condition accepts a document that has no such field |
| PostService.GetPostsNewestFirst | src/shared/services/db/post.service.ts:47-53 | the page comes back sorted by `createdAt`, newest first |
| PostService.DeletePost | src/shared/services/db/post.service.ts:74-84 | the first post with that id is removed and the author's `postsCount` is decremented |
| PostService.DeleteLowersCounts | src/shared/services/db/post.service.ts:74-84 | the post count drops by one when the id exists, nothing changes when it does not, and the author's `postsCount` falls by one |
| PostService.EditPost | src/shared/services/db/post.service.ts:89-95 | the supplied fields are `$set` on the first post with that id |
| PostService.EditSetsSuppliedFields | src/shared/services/db/post.service.ts:89-95 | every supplied field takes its new value, every other field and every other post is unchanged |
| CommentService.AddCommentToDB | src/shared/services/db/comment.service.ts:19-80 | the comment is stored and the post's `commentsCount` incremented; when the recipient wants comment notifications and is not the author, one notification is stored, emitted to the recipient and an e-mail job queued; a missing post then fails with a TypeError |
| CommentService.CommentNotification | src/shared/services/db/comment.service.ts:48-62 | the notification names the sender, recipient, post and comment, and copies the post's text and media fields |
| CommentService.AddRaisesCommentsCount | src/shared/services/db/comment.service.ts:28-32 | the post's `commentsCount` rises by one and its other fields are unchanged |
| CommentService.GetPostComments | src/shared/services/db/comment.service.ts:84-91 | the reply is a permutation of the matching comments, sorted newest first |
| CommentService.MatchComments | src/shared/services/db/comment.service.ts:87 | the match keeps exactly the comments that satisfy the query |
| CommentService.GetPostCommentNames | src/shared/services/db/comment.service.ts:95-107 | no match gives an empty list; otherwise one group whose count is the number of matches and whose names are the distinct usernames of the matching comments |
| CommentService.UniqueNames | src/shared/services/db/comment.service.ts:101 | `$addToSet` keeps each username once, and exactly the usernames present |
| ReactionService.AddReactionDataToDB | src/shared/services/db/reaction.service.ts:22-100 | the user's previous record is replaced by the new one (or it is inserted), the post's counters move, and the notification, emit and e-mail job happen exactly when the recipient wants them and is not the sender; the notification's `createdItemId` is the fresh id made from `replaceOne`'s result, as written |
| ReactionService.ReactionIncrements | src/shared/services/db/reaction.service.ts:45-54 | the same type only increments that type; a different one decrements the previous type and increments the new one |
| ReactionService.ChangeMovesTwoCounts | src/shared/services/db/reaction.service.ts:45-54 | changing the type lowers the previous count by one, raises the new count by one and leaves every other count alone |
| ReactionService.SameKindOnlyIncrements | src/shared/services/db/reaction.service.ts:45-54 | reacting again with the same type raises that count by one |
| ReactionService.ReplaceStoresOneRecord | src/shared/services/db/reaction.service.ts:42 | after the replace the new record is stored under the replaced record's id, and the collection grows only when nothing was replaced |
| ReactionService.FirstRecord | src/shared/services/db/reaction.service.ts:42 | the replace targets the first record matching post, type and user, and none exists exactly when no record matches |
| ReactionService.ReactionNotificationAsWritten | src/shared/services/db/reaction.service.ts:64-78 | the notification as the code builds it: sender, recipient, post, type and the post's text and media fields, with `createdItemId` the fresh id made at line 70 |
| ReactionService.ReactionNotification | src/shared/services/db/reaction.service.ts:64-78 | the corrected definition of the first finding below: the notification names the sender, recipient and post, points at the stored reaction's id instead of the fresh id the code makes, carries the type, and copies the post's text and media fields |
| ReactionService.RemoveReactionDataFromDB | src/shared/services/db/reaction.service.ts:106-128 | the user's matching record is deleted and the previous type's counter is decremented |
| ReactionService.RemoveDeletesOneRecord | src/shared/services/db/reaction.service.ts:106-128 | exactly one matching record is removed (none when there is none), and the previous type's count falls by one |
| ReactionService.GetPostReactions | src/shared/services/db/reaction.service.ts:134-141 | the reply is exactly the post's reactions together with their number |
| ReactionService.ReactionsOfPost | src/shared/services/db/reaction.service.ts:137 | the filter keeps exactly the reactions of the post |
| ReactionService.GetSinglePostReactionByUsername | src/shared/services/db/reaction.service.ts:147-156 | the result is a reaction to the post by the capitalised username, and it is absent exactly when there is none |
| ReactionService.GetReactionsByUsername | src/shared/services/db/reaction.service.ts:161-170 | the reply is exactly the reactions by the capitalised username |
| ReactionService.ReactionsBy | src/shared/services/db/reaction.service.ts:164-166 | the filter keeps exactly the reactions by that username |
| ImageService.AddUserProfileImageToDB | src/shared/services/db/image.service.ts:11-18 | the user's `profilePicture` is `$set` to the URL and a profile image record is appended |
| ImageService.AddBackgroundImageToDB | src/shared/services/db/image.service.ts:23-30 | the user's background id and version are `$set` and a background image record is appended |
| ImageService.AddImage | src/shared/services/db/image.service.ts:35-45 | one image record is appended and no other collection changes |
| ImageService.NewImage | src/shared/services/db/image.service.ts:35-45 | a background image fills the background id and version; any other kind leaves them empty |
| ImageService.RemoveImageFromDB | src/shared/services/db/image.service.ts:50-54 | the image with that id is deleted |
| ImageService.DeleteImage | src/shared/services/db/image.service.ts:50-54 | exactly the first image with that id is removed, and nothing when no image has it |
| ImageService.RemoveUniqueImage | src/shared/services/db/image.service.ts:50-54 | when ids are unique, no image with that id remains |
| ImageService.GetImageByBackgroundId | src/shared/services/db/image.service.ts:59-66 | the result is the first image with that background id, and it is absent exactly when none has it |
| ImageService.FirstImage | src/shared/services/db/image.service.ts:59-66 | the lookup returns the first position whose picked field equals the value |
| ImageService.BackgroundUploadIsFound | src/shared/services/db/image.service.ts:23-30 | a background image just added is found by its background id |
| ImageService.EmptyBackgroundIdFindsProfileImage | src/shared/services/db/image.service.ts:59-66 | a lookup by the empty background id finds a profile image, whose background id is empty |
| ImageService.GetImages | src/shared/services/db/image.service.ts:71-78 | the reply is exactly the user's images |
| ImageService.UploadListedForOwner | src/shared/services/db/image.service.ts:71-78 | an added image is listed for its owner and changes no other user's list |
| ImageService.GetImagesAppend | src/shared/services/db/image.service.ts:71-78 | appending an image appends it to its owner's list only |
| PostControllers.Publish | src/features/post/controllers/create-post.ts:50-62 | the `add post` emit always happens; the cache save and the `addPostToDB` job happen only when the save is accepted |
| PostControllers.CreatePost | src/features/post/controllers/create-post.ts:19-65 | the post is emitted, cached with zero counters (its hash, and its id added to the `post` sorted set with the author's `uId` as score) and queued, and the reply is 201 "Post created successfully"; a cache failure rejects the request with the hashes and sorted sets unchanged; no list or follower set changes |
| PostControllers.CreatePostWithImage | src/features/post/controllers/create-post.ts:68-128 | a failed upload is a BadRequestError before anything happens; otherwise the post with the upload's image is emitted, cached (hash and `post` sorted-set entry scored by `uId`) and queued, and then the image job is queued; no list or follower set changes |
| PostControllers.CreatePostWithVideo | src/features/post/controllers/create-post.ts:131-169 | a failed upload is a BadRequestError; otherwise the post with the video is emitted, cached (hash and `post` sorted-set entry scored by `uId`) and queued; no list or follower set changes |
| PostControllers.CreatedPostReadsBack | src/features/post/controllers/create-post.ts:19-65 | a created post reads back from the cache with 0 comments, zero reaction counts and its creation time (exactly, because dates are modelled as integer milliseconds) |
| PostControllers.SavedMediaFields | src/features/post/controllers/create-post.ts:80-104 | the media ids and versions are cached as their templates |
| PostControllers.CreatedMediaIsListed | src/features/post/controllers/create-post.ts:68-169 | a post created with an image is listed by the image route and not by the video route; one with a video is listed by the video route |
| PostControllers.ApplyEdit | src/features/post/controllers/update-post.ts:107-126 | the post hash takes the edit, the updated post is emitted to every client (with `'posts'` as an extra argument), and the `updatePostInDB` job carries the same reply; a down cache emits and queues nothing |
| PostControllers.UpdatePosts | src/features/post/controllers/update-post.ts:20-54 | the plain edit is applied, its 'update post' event and `updatePostInDB` job are appended, and the reply is 200 "Post updated successfully"; a down cache is a server error with nothing emitted or queued; the sorted sets, the comment and reaction lists and the follower sets never change |
| PostControllers.UpdatePostWithMedia | src/features/post/controllers/update-post.ts:60-105 | a body that keeps its media applies the kept-media edit (`imgId`/`videoId` and versions defaulting to `''`) and replies 200 even when the cache is down, appending the edit's event and job only when it is up; otherwise a failed upload is a BadRequestError with nothing written, and a successful one writes the upload's ids, appends the event, the `updatePostInDB` job and, for an image, the `addImageToDB` job; the sorted sets, lists and follower sets never change |
| PostControllers.AddMediaToExistingPost | src/features/post/controllers/update-post.ts:128-161 | a failed upload is returned unchanged with nothing written; a successful one is written to the post, and its 'update post' event, its `updatePostInDB` job and, for an image, the `addImageToDB` job are appended in that order; the sorted sets, lists and follower sets never change |
| PostControllers.EditedMediaFields | src/features/post/controllers/update-post.ts:29-40 | the edited media ids and versions are cached as their templates |
| PostControllers.PlainEditDropsVideo | src/features/post/controllers/update-post.ts:29-40 | a plain edit writes empty video fields, so the post leaves the video listing |
| PostControllers.UploadEditIsListed | src/features/post/controllers/update-post.ts:128-161 | an image upload keeps the post in the image listing, and a video upload puts it in the video listing |
| PostControllers.KeptMediaStaysListed | src/features/post/controllers/update-post.ts:107-126 | an edit that keeps its media leaves the post in its listing |
| PostControllers.DeletePost | src/features/post/controllers/delete-post.ts:10-23 | the delete is always emitted; the cache deletion (DEL of the post key in every kind of store) and the `deletePostFromDB` job follow, and the reply is 200 "Post deleted successfully" |
| PostQueries.CacheWindow | src/features/post/controllers/get-posts.ts:20-25 | page 1 reads ranks 0..10; page n ≥ 2 reads from rank 10(n−1)+1 to 10n |
| PostQueries.CachePagesAdjacent | src/features/post/controllers/get-posts.ts:20-25 | consecutive cache pages neither overlap nor leave a gap |
| PostQueries.CachePageSizes | src/features/post/controllers/get-posts.ts:20-25 | on a long enough set, page 1 has 11 posts and every later page 10 |
| PostQueries.AllPosts | src/features/post/controllers/get-posts.ts:15-49 | a non-numeric page or a down cache is a server error; a non-empty cache page is answered from the cache with the cached total; otherwise from the store page as the route asks for it (skip 10(n−1), limit 10n) with the store's total |
| PostQueries.MediaPosts | src/features/post/controllers/get-posts.ts:53-99 | the image and video routes answer from the filtered cache page when it is non-empty, otherwise from the store page with the route's media query, skip 10(n−1) and limit 10n |
| PostQueries.PagesBelowOneFail | src/features/post/controllers/get-posts.ts:20-22 | a page below 1 gives a negative skip, which the store rejects |
| PostQueries.StoreWindowAsWritten | src/features/post/controllers/get-posts.ts:20-22 | the store call uses skip 10(n−1) and limit 10n |
| PostQueries.StorePagesOverlapAsWritten | src/features/post/controllers/get-posts.ts:41 | with that limit, page 2 returns 20 posts, and its 11th post is the first post of page 3 |
| PostQueries.StoreWindow | src/features/post/controllers/get-posts.ts:20-22 | the corrected store window uses limit 10 and a non-negative skip for every page ≥ 1 |
| PostQueries.StorePageExtendsCorrected | src/features/post/controllers/get-posts.ts:20-22 | the store page the routes return starts with the corrected page of ten, as a prefix |
| PostQueries.StorePagesAdjacent | src/features/post/controllers/get-posts.ts:41 | with the corrected limit, consecutive store pages are adjacent |
| CommentControllers.AddComment | src/features/comments/controllers/add-comment.ts:17-53 | the new comment heads the post's cached list, `commentsCount` rises, the `addCommentToDB` job is queued, and the reply is 200; a cache failure queues nothing |
| CommentControllers.NewComment | src/features/comments/controllers/add-comment.ts:26-34 | the record carries the request's post, comment and picture, the signed-in user's name and colour, and the creation time |
| CommentControllers.AddedCommentHeadsComments | src/features/comments/controllers/add-comment.ts:37 | after the add, the comments route lists the new comment first and the earlier ones unchanged, and the names route names its author first |
| CommentControllers.AddedCommentIsFound | src/features/comments/controllers/get-comments.ts:54-70 | after the add, the single-comment route finds the comment by its id |
| CommentControllers.Comments | src/features/comments/controllers/get-comments.ts:13-29 | a non-empty cached list is returned decoded; an empty one falls back to the post's stored comments, newest first |
| CommentControllers.CommentNames | src/features/comments/controllers/get-comments.ts:33-49 | the reply is always the cache's one group of names and count; the store fallback is never taken |
| CommentControllers.SingleComment | src/features/comments/controllers/get-comments.ts:54-70 | the reply is the first cached comment with the id, or undefined; the store fallback is never taken |
| CommentControllers.FirstOf | src/features/comments/controllers/get-comments.ts:48 | `xs.length ? xs[0] : []` yields the first element exactly when the list is non-empty |
| ReactionControllers.AddReaction | src/features/reactions/controllers/add-reactions.ts:16-53 | the reaction is saved to the cache, the `addReactionToDB` job is queued, and the reply is 200; a cache failure queues nothing |
| ReactionControllers.NewReaction | src/features/reactions/controllers/add-reactions.ts:22-30 | the record carries the post, type and picture, and the signed-in user's name and colour |
| ReactionControllers.AddedReactionIsFound | src/features/reactions/controllers/add-reactions.ts:34 | after adding a reaction of a non-empty type, the single-reaction route reads it back from the cache |
| ReactionControllers.RemoveReaction | src/features/reactions/controllers/remove-reaction.ts:12-32 | counts that do not parse fail before the cache is touched; otherwise the user's cached reaction is removed, the counts are written, the removal job is queued, and the reply is 200; a down cache or a user with no cached entry is a server error with nothing queued |
| ReactionControllers.RemovedReactionIsGone | src/features/reactions/controllers/remove-reaction.ts:18 | once a user with at most one cached reaction has it removed, neither lookup finds one |
| ReactionControllers.NoEntriesNoMatch | src/features/reactions/controllers/remove-reaction.ts:18 | a list with no entry by the user has no entry that a lookup by the user matches |
| ReactionControllers.Reactions | src/features/reactions/controllers/get-reactions.ts:12-27 | a non-empty cached list gives its decoded entries and length; an empty one gives the post's stored reactions and their number |
| ReactionControllers.SingleReactionByUsername | src/features/reactions/controllers/get-reactions.ts:31-50 | the cache's match with count 1; failing that, the store's record with count 1; failing that, empty with count 0 |
| ReactionControllers.ReactionsByUsername | src/features/reactions/controllers/get-reactions.ts:53-63 | the reply is exactly the stored reactions by the capitalised username |
| FollowerControllers.IncrBy | src/features/followers/controllers/follower-user.ts:26-29 | HINCRBY starts a missing field at the delta, adds the delta to an integer field, and fails on a non-integer field |
| FollowerControllers.UpdateFollowersCount | src/features/followers/controllers/follower-user.ts:26-29 | the counter moves by the delta, and the call fails exactly when the field is not an integer |
| FollowerControllers.CountMovesByDelta | src/features/followers/controllers/follower-user.ts:26-29 | a numeric counter n becomes n + delta, and every other field and user is unchanged |
| FollowerControllers.UserData | src/features/followers/controllers/follower-user.ts:65-77 | the announced data copies the name, `uId` and the three counters of the user record (`postsCount` as `postCount`) and uses the stored id or else a new one; the record is the user's hash, and the counters are read as the user cache's `parseJson` returns them |
| FollowerControllers.Follow | src/features/followers/controllers/follower-user.ts:18-62 | both counters are raised; if either fails, the request fails and nothing else happens; otherwise the followee is announced, both sets gain their member, and the `addFollowerToDB` job is queued |
| FollowerControllers.FollowAddsBothMembers | src/features/followers/controllers/follower-user.ts:47-49 | the followee joins the user's following set, the user joins the followee's followers set, and every other set is unchanged |
| FollowerControllers.AnnouncedCountIsRaised | src/features/followers/controllers/follower-user.ts:33-43 | the announced `followersCount` is the count after the raise |
| FollowerControllers.Unfollow | src/features/followers/controllers/test/unfollow-user.test.ts:34-53 | both set memberships are removed, both counters are lowered, the `removeFollowerFromDB` job is queued, and the reply is 200 "Unfollowed user now" |
| FollowerControllers.FollowThenUnfollowRestores | src/features/followers/controllers/test/unfollow-user.test.ts:34-53 | following and then unfollowing a user restores both counters and every follower set |
| FollowerControllers.UserFollowing | src/features/followers/controllers/get-followers.ts:17-30 | the reply is the cached `following:` list of the signed-in user when it is non-empty, otherwise the store's list |
| FollowerControllers.UserFollowers | src/features/followers/controllers/get-followers.ts:36-49 | the reply is the cached `followers:` list of the named user when it is non-empty, otherwise the store's list |
| Records.DecodeEncodeComment | src/shared/services/redis/comment.cache.ts:57-59 | a comment stored as JSON parses back to the same comment |
| Records.DecodeEncodeReaction | src/shared/services/redis/reaction.cache.ts:104-107 | a reaction stored as JSON parses back to the same reaction |
| Records.EncodeDecodeReaction | src/shared/services/redis/reaction.cache.ts:81-84 | re-stringifying a parsed reaction gives the stored entry back, which is what LREM needs to match |
| Records.DecodeEncodeCounts | src/shared/services/redis/reaction.cache.ts:49 | the six-kind counts object stored as JSON parses back to itself |
| Records.ParseJsonOfNumeral | src/shared/services/redis/post.cache.ts:132 | `parseJson` of a stored number gives that number |
| Records.ParseJsonOfCounts | src/shared/services/redis/post.cache.ts:133 | `parseJson` of the stored counts gives the counts object |
| Records.KeysInjective | src/shared/services/redis/post.cache.ts:86-94 | distinct ids give distinct cache keys of each kind |
| Numbers.AdjustedCountOfNumeral | src/shared/services/redis/post.cache.ts:91-94 | `parseInt` of a stored count plus the delta is written back as that sum |
| Numbers.JsonCountPlusOneOfNumeral | src/shared/services/redis/comment.cache.ts:30-35 | a parsed count plus one is written back as that sum |
| Numbers.ParseIntOfIntToString | src/shared/services/redis/post.cache.ts:83 | `parseInt` reads back any integer written in decimal |

## Left out

- I/O, the network and connection handling are not modelled. The Redis `connect()`, the socket.io transport, the Bull workers, Cloudinary and the e-mail transport become the `up` flag, the `Outbox` records and an `Upload` parameter.
- Concurrency is not modelled. `Promise.all` and calls that are not awaited (the `multi.exec()` in `savePostToCache`, and the removal inside `savePostReactionToCache`, and `Update.prototype.updatePost(req)` in `postWithImage` and `postWithVideo` at src/features/post/controllers/update-post.ts:68 and :93) are modelled as running to completion in program order. For the last of these, `PostControllers.UpdatePostWithMedia` replies 200 whether or not the edit went through, because the source never handles that call's rejection. A removal inside `savePostReactionToCache` that fails (no entry by the user) is modelled as changing nothing, and the save goes on.
- A failure part-way through a Redis batch is not modelled. A down cache fails the whole call before anything changes.
- JSON is modelled by a length-prefixed encoding. It has the same round-trip and injectivity properties, but not the exact JSON text.
- `parseInt` whitespace skipping and trailing-garbage tolerance are not modelled.
- JavaScript `Date` formatting is not modelled. Dates are integer milliseconds written in decimal. The program stores `${createdAt}` of a `Date`, the `Date.toString` text that `parseJson` keeps as a string and `new Date(...)` reads back to whole seconds; the exact read-back of the creation time in `PostCache.SavedPostReadsBack` and `PostControllers.CreatedPostReadsBack` holds only under this abstraction.
- Record ids (`ObjectId`) are parameters. An invalid id making `new mongoose.Types.ObjectId` throw is not modelled.
- Mongo sorting ties keep no particular order. The model only promises a permutation sorted by `createdAt`.
- `insertNotification`, the e-mail template rendering and the notification document's own fields beyond those listed are not modelled. The notification record and the queued e-mail job stand for them.
- The Joi validation decorators are not modelled.
- The follower and user cache services (`follower.cache.ts`, `user.cache.ts`) are not part of this model:
  - their counter update is modelled as Redis HINCRBY;
  - their lists as plain sets;
  - the user record as its hash; the `parseJson` that `getUserFromCache` applies to the counters is applied where `FollowerControllers.UserData` reads them.
- The unfollow controller is not part of this model. `FollowerControllers.Unfollow` follows the behaviour its test spells out.
- The follower reads (`getFollowersFromCache`, `getFolloweeData`, `getFollowerData`) are parameters of `FollowerControllers.UserFollowing` and `FollowerControllers.UserFollowers`.
- The reaction routes' `postReactions` JSON body is modelled by the counts codec.
- Reactions carry no `createdAt` in the model, so the store's sort by `createdAt` on reactions is not modelled.
- The Mongo update path `reactions.` with an empty reaction type is modelled as an update of the empty key.
- The image controller routes and `seeds.ts` are not part of this model.
- Documents.IncField: a Mongo `$inc` on a field that holds a non-number is rejected by the store, but the model leaves such a document unchanged and the update succeeds. The error path this gives `PostService.AddPostToDB`, `PostService.DeletePost` and `CommentService.AddCommentToDB` is not modelled.
- Documents.IncCount: likewise for a `reactions` field that is not an object, so that error path of `ReactionService.AddReactionDataToDB` and `ReactionService.RemoveReactionDataFromDB` is not modelled.
- PostService.GetPosts: states membership and the bound on the page, not which posts the skip selects. `Documents.Paged` states that window.

## Findings

| source | as written | input that shows it | evidently intended | confidence | as-written member | corrected member |
|---|---|---|---|---|---|---|
| src/shared/services/db/reaction.service.ts:70 | `createdItemId` is taken from the result of `replaceOne`, which is an update summary, not the stored reaction, so its `_id` is undefined and a fresh id is made; `ReactionService.AddReactionDataToDB` models this | any reaction added while the recipient wants notifications | the notification points at the stored reaction's id | medium, not executed | ReactionService.NotificationItemIdDiscrepancy | ReactionService.ReactionNotification |
| src/features/post/controllers/get-posts.ts:20-22 | the store query uses limit `PAGE_SIZE * page` together with skip `(page − 1) * PAGE_SIZE` | page 2 of a 30-post collection returns posts 10..29, and page 3 starts again at post 20; `PostQueries.AllPosts` and `PostQueries.MediaPosts` model this window | limit `PAGE_SIZE`, so that pages are adjacent | high, not executed | PostQueries.StorePagesOverlapAsWritten | PostQueries.StorePagesAdjacent |
