# Wedding Timeline — verified model of the feed and its satellites

This project models, in Dafny, the logic of the WeddingTimeline Android app. The app is a shared wedding photo timeline. Guests join a room with a room id, a room key, a name and an avatar. They then post text, images and videos to a feed that updates live, like posts, and see a "best posts" ranking.

The centre of the model is the timeline feed reconciliation in `TimelineViewModel`:

- paginated pages are merged into a newest-first list by post id;
- live-listener batches go to the head of the list when the viewer is at the top, and otherwise wait in a pending buffer counted by the "new posts" badge;
- revealing the buffer, or scrolling back to the top, flushes it;
- a category filter projects the list;
- a like toggle replaces one post's like state with the server's count.

Around it sit the smaller cores:

- the best-post ranking: a stable sort by likes, the top three, and a local ±1 toggle;
- the like transaction body, `makePosts`, `fetchPosts`' cursor and the `createPost` payload in `PostRepository`;
- the DTO decoders and raw-value codecs;
- room joining, renaming and error mapping in `RoomRepository`;
- the login form;
- the new-post media selection limits;
- the relative-time and `M:SS` formatters;
- session and member flags;
- the avatar table.

Kotlin semantics are written out where they matter:

- `distinctBy`/`distinct` keep the first occurrence;
- `sortedByDescending` is stable;
- `Long`/`Int` division truncates toward zero (`Kotlin.Div`/`Kotlin.Rem`);
- `toInt()` and `Int` `+`/`-` wrap to 32 bits (`Kotlin.ToInt32`);
- a string template renders a null message as `null` (`Wrappers.MessageText`).

Whatever Firebase answers is an input. This covers a fetched page, a live batch, the liked-post mirror, a transaction's documents, a sign-in result, a membership read and a commit outcome. Clocks (`now`) and the content resolver's video test (`isVideo`) are parameters too.

Every suspending view-model operation is split at its suspension point into two methods: one that runs synchronously and one that completes with the repository's answer (`FetchPosts`/`CompleteFetchPosts`, `Join`/`CompleteJoin`, …). Each view-model method is proved equal to a pure transition over the whole state. The transitions carry the invariants: the badge equals the buffer size, and the buffer is empty at the top. They also carry the lemmas: merging is idempotent, a known batch is a no-op, pages keep the old list as a prefix, and the top three dominate the rest.

Modules:

| file | module | models |
|---|---|---|
| wrappers.dfy | Wrappers | `Option`, `Result`, and a repository answer as `Outcome` |
| kotlin.dfy | Kotlin | 32-bit `Int`, and truncating `/` and `%` |
| text.dfy | Text | `trim`, `isBlank`, ASCII `lowercase` and `equals(ignoreCase)`, decimal rendering |
| media.dfy | Media | `MediaType`, `Media`, `MediaDto`, the codecs, and Firestore media maps |
| tags.dfy | Tags | `PostTag` |
| filters.dfy | Filters | `TimelineFilter` |
| posts.dfy | Posts | `TimeLinePost`, `hasMedia`, `formattedCreatedAt` |
| postdtos.dfy | PostDtos | `TimeLinePostDto.toDomain` |
| feed.dfy | Feed | `distinctBy { it.id }` and new-post selection |
| repository.dfy | PostRepository | `makePosts`, `fetchPosts` result, like transaction, `createPost` |
| timeline.dfy | Timeline | `TimelineUiState`, `TimelineViewModel` |
| bestpost.dfy | BestPosts | `BestPostViewModel` and its ranking |
| session.dfy | Sessions | `Session`, `RoomMember` |
| avatar.dfy | Avatars | `avatarResId`, `resolveAvatarResId` |
| video.dfy | VideoTime | `formatTime`, duration clamping |
| request.dfy | Requests | `JoinParams`, `JoinError` |
| room.dfy | Rooms | `joinRoom`, `mapJoinError`, `changeUsername`, `fetchRoomUser` |
| login.dfy | Login | `LoginUiState`, `LoginViewModel` |
| mediaselection.dfy | MediaSelection | `filterMediaSelection`, `canPickMore`, `canSubmit` |

Where the code departs from its own comments, or from what a reader of its names would expect, the model follows the code:

- `TimelineViewModel.toggleLike` shows no error when the repository call fails. It only logs the failure (`WeddingTimeline/app/src/main/java/com/ttaguchi/weddingtimeline/ui/timeline/TimelineViewModel.kt:247-250`). It also flips the like state of the post passed in, not of the post in the list.
- `BestPostViewModel.toggleLike` updates the list only after the repository call succeeds, despite its "Optimistic update" comment (`WeddingTimeline/app/src/main/java/com/ttaguchi/weddingtimeline/ui/bestpost/BestPostViewModel.kt:114`). It ignores the count the server returns and applies ±1 locally.
- `refreshHead` and `refreshBestPosts` have no loading guard.
- `LoginViewModel.join`'s `when` over `JoinError` has no branch for `JoinError.Message` (`WeddingTimeline/app/src/main/java/com/ttaguchi/weddingtimeline/ui/login/LoginViewModel.kt:88-95`). Every `JoinError` shows its own message in the model.

The domain `TimeLinePost`, `TimelineFilter` and `AppUser` classes that `TimelineViewModel` and `Session` import are not part of this model. The shapes in `model/TimeLinePost.kt`, `model/TimelineFilter.kt` and `model/AppUser.kt` are used instead.

## Model

| member | source | states |
|---|---|---|
| Kotlin.Div | WeddingTimeline/app/src/main/java/com/ttaguchi/weddingtimeline/model/TimeLinePost.kt:31-34 | Kotlin `/` on a positive divisor truncates toward zero: the remainder takes the dividend's sign and is below the divisor in magnitude |
| Kotlin.Rem | WeddingTimeline/app/src/main/java/com/ttaguchi/weddingtimeline/ui/timeline/components/VideoPlayerScreen.kt:403 | Kotlin `%`: `a == Div(a, b) * b + r`, with `r` of the dividend's sign |
| Kotlin.ToInt32 | WeddingTimeline/app/src/main/java/com/ttaguchi/weddingtimeline/ui/timeline/components/VideoPlayerScreen.kt:401 | `toInt()` lands in the 32-bit range, agrees with the value modulo 2^32, and is the identity inside the range |
| Wrappers.MessageText | WeddingTimeline/app/src/main/java/com/ttaguchi/weddingtimeline/ui/timeline/TimelineViewModel.kt:100 | a string template renders a present message as itself and a null message as "null" |
| Text.Trim | WeddingTimeline/app/src/main/java/com/ttaguchi/weddingtimeline/data/RoomRepository.kt:79-81 | the result is no longer than the input, neither starts nor ends with whitespace, and is empty exactly when the input is blank (see `Text.TrimIsSlice`) |
| Text.IsBlank | WeddingTimeline/app/src/main/java/com/ttaguchi/weddingtimeline/ui/login/LoginViewModel.kt:53 | `isBlank()`: empty or whitespace only; see `Text.Trim`, empty exactly for a blank input |
| Text.TrimIsSlice | WeddingTimeline/app/src/main/java/com/ttaguchi/weddingtimeline/data/RoomRepository.kt:79-81 | the trimmed string is the slice of the input left after cutting a blank prefix and a blank suffix |
| Text.TrailingOfSuffix | WeddingTimeline/app/src/main/java/com/ttaguchi/weddingtimeline/data/RoomRepository.kt:79-81 | the trailing whitespace run of a suffix is a blank suffix of the whole string, preceded by a non-whitespace character unless it covers the suffix |
| Text.TrimCut | WeddingTimeline/app/src/main/java/com/ttaguchi/weddingtimeline/data/RoomRepository.kt:79-81 | cutting maximal whitespace runs off both ends leaves a string that neither starts nor ends with whitespace, and that is empty exactly when the whole string was blank |
| Text.TrimOfTrimmed | WeddingTimeline/app/src/main/java/com/ttaguchi/weddingtimeline/data/RoomRepository.kt:79-81 | a string with no whitespace at either end is its own trim |
| Text.TrimIdempotent | WeddingTimeline/app/src/main/java/com/ttaguchi/weddingtimeline/ui/login/LoginViewModel.kt:74-77 | trimming twice is trimming once, so the repository's re-trim of login's trimmed values changes nothing |
| Text.LeadingWhitespace | WeddingTimeline/app/src/main/java/com/ttaguchi/weddingtimeline/data/RoomRepository.kt:79-81 | the whitespace run that `trim()` removes at the front is all whitespace and is followed by a non-whitespace character or the end |
| Text.TrailingWhitespace | WeddingTimeline/app/src/main/java/com/ttaguchi/weddingtimeline/data/RoomRepository.kt:79-81 | the whitespace run that `trim()` removes at the back is all whitespace and is preceded by a non-whitespace character or the start |
| Text.LowerChar | WeddingTimeline/app/src/main/java/com/ttaguchi/weddingtimeline/data/RoomRepository.kt:113 | an ASCII capital maps to its small letter; every other character is unchanged |
| Text.Lowercase | WeddingTimeline/app/src/main/java/com/ttaguchi/weddingtimeline/data/RoomRepository.kt:113 | the lowercase has the same length, and maps exactly the letters A–Z to a–z |
| Text.DigitChar | WeddingTimeline/app/src/main/java/com/ttaguchi/weddingtimeline/model/TimeLinePost.kt:37-40 | a digit value 0..9 renders as the character with that value |
| Text.NatToString | WeddingTimeline/app/src/main/java/com/ttaguchi/weddingtimeline/model/TimeLinePost.kt:37-40 | the decimal rendering is non-empty digits without a leading zero (except "0") |
| Text.NatToStringValue | WeddingTimeline/app/src/main/java/com/ttaguchi/weddingtimeline/model/TimeLinePost.kt:37-40 | the rendered digits read back as the number |
| Text.NatToStringInjective | WeddingTimeline/app/src/main/java/com/ttaguchi/weddingtimeline/model/TimeLinePost.kt:37-40 | different numbers render differently |
| Text.IntToString | WeddingTimeline/app/src/main/java/com/ttaguchi/weddingtimeline/ui/timeline/components/VideoPlayerScreen.kt:405 | `%d`: a non-negative value renders as its digits; a negative one as "-" and the digits of its magnitude |
| Media.FromRawValue | WeddingTimeline/app/src/main/java/com/ttaguchi/weddingtimeline/model/MediaType.kt:11-13 | VIDEO exactly when the string equals "video" ignoring case, IMAGE otherwise (total, defaults to IMAGE) |
| Media.RawValuesDiffer | WeddingTimeline/app/src/main/java/com/ttaguchi/weddingtimeline/domain/model/MediaType.kt:7-8 | "image" and "video" differ even ignoring case |
| Media.FromRawValueRoundTrip | WeddingTimeline/app/src/main/java/com/ttaguchi/weddingtimeline/model/MediaType.kt:6-13 | decoding a type's raw value gives the type back |
| Media.FromRawValueIgnoresCase | WeddingTimeline/app/src/main/java/com/ttaguchi/weddingtimeline/domain/model/MediaType.kt:12 | decoding does not depend on letter case |
| Media.ToDomain | WeddingTimeline/app/src/main/java/com/ttaguchi/weddingtimeline/model/MediaDto.kt:33-47 | none exactly when `id` or `url` is empty; otherwise the type decoded by `fromRawValue` and every other field copied (the same code sits in `domain/model/MediaDto.kt:51-76`) |
| Media.ToDto | WeddingTimeline/app/src/main/java/com/ttaguchi/weddingtimeline/domain/model/MediaDto.kt:83-93 | the type written as its raw value and every other field copied |
| Media.RoundTrip | WeddingTimeline/app/src/main/java/com/ttaguchi/weddingtimeline/model/MediaDto.kt:33-64 | `toDto` then `toDomain` gives back any media with non-empty `id` and `url` |
| Media.DecodeNormalizesType | WeddingTimeline/app/src/main/java/com/ttaguchi/weddingtimeline/domain/model/MediaDto.kt:64 | re-encoding a decoded DTO changes only its type string, to the canonical raw value; a DTO that already has "image" or "video" comes back unchanged |
| Media.DtoFromFields | WeddingTimeline/app/src/main/java/com/ttaguchi/weddingtimeline/model/MediaDto.kt:8-28 | a Firestore map without the URL key decodes with an empty URL; the id field is taken when it is a string |
| Tags.FromRawValue | WeddingTimeline/app/src/main/java/com/ttaguchi/weddingtimeline/domain/model/PostTag.kt:11-13 | RECEPTION exactly for "reception"; anything else gives CEREMONY |
| Tags.FromRawValueRoundTrip | WeddingTimeline/app/src/main/java/com/ttaguchi/weddingtimeline/domain/model/PostTag.kt:6-13 | decoding a tag's raw value gives the tag back |
| Tags.RawValueInjective | WeddingTimeline/app/src/main/java/com/ttaguchi/weddingtimeline/domain/model/PostTag.kt:7-8 | the two raw values are distinct |
| Tags.FromRawValueIsCaseSensitive | WeddingTimeline/app/src/main/java/com/ttaguchi/weddingtimeline/domain/model/PostTag.kt:12 | "Reception" and "RECEPTION" decode to CEREMONY |
| Tags.DisplayNameInjective | WeddingTimeline/app/src/main/java/com/ttaguchi/weddingtimeline/domain/model/PostTag.kt:7-8 | the display names "挙式" and "披露宴" differ, so a label names one tag |
| Filters.FromPostTag | WeddingTimeline/app/src/main/java/com/ttaguchi/weddingtimeline/model/TimelineFilter.kt:12-17 | never ALL, and the filter matches exactly the tag it came from |
| Filters.Matches | WeddingTimeline/app/src/main/java/com/ttaguchi/weddingtimeline/ui/timeline/TimelineViewModel.kt:212-219 | whether a post's tag passes a filter; see `Filters.FromPostTag` and `Timeline.FilterPosts` |
| Filters.FromPostTagInjective | WeddingTimeline/app/src/main/java/com/ttaguchi/weddingtimeline/model/TimelineFilter.kt:12-17 | different tags give different filters |
| Filters.FromPostTagDisplayName | WeddingTimeline/app/src/main/java/com/ttaguchi/weddingtimeline/model/TimelineFilter.kt:6-17 | the filter made from a tag is labelled with the tag's own display name |
| Filters.DisplayNameInjective | WeddingTimeline/app/src/main/java/com/ttaguchi/weddingtimeline/model/TimelineFilter.kt:6-9 | the labels "すべて", "挙式" and "披露宴" are pairwise distinct |
| Posts.ChainedUnits | WeddingTimeline/app/src/main/java/com/ttaguchi/weddingtimeline/model/TimeLinePost.kt:30-34 | for non-negative differences the chained divisions are single divisions of the milliseconds |
| Posts.HasMedia | WeddingTimeline/app/src/main/java/com/ttaguchi/weddingtimeline/model/TimeLinePost.kt:26 | `hasMedia`: at least one attachment; stated for decoded posts by `PostDtos.DecodedHasMedia` |
| Posts.FormattedCreatedAt | WeddingTimeline/app/src/main/java/com/ttaguchi/weddingtimeline/model/TimeLinePost.kt:28-46 | the calendar date, carrying the creation time, exactly from one week (604 800 000 ms) after creation on; a relative label before that, including for creation times in the future |
| Posts.FormattedCreatedAtBuckets | WeddingTimeline/app/src/main/java/com/ttaguchi/weddingtimeline/model/TimeLinePost.kt:28-46 | under a minute "⟨s⟩秒前", under an hour "⟨m⟩分前", under a day "⟨h⟩時間前", under a week "⟨d⟩日前", otherwise the calendar date; the number shown lies in its bucket's range |
| Posts.FutureIsSeconds | WeddingTimeline/app/src/main/java/com/ttaguchi/weddingtimeline/model/TimeLinePost.kt:30-37 | a creation time after `now` is always shown in seconds, with a non-positive number |
| PostDtos.DecodeTag | WeddingTimeline/app/src/main/java/com/ttaguchi/weddingtimeline/model/TimeLinePostDto.kt:54-58 | RECEPTION exactly for "reception"; "ceremony", any other string or null give CEREMONY |
| PostDtos.DecodeMedia | WeddingTimeline/app/src/main/java/com/ttaguchi/weddingtimeline/model/TimeLinePostDto.kt:60 | no longer than the input, every kept entry decodes from an input entry, and nothing is dropped when all entries are valid |
| PostDtos.DecodeMediaAppend | WeddingTimeline/app/src/main/java/com/ttaguchi/weddingtimeline/model/TimeLinePostDto.kt:60 | dropping invalid entries distributes over concatenation, so the survivors keep their order |
| PostDtos.EncodeMedia | WeddingTimeline/app/src/main/java/com/ttaguchi/weddingtimeline/model/MediaDto.kt:54-64 | the encoded list is the pointwise `toDto` |
| PostDtos.MediaListRoundTrip | WeddingTimeline/app/src/main/java/com/ttaguchi/weddingtimeline/model/TimeLinePostDto.kt:60 | a list of media with non-empty ids and URLs survives encoding and decoding |
| PostDtos.ToDomain | WeddingTimeline/app/src/main/java/com/ttaguchi/weddingtimeline/model/TimeLinePostDto.kt:49-77 | none exactly when `id` is null or `authorId` is empty; otherwise the ids, content, counts, room id and liked flag are passed through, a null `likeCount` becomes 0, a null `userIcon` becomes "", a missing `createdAt` becomes `now`, and the tag and media are decoded |
| PostDtos.DecodeMediaEmpty | WeddingTimeline/app/src/main/java/com/ttaguchi/weddingtimeline/model/TimeLinePostDto.kt:60 | the decoded list is empty exactly when no stored entry decodes |
| PostDtos.DecodedHasMedia | WeddingTimeline/app/src/main/java/com/ttaguchi/weddingtimeline/model/TimeLinePost.kt:26 | a decoded post has media (`hasMedia`) exactly when at least one stored attachment decodes |
| Feed.IdsAppend | WeddingTimeline/app/src/main/java/com/ttaguchi/weddingtimeline/ui/timeline/TimelineViewModel.kt:83 | the ids of a concatenation are the union of the ids |
| Feed.IdsCons | WeddingTimeline/app/src/main/java/com/ttaguchi/weddingtimeline/ui/timeline/TimelineViewModel.kt:177 | the ids of a list with a post in front are that id plus the rest's |
| Feed.Dedup | WeddingTimeline/app/src/main/java/com/ttaguchi/weddingtimeline/ui/timeline/TimelineViewModel.kt:83 | keeping first occurrences of ids not yet seen yields unique ids, exactly the unseen ids, and only posts of the input |
| Feed.DistinctById | WeddingTimeline/app/src/main/java/com/ttaguchi/weddingtimeline/ui/timeline/TimelineViewModel.kt:83 | `distinctBy { it.id }` has unique ids, the same id set as its input, and only input posts |
| Feed.DedupAppend | WeddingTimeline/app/src/main/java/com/ttaguchi/weddingtimeline/ui/timeline/TimelineViewModel.kt:83 | deduplicating a concatenation deduplicates the first part, then the second against the first part's ids |
| Feed.DedupOfUnique | WeddingTimeline/app/src/main/java/com/ttaguchi/weddingtimeline/ui/timeline/TimelineViewModel.kt:194 | a list with unique ids, none seen, is left as is |
| Feed.DedupAllSeen | WeddingTimeline/app/src/main/java/com/ttaguchi/weddingtimeline/ui/timeline/TimelineViewModel.kt:177 | a list whose ids were all seen disappears |
| Feed.DistinctOfUnique | WeddingTimeline/app/src/main/java/com/ttaguchi/weddingtimeline/ui/timeline/TimelineViewModel.kt:83 | `distinctBy` leaves a list with unique ids unchanged |
| Feed.DistinctAppend | WeddingTimeline/app/src/main/java/com/ttaguchi/weddingtimeline/ui/timeline/TimelineViewModel.kt:83 | `distinctBy(a + b)` is `distinctBy(a)` followed by the posts of `b` with new ids |
| Feed.DistinctAbsorbs | WeddingTimeline/app/src/main/java/com/ttaguchi/weddingtimeline/ui/timeline/TimelineViewModel.kt:182 | putting the same posts in front again does not change a deduplicated list |
| Feed.NewPosts | WeddingTimeline/app/src/main/java/com/ttaguchi/weddingtimeline/ui/timeline/TimelineViewModel.kt:168 | exactly the posts of the batch whose ids are not on screen, in batch order (see `Feed.NewPostsAppend`) |
| Feed.NewPostsAppend | WeddingTimeline/app/src/main/java/com/ttaguchi/weddingtimeline/ui/timeline/TimelineViewModel.kt:168 | filtering distributes over concatenation, so the new posts keep the order they have in the batch |
| Feed.NoNewPosts | WeddingTimeline/app/src/main/java/com/ttaguchi/weddingtimeline/ui/timeline/TimelineViewModel.kt:168-170 | a batch of known ids has no new posts |
| Feed.NewPostsUnique | WeddingTimeline/app/src/main/java/com/ttaguchi/weddingtimeline/ui/timeline/TimelineViewModel.kt:168 | the new posts of a batch with unique ids have unique ids |
| PostRepository.MapDoc | WeddingTimeline/app/src/main/java/com/ttaguchi/weddingtimeline/data/PostRepository.kt:334-358 | a post exactly when the document decodes and has an author; its id is the DTO's id or else the document id; the liked flag and room id are the given ones |
| PostRepository.MakePosts | WeddingTimeline/app/src/main/java/com/ttaguchi/weddingtimeline/data/PostRepository.kt:360-369 | no more posts than documents, each from one of the documents with its liked flag taken from the liked set |
| PostRepository.MakePostsAppend | WeddingTimeline/app/src/main/java/com/ttaguchi/weddingtimeline/data/PostRepository.kt:363-365 | `mapNotNull` distributes over concatenation, so order is preserved |
| PostRepository.MakePostsDropsUndecodable | WeddingTimeline/app/src/main/java/com/ttaguchi/weddingtimeline/data/PostRepository.kt:363-365 | a document without data or without an author contributes nothing |
| PostRepository.MakePostsKeepsDecodable | WeddingTimeline/app/src/main/java/com/ttaguchi/weddingtimeline/data/PostRepository.kt:363-365 | when every document decodes, every document gives a post |
| PostRepository.MakePostsLiked | WeddingTimeline/app/src/main/java/com/ttaguchi/weddingtimeline/data/PostRepository.kt:364 | each post is liked exactly when its id is in the liked set |
| PostRepository.LikedSet | WeddingTimeline/app/src/main/java/com/ttaguchi/weddingtimeline/data/PostRepository.kt:150-164 | empty without a user or when the mirror read fails, else the mirror's ids |
| PostRepository.FetchPostsFrom | WeddingTimeline/app/src/main/java/com/ttaguchi/weddingtimeline/data/PostRepository.kt:141-175 | an empty page gives no posts and no cursor; otherwise the cursor is the last document and the posts are `makePosts` of the page |
| PostRepository.ToggleLikeTxn | WeddingTimeline/app/src/main/java/com/ttaguchi/weddingtimeline/data/PostRepository.kt:264-306 | fails with "Post does not exist" exactly when the post is missing; the count returned is a 32-bit value; an unlike either writes nothing or leaves a non-negative count |
| PostRepository.MaxOf | WeddingTimeline/app/src/main/java/com/ttaguchi/weddingtimeline/data/PostRepository.kt:300 | `maxOf` is an upper bound of both arguments and equal to one of them |
| PostRepository.LikeIncrements | WeddingTimeline/app/src/main/java/com/ttaguchi/weddingtimeline/data/PostRepository.kt:281-295 | liking without a like document creates the like and mirror documents and stores the count plus one |
| PostRepository.LikeWhenLikedChangesNothing | WeddingTimeline/app/src/main/java/com/ttaguchi/weddingtimeline/data/PostRepository.kt:281-282 | liking with a like document writes nothing and returns the stored count |
| PostRepository.UnlikeDecrements | WeddingTimeline/app/src/main/java/com/ttaguchi/weddingtimeline/data/PostRepository.kt:296-302 | unliking with a like document deletes both documents and stores `max(0, count - 1)` |
| PostRepository.UnlikeWhenNotLikedChangesNothing | WeddingTimeline/app/src/main/java/com/ttaguchi/weddingtimeline/data/PostRepository.kt:296-297 | unliking without a like document writes nothing |
| PostRepository.ToggleLikeOutcome | WeddingTimeline/app/src/main/java/com/ttaguchi/weddingtimeline/data/PostRepository.kt:279-305 | afterwards the like document exists exactly when the new state is liked, the mirror agrees with it if the two agreed before, and the value returned is the stored count |
| PostRepository.ToggleLikeIdempotent | WeddingTimeline/app/src/main/java/com/ttaguchi/weddingtimeline/data/PostRepository.kt:279-305 | applying the same desired state twice gives the same documents and count as once |
| PostRepository.LikeReadFailureCountsTwice | WeddingTimeline/app/src/main/java/com/ttaguchi/weddingtimeline/data/PostRepository.kt:274-279 | a like-document read that throws counts as "no like", so liking an already-liked post counts it again |
| PostRepository.LikeDocuments.constructor | WeddingTimeline/app/src/main/java/com/ttaguchi/weddingtimeline/data/PostRepository.kt:258-263 | the transaction's documents start as given |
| PostRepository.LikeDocuments.ToggleLike | WeddingTimeline/app/src/main/java/com/ttaguchi/weddingtimeline/data/PostRepository.kt:264-306 | the documents change exactly as the transaction body says, and are untouched when it throws |
| PostRepository.NonNull | WeddingTimeline/app/src/main/java/com/ttaguchi/weddingtimeline/data/PostRepository.kt:86 | `filterValues { it != null }` keeps exactly the present entries, with their values |
| PostRepository.MediaItemPayload | WeddingTimeline/app/src/main/java/com/ttaguchi/weddingtimeline/data/PostRepository.kt:72-87 | each attachment map holds `id`, `type` (raw value) and `mediaUrl`, and holds `width`, `height`, `duration` and `storagePath` exactly when present, never a null |
| PostRepository.MediaPayloads | WeddingTimeline/app/src/main/java/com/ttaguchi/weddingtimeline/data/PostRepository.kt:72-87 | one attachment map per attachment, in the attachments' order |
| PostRepository.CreatePost | WeddingTimeline/app/src/main/java/com/ttaguchi/weddingtimeline/data/PostRepository.kt:62-106 | rejected with "ルーム情報が取得できませんでした" exactly when the room id is blank; otherwise the trimmed room id and content, counters at 0, a tag that decodes back, and one attachment map per attachment |
| PostRepository.StoredMediaDroppedOnRead | WeddingTimeline/app/src/main/java/com/ttaguchi/weddingtimeline/data/PostRepository.kt:76 | an attachment stored by `createPost`, read back through `model.MediaDto`, decodes to nothing |
| PostRepository.StoredMediaRoundTrip | WeddingTimeline/app/src/main/java/com/ttaguchi/weddingtimeline/domain/model/MediaDto.kt:15-18 | read back under the key it was stored under, an attachment with non-empty id and URL decodes to itself |
| Timeline.Initial | WeddingTimeline/app/src/main/java/com/ttaguchi/weddingtimeline/ui/timeline/TimelineViewModel.kt:22-46 | the initial state is valid, empty, at the top, showing ALL |
| Timeline.StartFetch | WeddingTimeline/app/src/main/java/com/ttaguchi/weddingtimeline/ui/timeline/TimelineViewModel.kt:54-69 | no change while loading; otherwise loading with the error cleared, and the cursor dropped on reset |
| Timeline.FetchCursor | WeddingTimeline/app/src/main/java/com/ttaguchi/weddingtimeline/ui/timeline/TimelineViewModel.kt:64-69 | a reset fetch starts from the beginning, any other after the saved cursor |
| Timeline.MergePage | WeddingTimeline/app/src/main/java/com/ttaguchi/weddingtimeline/ui/timeline/TimelineViewModel.kt:80-84 | a reset shows the page; otherwise the ids are the union of both, each once |
| Timeline.CompleteFetch | WeddingTimeline/app/src/main/java/com/ttaguchi/weddingtimeline/ui/timeline/TimelineViewModel.kt:79-103 | on success the merged list, the new cursor and the room are recorded and the error is cleared; on failure list, cursor and room stay and the error reads "投稿の取得に失敗しました: " and the message; the loading flag drops; the buffer, badge, position and every other UI field never change |
| Timeline.StartRefresh | WeddingTimeline/app/src/main/java/com/ttaguchi/weddingtimeline/ui/timeline/TimelineViewModel.kt:136 | only `isRefreshing` is set and the error cleared |
| Timeline.CompleteRefresh | WeddingTimeline/app/src/main/java/com/ttaguchi/weddingtimeline/ui/timeline/TimelineViewModel.kt:142-161 | on success the page replaces the list, the cursor is recorded and the buffer and badge are emptied; on failure list, buffer, badge and cursor stay and the error reads "更新に失敗しました: " and the message; the refreshing flag drops; room, position, loading flag and every other UI field never change |
| Timeline.MergeLiveBatch | WeddingTimeline/app/src/main/java/com/ttaguchi/weddingtimeline/ui/timeline/TimelineViewModel.kt:166-185 | a batch with no unseen ids changes nothing; at the top the list becomes the new posts in batch order followed by the shown posts, first occurrence per id kept, and the buffer stays; scrolled away the list stays, the buffer becomes the new posts followed by the old buffer, deduplicated, and the badge is its size; position, cursor, room and every other UI field never change |
| Timeline.ShowListenerError | WeddingTimeline/app/src/main/java/com/ttaguchi/weddingtimeline/ui/timeline/TimelineViewModel.kt:116-120 | only the error changes, to "リアルタイム更新エラー: " and the message |
| Timeline.Reveal | WeddingTimeline/app/src/main/java/com/ttaguchi/weddingtimeline/ui/timeline/TimelineViewModel.kt:187-198 | no-op on an empty buffer; otherwise the list becomes the buffer followed by the shown posts, first occurrence per id kept (so exactly the buffered and shown ids, once each), and buffer and badge become empty; position, cursor, room and every other UI field never change |
| Timeline.ChangePosition | WeddingTimeline/app/src/main/java/com/ttaguchi/weddingtimeline/ui/timeline/TimelineViewModel.kt:200-205 | records the position; arriving at the top is exactly `Reveal` of the state marked at the top, so the buffer ends empty; leaving it changes nothing else |
| Timeline.SelectFilter | WeddingTimeline/app/src/main/java/com/ttaguchi/weddingtimeline/ui/timeline/TimelineViewModel.kt:207-210 | only the selected filter changes |
| Timeline.FilterPosts | WeddingTimeline/app/src/main/java/com/ttaguchi/weddingtimeline/ui/timeline/TimelineViewModel.kt:212-219 | exactly the posts whose tag the filter matches; all posts for ALL |
| Timeline.FilterPostsAppend | WeddingTimeline/app/src/main/java/com/ttaguchi/weddingtimeline/ui/timeline/TimelineViewModel.kt:216-217 | filtering distributes over concatenation, so the original order is kept |
| Timeline.ApplyLike | WeddingTimeline/app/src/main/java/com/ttaguchi/weddingtimeline/ui/timeline/TimelineViewModel.kt:236-243 | same length and ids; posts with the id get the new like state and count, all others are unchanged |
| Timeline.ApplyToggleLike | WeddingTimeline/app/src/main/java/com/ttaguchi/weddingtimeline/ui/timeline/TimelineViewModel.kt:221-251 | no change without a user or on failure; on success the posts with the id get the opposite of the passed post's like state and the server's count |
| Timeline.StepKeepsValid | WeddingTimeline/app/src/main/java/com/ttaguchi/weddingtimeline/ui/timeline/TimelineViewModel.kt:146-152 | every operation keeps the badge equal to the buffer size and the buffer empty at the top |
| Timeline.RunKeepsValid | WeddingTimeline/app/src/main/java/com/ttaguchi/weddingtimeline/ui/timeline/TimelineViewModel.kt:174-205 | any sequence of operations from a valid state keeps it valid |
| Timeline.ReachableIsValid | WeddingTimeline/app/src/main/java/com/ttaguchi/weddingtimeline/ui/timeline/TimelineViewModel.kt:44-45 | every state reachable from the initial one is valid |
| Timeline.StepKeepsUnique | WeddingTimeline/app/src/main/java/com/ttaguchi/weddingtimeline/ui/timeline/TimelineViewModel.kt:79-219 | every operation keeps ids unique in the list and in the buffer, provided a page that replaces the list (a reset fetch or a refreshed head) has no repeated id |
| Timeline.RunKeepsUnique | WeddingTimeline/app/src/main/java/com/ttaguchi/weddingtimeline/ui/timeline/TimelineViewModel.kt:79-219 | any sequence of such operations keeps ids unique in the list and in the buffer |
| Timeline.ReachableHasUniqueIds | WeddingTimeline/app/src/main/java/com/ttaguchi/weddingtimeline/ui/timeline/TimelineViewModel.kt:44-45 | from a new view model, the list and the buffer hold each id at most once whatever follows, so the uniqueness that `LiveBatchAtTop`, `RevealPutsPendingFirst` and `FetchKeepsPrefix` assume holds in every reachable state |
| Timeline.KnownBatchChangesNothing | WeddingTimeline/app/src/main/java/com/ttaguchi/weddingtimeline/ui/timeline/TimelineViewModel.kt:167-170 | a batch whose ids are all on screen changes nothing |
| Timeline.LiveBatchIdempotent | WeddingTimeline/app/src/main/java/com/ttaguchi/weddingtimeline/ui/timeline/TimelineViewModel.kt:177-183 | delivering the same batch twice is delivering it once |
| Timeline.LiveBatchAtTop | WeddingTimeline/app/src/main/java/com/ttaguchi/weddingtimeline/ui/timeline/TimelineViewModel.kt:174-179 | at the top, the new posts in batch order are put in front of the old list, which keeps its order |
| Timeline.RevealPutsPendingFirst | WeddingTimeline/app/src/main/java/com/ttaguchi/weddingtimeline/ui/timeline/TimelineViewModel.kt:193-196 | revealing puts the buffer first, followed by the shown posts not in it |
| Timeline.FetchKeepsPrefix | WeddingTimeline/app/src/main/java/com/ttaguchi/weddingtimeline/ui/timeline/TimelineViewModel.kt:83 | a next page keeps the old list as a prefix and appends only posts with new ids |
| Timeline.LikeKeepsOtherPosts | WeddingTimeline/app/src/main/java/com/ttaguchi/weddingtimeline/ui/timeline/TimelineViewModel.kt:235-243 | a successful toggle keeps length, ids, tags, buffer and badge |
| Timeline.TimelineViewModel.constructor | WeddingTimeline/app/src/main/java/com/ttaguchi/weddingtimeline/ui/timeline/TimelineViewModel.kt:39-46 | starts in the initial state |
| Timeline.TimelineViewModel.FetchPosts | WeddingTimeline/app/src/main/java/com/ttaguchi/weddingtimeline/ui/timeline/TimelineViewModel.kt:51-69 | launches exactly when not loading, with the cursor the page starts after, and moves to `StartFetch` |
| Timeline.TimelineViewModel.CompleteFetchPosts | WeddingTimeline/app/src/main/java/com/ttaguchi/weddingtimeline/ui/timeline/TimelineViewModel.kt:79-103 | moves to `CompleteFetch` of the outcome |
| Timeline.TimelineViewModel.RefreshHead | WeddingTimeline/app/src/main/java/com/ttaguchi/weddingtimeline/ui/timeline/TimelineViewModel.kt:131-136 | moves to `StartRefresh` |
| Timeline.TimelineViewModel.CompleteRefreshHead | WeddingTimeline/app/src/main/java/com/ttaguchi/weddingtimeline/ui/timeline/TimelineViewModel.kt:138-162 | moves to `CompleteRefresh` of the outcome |
| Timeline.TimelineViewModel.HandleNewPosts | WeddingTimeline/app/src/main/java/com/ttaguchi/weddingtimeline/ui/timeline/TimelineViewModel.kt:166-185 | moves to `MergeLiveBatch` of the batch |
| Timeline.TimelineViewModel.OnListenerError | WeddingTimeline/app/src/main/java/com/ttaguchi/weddingtimeline/ui/timeline/TimelineViewModel.kt:116-120 | moves to `ShowListenerError` |
| Timeline.TimelineViewModel.RevealPending | WeddingTimeline/app/src/main/java/com/ttaguchi/weddingtimeline/ui/timeline/TimelineViewModel.kt:187-198 | moves to `Reveal` |
| Timeline.TimelineViewModel.MarkAtTop | WeddingTimeline/app/src/main/java/com/ttaguchi/weddingtimeline/ui/timeline/TimelineViewModel.kt:200-205 | the new state is `ChangePosition` of the old one: at the top the buffered posts are revealed |
| Timeline.TimelineViewModel.SetFilter | WeddingTimeline/app/src/main/java/com/ttaguchi/weddingtimeline/ui/timeline/TimelineViewModel.kt:207-210 | moves to `SelectFilter` |
| Timeline.TimelineViewModel.GetFilteredPosts | WeddingTimeline/app/src/main/java/com/ttaguchi/weddingtimeline/ui/timeline/TimelineViewModel.kt:212-219 | all posts for ALL, else exactly the posts with the selected tag; the result is `FilterPosts` of the list, so it keeps list order and multiplicity (`FilterPostsAppend`) |
| Timeline.TimelineViewModel.ToggleLike | WeddingTimeline/app/src/main/java/com/ttaguchi/weddingtimeline/ui/timeline/TimelineViewModel.kt:221-251 | moves to `ApplyToggleLike` of the outcome |
| BestPosts.Insert | WeddingTimeline/app/src/main/java/com/ttaguchi/weddingtimeline/ui/bestpost/BestPostViewModel.kt:52 | inserting adds exactly the post (as a multiset) and puts it first or keeps the old head first |
| BestPosts.InsertDescending | WeddingTimeline/app/src/main/java/com/ttaguchi/weddingtimeline/ui/bestpost/BestPostViewModel.kt:52 | inserting into a list in non-increasing like order keeps that order |
| BestPosts.SortByLikes | WeddingTimeline/app/src/main/java/com/ttaguchi/weddingtimeline/ui/bestpost/BestPostViewModel.kt:51-52 | `sortedByDescending { it.likeCount }` is a permutation in non-increasing like order |
| BestPosts.WithLikes | WeddingTimeline/app/src/main/java/com/ttaguchi/weddingtimeline/ui/bestpost/BestPostViewModel.kt:52 | the posts with a given like count form a sub-list no longer than the list |
| BestPosts.InsertWithLikes | WeddingTimeline/app/src/main/java/com/ttaguchi/weddingtimeline/ui/bestpost/BestPostViewModel.kt:52 | insertion puts the new post before the old posts with its like count |
| BestPosts.SortIsStable | WeddingTimeline/app/src/main/java/com/ttaguchi/weddingtimeline/ui/bestpost/BestPostViewModel.kt:52 | for each like count, the posts with it keep their fetch order |
| BestPosts.WithLikesOfPrefix | WeddingTimeline/app/src/main/java/com/ttaguchi/weddingtimeline/ui/bestpost/BestPostViewModel.kt:53 | the tied posts of a prefix are a prefix of the tied posts |
| BestPosts.TopThree | WeddingTimeline/app/src/main/java/com/ttaguchi/weddingtimeline/ui/bestpost/BestPostViewModel.kt:51-53 | at most three posts (fewer only when fewer were fetched), in non-increasing like order, all from the page |
| BestPosts.DescendingSplit | WeddingTimeline/app/src/main/java/com/ttaguchi/weddingtimeline/ui/bestpost/BestPostViewModel.kt:52-53 | in a descending list nothing after a cut has more likes than anything before it |
| BestPosts.TopThreeDominates | WeddingTimeline/app/src/main/java/com/ttaguchi/weddingtimeline/ui/bestpost/BestPostViewModel.kt:51-53 | no excluded post has more likes than a displayed one |
| BestPosts.TopThreeKeepsTies | WeddingTimeline/app/src/main/java/com/ttaguchi/weddingtimeline/ui/bestpost/BestPostViewModel.kt:52-53 | displayed posts with equal likes appear in their fetch order |
| BestPosts.Bump | WeddingTimeline/app/src/main/java/com/ttaguchi/weddingtimeline/ui/bestpost/BestPostViewModel.kt:115-129 | posts with the id get the opposite of the passed post's like state and a count one lower or higher (Int arithmetic); others and all ids stay |
| BestPosts.ToggledRanking | WeddingTimeline/app/src/main/java/com/ttaguchi/weddingtimeline/ui/bestpost/BestPostViewModel.kt:115-130 | the list after a toggle is in non-increasing like order |
| BestPosts.ToggledRankingPermutes | WeddingTimeline/app/src/main/java/com/ttaguchi/weddingtimeline/ui/bestpost/BestPostViewModel.kt:115-132 | the toggled list is a permutation of the adjusted one, of the same length and ids, with the count moved by exactly one |
| BestPosts.BestPostViewModel.constructor | WeddingTimeline/app/src/main/java/com/ttaguchi/weddingtimeline/ui/bestpost/BestPostViewModel.kt:16-31 | starts empty, not loading, without error |
| BestPosts.BestPostViewModel.FetchBestPosts | WeddingTimeline/app/src/main/java/com/ttaguchi/weddingtimeline/ui/bestpost/BestPostViewModel.kt:37-42 | a no-op while loading; otherwise loading starts and the error is cleared |
| BestPosts.BestPostViewModel.CompleteFetchBestPosts | WeddingTimeline/app/src/main/java/com/ttaguchi/weddingtimeline/ui/bestpost/BestPostViewModel.kt:44-67 | success shows the top three of the page; failure keeps the posts and shows "投稿の取得に失敗しました: " and the message |
| BestPosts.BestPostViewModel.RefreshBestPosts | WeddingTimeline/app/src/main/java/com/ttaguchi/weddingtimeline/ui/bestpost/BestPostViewModel.kt:74-77 | sets refreshing and clears the error, with no loading guard |
| BestPosts.BestPostViewModel.CompleteRefreshBestPosts | WeddingTimeline/app/src/main/java/com/ttaguchi/weddingtimeline/ui/bestpost/BestPostViewModel.kt:79-101 | success shows the top three; failure keeps the posts and shows "更新に失敗しました: " and the message |
| BestPosts.BestPostViewModel.ToggleLike | WeddingTimeline/app/src/main/java/com/ttaguchi/weddingtimeline/ui/bestpost/BestPostViewModel.kt:105-136 | no change without a user or on failure; otherwise the re-sorted ±1 list |
| Sessions.DefaultMember | WeddingTimeline/app/src/main/java/com/ttaguchi/weddingtimeline/domain/model/RoomMember.kt:8-18 | a member built with defaults has role "member", is not banned and is not muted |
| Sessions.IsOwner | WeddingTimeline/app/src/main/java/com/ttaguchi/weddingtimeline/domain/model/RoomMember.kt:19-20 | `isOwner`: role "owner"; see `Sessions.RolesExclusive` |
| Sessions.IsAdmin | WeddingTimeline/app/src/main/java/com/ttaguchi/weddingtimeline/domain/model/RoomMember.kt:22-23 | `isAdmin`: role "admin"; see `Sessions.RolesExclusive` |
| Sessions.IsMember | WeddingTimeline/app/src/main/java/com/ttaguchi/weddingtimeline/domain/model/RoomMember.kt:25-26 | `isMember`: role "member"; see `Sessions.RolesExclusive` and `Sessions.DefaultIsMember` |
| Sessions.IsMuted | WeddingTimeline/app/src/main/java/com/ttaguchi/weddingtimeline/domain/model/RoomMember.kt:28-29 | `isMuted` at time `now`; see `Sessions.MuteExpires` |
| Sessions.IsLoggedIn | WeddingTimeline/app/src/main/java/com/ttaguchi/weddingtimeline/domain/model/Session.kt:15-16 | `isLoggedIn`: a non-empty uid; see `Sessions.Empty` |
| Sessions.HasJoinedRoom | WeddingTimeline/app/src/main/java/com/ttaguchi/weddingtimeline/domain/model/Session.kt:21-22 | `hasJoinedRoom`: room id and member both present; see `Sessions.Empty` |
| Sessions.RolesExclusive | WeddingTimeline/app/src/main/java/com/ttaguchi/weddingtimeline/domain/model/RoomMember.kt:19-26 | `isOwner`, `isAdmin` and `isMember` compare the role with "owner", "admin" and "member": at most one of them holds |
| Sessions.DefaultIsMember | WeddingTimeline/app/src/main/java/com/ttaguchi/weddingtimeline/domain/model/RoomMember.kt:13 | a default member is a member, not an owner or admin |
| Sessions.MuteExpires | WeddingTimeline/app/src/main/java/com/ttaguchi/weddingtimeline/domain/model/RoomMember.kt:28-29 | `isMuted`: no mute without `mutedUntil`; otherwise muted exactly while `now` is before it, so a mute only expires as time passes |
| Sessions.DisplayName | WeddingTimeline/app/src/main/java/com/ttaguchi/weddingtimeline/domain/model/Session.kt:27-28 | the user's name, else the member's username, else "ゲスト" |
| Sessions.DisplayIcon | WeddingTimeline/app/src/main/java/com/ttaguchi/weddingtimeline/domain/model/Session.kt:33-34 | the user's icon, else the member's icon, else "👤" |
| Sessions.Empty | WeddingTimeline/app/src/main/java/com/ttaguchi/weddingtimeline/domain/model/Session.kt:15-45 | the empty session (empty uid, no room, no member) is neither logged in (`isLoggedIn`) nor in a room (`hasJoinedRoom`), and shows the guest name and icon |
| Avatars.AvatarResId | WeddingTimeline/app/src/main/java/com/ttaguchi/weddingtimeline/ui/common/AvatarResources.kt:8-18 | a drawable exactly for one of the six names, the one with that name; null or any other name gives none |
| Avatars.AvatarNameRoundTrip | WeddingTimeline/app/src/main/java/com/ttaguchi/weddingtimeline/ui/common/AvatarResources.kt:9-16 | each of the six names maps to its own drawable |
| Avatars.NamesDistinct | WeddingTimeline/app/src/main/java/com/ttaguchi/weddingtimeline/ui/common/AvatarResources.kt:10-15 | the six names are distinct |
| Avatars.ResolveAvatarResId | WeddingTimeline/app/src/main/java/com/ttaguchi/weddingtimeline/ui/common/AvatarResources.kt:20 | the drawable of a known name, the lesser panda otherwise |
| Avatars.ResolveKnownName | WeddingTimeline/app/src/main/java/com/ttaguchi/weddingtimeline/ui/common/AvatarResources.kt:20 | resolving agrees with `avatarResId` on every known name; null resolves to the lesser panda |
| VideoTime.Pad2 | WeddingTimeline/app/src/main/java/com/ttaguchi/weddingtimeline/ui/timeline/components/VideoPlayerScreen.kt:405 | `%02d`: a digit gets a leading zero, anything else is printed as `%d` |
| VideoTime.FormatTime | WeddingTimeline/app/src/main/java/com/ttaguchi/weddingtimeline/ui/timeline/components/VideoPlayerScreen.kt:398-406 | "0:00" up to 0; below 2^31 seconds the whole minutes, ":" and the seconds in `%02d` |
| VideoTime.Pad2TwoDigits | WeddingTimeline/app/src/main/java/com/ttaguchi/weddingtimeline/ui/timeline/components/VideoPlayerScreen.kt:403-405 | seconds 0..59 print as exactly two digits that read back as the number |
| VideoTime.FormatTimeReadsBack | WeddingTimeline/app/src/main/java/com/ttaguchi/weddingtimeline/ui/timeline/components/VideoPlayerScreen.kt:398-406 | below 2^31 seconds, the label is the unpadded, uncapped minutes, ":" and two digits, reading back as the whole seconds |
| VideoTime.FormatTimeNotStarted | WeddingTimeline/app/src/main/java/com/ttaguchi/weddingtimeline/ui/timeline/components/VideoPlayerScreen.kt:399 | a non-positive position shows "0:00" |
| VideoTime.FormatTimeWraps | WeddingTimeline/app/src/main/java/com/ttaguchi/weddingtimeline/ui/timeline/components/VideoPlayerScreen.kt:401 | from 2^31 seconds on, `toInt()` wraps and the label starts with "-" |
| VideoTime.ClampDuration | WeddingTimeline/app/src/main/java/com/ttaguchi/weddingtimeline/ui/timeline/components/VideoPlayerScreen.kt:137-138 | the kept duration is never negative: a positive duration is kept, anything else becomes 0 |
| Rooms.MapJoinError | WeddingTimeline/app/src/main/java/com/ttaguchi/weddingtimeline/data/RoomRepository.kt:170-206 | always a `JoinError.Message`; PERMISSION_DENIED, NOT_FOUND, DEADLINE_EXCEEDED, UNAVAILABLE and CANCELLED get their own messages, unlisted Firestore codes and non-Firebase, non-I/O failures the generic join message; the Auth network and throttling codes get their own messages, other Auth codes the sign-in message; I/O the network message |
| Rooms.GenericJoinMessage | WeddingTimeline/app/src/main/java/com/ttaguchi/weddingtimeline/data/RoomRepository.kt:184-205 | the generic join message is given exactly to unlisted Firestore codes and to failures that are neither Firestore, Auth nor I/O |
| Rooms.ExplainedCodesDistinct | WeddingTimeline/app/src/main/java/com/ttaguchi/weddingtimeline/data/RoomRepository.kt:173-183 | the five listed Firestore codes have five different messages |
| Rooms.SignedInUid | WeddingTimeline/app/src/main/java/com/ttaguchi/weddingtimeline/data/RoomRepository.kt:48-56 | a uid exactly when sign-in yields a user; every failure, including a missing user, becomes a mapped `Message` |
| Rooms.JoinRoom | WeddingTimeline/app/src/main/java/com/ttaguchi/weddingtimeline/data/RoomRepository.kt:73-168 | succeeds exactly when the inputs are valid, sign-in yields a uid, the membership read succeeds, the member is not flagged banned and the commit succeeds; rejects, in order, a blank room id, key or name and then an empty icon; a failed sign-in, a missing user, a failed membership read and a failed commit (for instance the rules refusing a wrong key with PERMISSION_DENIED) each fail with `MapJoinError` of that failure; fails only with `Message`, `IconNotSelected` or `Banned` (the latter only for a member flagged banned); success writes to the trimmed room under the signed-in uid, a new document exactly when the member did not exist, with the trimmed name |
| Rooms.ValidationPrecedesNetwork | WeddingTimeline/app/src/main/java/com/ttaguchi/weddingtimeline/data/RoomRepository.kt:83-97 | invalid input fails whatever Firebase would answer |
| Rooms.BannedMemberRejected | WeddingTimeline/app/src/main/java/com/ttaguchi/weddingtimeline/data/RoomRepository.kt:116-123 | an existing member flagged banned gets `Banned` |
| Rooms.BanCheckFailureIgnored | WeddingTimeline/app/src/main/java/com/ttaguchi/weddingtimeline/data/RoomRepository.kt:117-127 | a failed ban check, or a missing flag, is treated as not banned |
| Rooms.NewMemberDocument | WeddingTimeline/app/src/main/java/com/ttaguchi/weddingtimeline/data/RoomRepository.kt:142-157 | a first join writes the trimmed name, its lowercase, role "member", not banned, no mute, the trimmed key and the icon |
| Rooms.ReturningMemberDocument | WeddingTimeline/app/src/main/java/com/ttaguchi/weddingtimeline/data/RoomRepository.kt:134-141 | a returning member's join merges only the trimmed name and the icon |
| Rooms.MissingUserGenericMessage | WeddingTimeline/app/src/main/java/com/ttaguchi/weddingtimeline/data/RoomRepository.kt:55 | a sign-in without a user is reported with the generic join message |
| Rooms.ChangeUsername | WeddingTimeline/app/src/main/java/com/ttaguchi/weddingtimeline/data/RoomRepository.kt:211-240 | `NotSignedIn` without a user, then an `IllegalArgumentException` for a blank name; success renames under the trimmed room id; a failed commit fails, as a `JoinError` exactly when it was a Firestore failure |
| Rooms.RenameFirestoreErrors | WeddingTimeline/app/src/main/java/com/ttaguchi/weddingtimeline/data/RoomRepository.kt:233-239 | a denied rename is `UsernameTaken`, any other Firestore failure `Unknown` |
| Rooms.RenameOtherErrorsPropagate | WeddingTimeline/app/src/main/java/com/ttaguchi/weddingtimeline/data/RoomRepository.kt:223-239 | a failure that is not from Firestore reaches the caller unchanged |
| Rooms.FetchRoomUser | WeddingTimeline/app/src/main/java/com/ttaguchi/weddingtimeline/data/RoomRepository.kt:357-374 | read failures are rethrown; a result exactly when the document exists with a non-empty username, and then it is the username and icon |
| Login.Validate | WeddingTimeline/app/src/main/java/com/ttaguchi/weddingtimeline/ui/login/LoginViewModel.kt:52-68 | the first failing check's message, in the order room id, key, name, icon; none exactly when all pass |
| Login.FailureText | WeddingTimeline/app/src/main/java/com/ttaguchi/weddingtimeline/ui/login/LoginViewModel.kt:87-101 | a `JoinError` shows its own message, any other failure "入室に失敗しました: " and its message |
| Login.StartJoin | WeddingTimeline/app/src/main/java/com/ttaguchi/weddingtimeline/ui/login/LoginViewModel.kt:48-79 | a no-op while loading; a failing check sets its message and launches nothing; otherwise loading starts, the error clears, and the launch carries the snapshot and the trimmed parameters |
| Login.FinishJoin | WeddingTimeline/app/src/main/java/com/ttaguchi/weddingtimeline/ui/login/LoginViewModel.kt:84-101 | the snapshot comes back with loading off; on failure with the failure's message |
| Login.ScreenValidationImpliesRepositoryValidation | WeddingTimeline/app/src/main/java/com/ttaguchi/weddingtimeline/ui/login/LoginViewModel.kt:53-79 | the parameters of a join the screen accepts pass `joinRoom`'s checks exactly when the icon name is non-empty |
| Login.CompletionForgetsEditsDuringJoin | WeddingTimeline/app/src/main/java/com/ttaguchi/weddingtimeline/ui/login/LoginViewModel.kt:84-101 | after a join the fields are those captured when it started |
| Login.LoginViewModel.constructor | WeddingTimeline/app/src/main/java/com/ttaguchi/weddingtimeline/ui/login/LoginViewModel.kt:22 | starts with an empty form |
| Login.LoginViewModel.UpdateRoomId | WeddingTimeline/app/src/main/java/com/ttaguchi/weddingtimeline/ui/login/LoginViewModel.kt:32-34 | sets the room id and clears the error |
| Login.LoginViewModel.UpdateRoomKey | WeddingTimeline/app/src/main/java/com/ttaguchi/weddingtimeline/ui/login/LoginViewModel.kt:36-38 | sets the key and clears the error |
| Login.LoginViewModel.UpdateUsername | WeddingTimeline/app/src/main/java/com/ttaguchi/weddingtimeline/ui/login/LoginViewModel.kt:40-42 | sets the name and clears the error |
| Login.LoginViewModel.SelectIcon | WeddingTimeline/app/src/main/java/com/ttaguchi/weddingtimeline/ui/login/LoginViewModel.kt:44-46 | sets the icon and keeps the error |
| Login.LoginViewModel.Join | WeddingTimeline/app/src/main/java/com/ttaguchi/weddingtimeline/ui/login/LoginViewModel.kt:48-79 | moves to `StartJoin`; a no-op while loading |
| Login.LoginViewModel.CompleteJoin | WeddingTimeline/app/src/main/java/com/ttaguchi/weddingtimeline/ui/login/LoginViewModel.kt:81-102 | moves to `FinishJoin`; reports the trimmed room id to open exactly on success |
| MediaSelection.Videos | WeddingTimeline/app/src/main/java/com/ttaguchi/weddingtimeline/ui/post/CreatePostScreen.kt:563-569 | only picked URIs that are videos, never more than were picked; with `PartsAppend` and `PartsOfOne`, exactly the picked videos, each as often as picked, in picker order |
| MediaSelection.Images | WeddingTimeline/app/src/main/java/com/ttaguchi/weddingtimeline/ui/post/CreatePostScreen.kt:563-569 | only picked URIs that are not videos, never more than were picked; with `PartsAppend` and `PartsOfOne`, exactly the picked images, each as often as picked, in picker order |
| MediaSelection.PartsAppend | WeddingTimeline/app/src/main/java/com/ttaguchi/weddingtimeline/ui/post/CreatePostScreen.kt:563-569 | sorting a concatenation of picks sorts each part: the video list and the image list of `a + b` are those of `a` followed by those of `b`, so both keep picker order |
| MediaSelection.PartsOfOne | WeddingTimeline/app/src/main/java/com/ttaguchi/weddingtimeline/ui/post/CreatePostScreen.kt:564-568 | a single pick goes to the list of its kind and to no other |
| MediaSelection.PartitionSizes | WeddingTimeline/app/src/main/java/com/ttaguchi/weddingtimeline/ui/post/CreatePostScreen.kt:564-568 | every picked URI lands in the video or the image list, and the two sizes add up to the number picked, so each goes to exactly one |
| MediaSelection.Take | WeddingTimeline/app/src/main/java/com/ttaguchi/weddingtimeline/ui/post/CreatePostScreen.kt:571-572 | `take(n)` is the prefix of length `min(n, size)` |
| MediaSelection.Distinct | WeddingTimeline/app/src/main/java/com/ttaguchi/weddingtimeline/ui/post/CreatePostScreen.kt:573 | `distinct()` has no repeats and the same elements; `DistinctKeepsFirstOrder` and `DistinctOfNoDuplicates` give the order |
| MediaSelection.FirstIndex | WeddingTimeline/app/src/main/java/com/ttaguchi/weddingtimeline/ui/post/CreatePostScreen.kt:573 | the index of the first occurrence of a URI: it holds the URI and no earlier index does |
| MediaSelection.DistinctOfNoDuplicates | WeddingTimeline/app/src/main/java/com/ttaguchi/weddingtimeline/ui/post/CreatePostScreen.kt:573 | a list without repeats is its own `distinct()` |
| MediaSelection.DistinctKeepsFirstOrder | WeddingTimeline/app/src/main/java/com/ttaguchi/weddingtimeline/ui/post/CreatePostScreen.kt:573 | `distinct()` lists the URIs in the order of their first occurrence in the input, so first occurrences are kept in order |
| MediaSelection.FirstIndexOfPrefix | WeddingTimeline/app/src/main/java/com/ttaguchi/weddingtimeline/ui/post/CreatePostScreen.kt:573 | appending to a list does not move the first occurrence of a URI already in it |
| MediaSelection.DistinctDisjointAppend | WeddingTimeline/app/src/main/java/com/ttaguchi/weddingtimeline/ui/post/CreatePostScreen.kt:573 | `distinct()` of two disjoint lists is the two `distinct()`s in order |
| MediaSelection.Warning | WeddingTimeline/app/src/main/java/com/ttaguchi/weddingtimeline/ui/post/CreatePostScreen.kt:575-583 | the combined message exactly when both limits are exceeded, the video or image message when only that one is, none when neither is |
| MediaSelection.FilterMediaSelection | WeddingTimeline/app/src/main/java/com/ttaguchi/weddingtimeline/ui/post/CreatePostScreen.kt:557-586 | the kept URIs are `distinct(take(videos, 1) + take(images, 4))`, and the message is the warning for the two counts |
| MediaSelection.TakenKinds | WeddingTimeline/app/src/main/java/com/ttaguchi/weddingtimeline/ui/post/CreatePostScreen.kt:571-572 | whatever is taken from the video list is a picked video, and from the image list a picked image |
| MediaSelection.SelectionParts | WeddingTimeline/app/src/main/java/com/ttaguchi/weddingtimeline/ui/post/CreatePostScreen.kt:571-573 | the selection is the video part cut to one, followed by the distinct image part cut to four (a video never equals an image); `FirstVideoKept` and `FirstImagesKept` say which ones those are |
| MediaSelection.FirstVideoKept | WeddingTimeline/app/src/main/java/com/ttaguchi/weddingtimeline/ui/post/CreatePostScreen.kt:563-571 | the video kept is the first video picked |
| MediaSelection.SkipImages | WeddingTimeline/app/src/main/java/com/ttaguchi/weddingtimeline/ui/post/CreatePostScreen.kt:563-569 | images picked before any video leave the video part unchanged |
| MediaSelection.VideoAtFront | WeddingTimeline/app/src/main/java/com/ttaguchi/weddingtimeline/ui/post/CreatePostScreen.kt:563-569 | picks that start with a video have that video first in their video part |
| MediaSelection.NoVideos | WeddingTimeline/app/src/main/java/com/ttaguchi/weddingtimeline/ui/post/CreatePostScreen.kt:563-569 | picks holding no video have an empty video part |
| MediaSelection.FirstImagesKept | WeddingTimeline/app/src/main/java/com/ttaguchi/weddingtimeline/ui/post/CreatePostScreen.kt:563-572 | the images among any prefix of the picks that holds at most four images are kept, in picker order, at the front of the kept images |
| MediaSelection.SelectionShape | WeddingTimeline/app/src/main/java/com/ttaguchi/weddingtimeline/ui/post/CreatePostScreen.kt:571-573 | at most one video (the first picked, by `FirstVideoKept`) followed by at most four images; no repeats; nothing that was not picked |
| MediaSelection.WithinLimitsKeepsEverything | WeddingTimeline/app/src/main/java/com/ttaguchi/weddingtimeline/ui/post/CreatePostScreen.kt:561-583 | within both limits every picked URI is kept and no warning is shown |
| MediaSelection.CanPickMore | WeddingTimeline/app/src/main/java/com/ttaguchi/weddingtimeline/ui/post/CreatePostScreen.kt:301 | the picker is disabled exactly when four images and a video are already selected |
| MediaSelection.FullSelectionDisablesPicker | WeddingTimeline/app/src/main/java/com/ttaguchi/weddingtimeline/ui/post/CreatePostScreen.kt:301 | for a filtered selection the picker is disabled exactly when it holds one video and four images |
| MediaSelection.VideosOfSplit | WeddingTimeline/app/src/main/java/com/ttaguchi/weddingtimeline/ui/post/CreatePostScreen.kt:573 | a list of videos followed by images has as many videos as its video part |
| MediaSelection.AllVideos | WeddingTimeline/app/src/main/java/com/ttaguchi/weddingtimeline/ui/post/CreatePostScreen.kt:564-565 | a list of videos is its own video part |
| MediaSelection.CanSubmit | WeddingTimeline/app/src/main/java/com/ttaguchi/weddingtimeline/ui/post/CreatePostScreen.kt:177 | submitting is possible exactly when there is an attachment or the trimmed text is non-empty |

## Left out

- Compose UI (screens, components, navigation, theme), the callers of `markAtTop` and `fetchPosts` in `TimelineScreen`, and every download, ExoPlayer and remaining-time overlay computation: layout, not logic.
- Firestore, Auth and Storage plumbing becomes inputs. This covers queries and their ordering, snapshot listeners (`listenLatestWithIsLiked`, `listenMember`, `listenAllMembers`), transaction retries, server timestamps, `generatePostId`, uploads and `MediaService`. `UserRepository`, `SessionViewModel`, `SettingsViewModel`, `CreatePostViewModel` and `UserPreferences` are not part of this model.
- `RoomRepository.leaveRoom`, `fetchRoomMember`, `deleteMyAccount` and its `batchDelete` paging loops, and the listeners: Firestore I/O with no rule beyond the call sequence. `isUserAlreadyInRoom` is the `existed` input of `Rooms.JoinRoom`.
- Concurrency: coroutine launches, `listenerJob` cancellation and restart, and interleavings. Each view-model step is one atomic step. The window between `fetchPosts` testing `isLoading` and launching is therefore not modelled.
- Floating point: the `Double` duration of an attachment is carried as a `real`, and `formatDuration`, seek fractions and sliders are not modelled.
- Clock and calendar: the `yyyy/MM/dd` rendering of posts older than a week is the `CalendarDate` label. `now` is a parameter everywhere.
- Text.Lowercase: only ASCII letters are lowercased, and `equals(ignoreCase = true)` compares ASCII case only. Kotlin's full Unicode case mapping is not modelled.
- `Locale.getDefault()` digits in `formatTime` and `%d`: ASCII digits are assumed.
- Kotlin `Long` overflow: differences of epoch milliseconds are unbounded integers. `Int` wrap-around is modelled where the code converts to or computes in `Int`: the like count, `formatTime`'s seconds, and the best-post ±1.
- `LoginViewModel.icons` is a constant list of icon names with no behaviour.
- `JoinError.InvalidKey` is declared but never raised by the modelled code.
- The `tag` check of `createPost` (`PostRepository.kt:67-69`) always passes for the two-valued `PostTag`, so it is not modelled as an error path.

## Findings

| source | as written | input that shows it | evidently intended | confidence | as-written member | corrected member |
|---|---|---|---|---|---|---|
| WeddingTimeline/app/src/main/java/com/ttaguchi/weddingtimeline/data/PostRepository.kt:76 | `createPost` stores each attachment's URL under "mediaUrl", while the read path (`PostRepository` decodes posts through `model.MediaDto`, whose URL is the "url" property, `model/MediaDto.kt:12-13`) looks under "url" | any post created with an attachment, e.g. `Media("m1", "https://…", IMAGE, …)`: read back, its URL is empty and `toDomain` drops the attachment | write and read agree on one key, as `domain/model/MediaDto.kt:15-18` does with "mediaUrl" | medium, not executed | PostRepository.StoredMediaDroppedOnRead | PostRepository.StoredMediaRoundTrip |
