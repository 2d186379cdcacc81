/**
 * The logic of `PostRepository` and `PostMapper` that does not depend on the
 * network: mapping query documents onto posts, the result of a page fetch,
 * the like-toggle transaction body and the payload `createPost` writes.
 * What a Firestore query or read returns is an input of these members.
 */
module PostRepository {
  import opened Wrappers
  import Kotlin
  import Text
  import Tags
  import M = Media
  import P = Posts
  import D = PostDtos

  /**
   * A post document as a query returns it: its document id and its
   * contents, `None` when they cannot be mapped onto a `TimeLinePostDto`.
   * The last document of a page doubles as the pagination cursor.
   */
  datatype PostDoc = PostDoc(id: string, data: Option<D.TimeLinePostDto>)

  /**
   * `PostMapper.toDomain`: the DTO of the document, its missing id filled in
   * with the document id, decoded for `roomId` and `isLiked`.
   */
  function MapDoc(doc: PostDoc, roomId: string, isLiked: bool, now: int): (r: Option<P.Post>)
    ensures r.Some? <==> doc.data.Some? && doc.data.value.authorId != ""
    ensures r.Some? ==> r.value.id == doc.data.value.id.GetOr(doc.id)
    ensures r.Some? ==> r.value.isLiked == isLiked && r.value.roomId == roomId
  {
    match doc.data
    case None => None
    case Some(dto) =>
      var withId := if dto.id.None? then dto.(id := Some(doc.id)) else dto;
      D.ToDomain(withId, roomId, isLiked, now)
  }

  /**
   * `PostMapper.makePosts`: every document that maps onto a post, in query
   * order, liked exactly when its document id is in `likedSet`.
   */
  function MakePosts(docs: seq<PostDoc>, likedSet: set<string>, roomId: string, now: int): (r: seq<P.Post>)
    ensures |r| <= |docs|
    ensures forall x :: x in r ==>
      exists d :: d in docs && MapDoc(d, roomId, d.id in likedSet, now) == Some(x)
  {
    if docs == [] then []
    else
      var rest := MakePosts(docs[1..], likedSet, roomId, now);
      match MapDoc(docs[0], roomId, docs[0].id in likedSet, now)
      case Some(p) => [p] + rest
      case None => rest
  }

  /** Mapping a concatenation maps each part: the order of the documents is kept. */
  lemma {:induction false} MakePostsAppend(a: seq<PostDoc>, b: seq<PostDoc>, likedSet: set<string>, roomId: string, now: int)
    ensures MakePosts(a + b, likedSet, roomId, now) == MakePosts(a, likedSet, roomId, now) + MakePosts(b, likedSet, roomId, now)
  {
    if a == [] {
      assert a + b == b;
    } else {
      assert (a + b)[0] == a[0];
      assert (a + b)[1..] == a[1..] + b;
      MakePostsAppend(a[1..], b, likedSet, roomId, now);
    }
  }

  /** A document that does not map onto a post is dropped and changes nothing else. */
  lemma MakePostsDropsUndecodable(doc: PostDoc, rest: seq<PostDoc>, likedSet: set<string>, roomId: string, now: int)
    requires doc.data.None? || doc.data.value.authorId == ""
    ensures MakePosts([doc] + rest, likedSet, roomId, now) == MakePosts(rest, likedSet, roomId, now)
  {
    assert ([doc] + rest)[1..] == rest;
  }

  /** When every document maps, there is one post per document. */
  lemma {:induction false} MakePostsKeepsDecodable(docs: seq<PostDoc>, likedSet: set<string>, roomId: string, now: int)
    requires forall i :: 0 <= i < |docs| ==> docs[i].data.Some? && docs[i].data.value.authorId != ""
    ensures |MakePosts(docs, likedSet, roomId, now)| == |docs|
  {
    if docs != [] {
      MakePostsKeepsDecodable(docs[1..], likedSet, roomId, now);
    }
  }

  /**
   * With the DTO id bound to the document id (as `@DocumentId` does, or left
   * unset), a mapped post is liked exactly when its id is in `likedSet`.
   */
  lemma MakePostsLiked(docs: seq<PostDoc>, likedSet: set<string>, roomId: string, now: int)
    requires forall d :: d in docs && d.data.Some? ==> d.data.value.id.None? || d.data.value.id == Some(d.id)
    ensures forall x :: x in MakePosts(docs, likedSet, roomId, now) ==> (x.isLiked <==> x.id in likedSet)
  {
    forall x | x in MakePosts(docs, likedSet, roomId, now)
      ensures x.isLiked <==> x.id in likedSet
    {
      var d :| d in docs && MapDoc(d, roomId, d.id in likedSet, now) == Some(x);
      assert x.id == d.id;
    }
  }

  /**
   * The liked set `fetchPosts` uses: the ids in the user's mirror index,
   * and nothing without a signed-in user or when reading the index fails.
   */
  function LikedSet(uid: Option<string>, mirror: Result<set<string>, string>): (s: set<string>)
    ensures uid.None? || mirror.Err? ==> s == {}
    ensures uid.Some? && mirror.Ok? ==> s == mirror.value
  {
    if uid.None? then {}
    else if mirror.Err? then {}
    else mirror.value
  }

  /** What `fetchPosts` returns: the mapped page and the cursor for the next page. */
  datatype FetchPostsResult = FetchPostsResult(posts: seq<P.Post>, lastSnapshot: Option<PostDoc>)

  /**
   * `fetchPosts` once the query has returned `docs`: an empty page gives no
   * posts and no cursor; otherwise the posts of the page and its last
   * document as the cursor.
   */
  function FetchPostsFrom(docs: seq<PostDoc>, likedSet: set<string>, roomId: string, now: int): (r: FetchPostsResult)
    ensures r.lastSnapshot.None? <==> docs == []
    ensures docs == [] ==> r.posts == []
    ensures docs != [] ==> r.lastSnapshot == Some(docs[|docs| - 1])
    ensures r.posts == MakePosts(docs, likedSet, roomId, now)
  {
    if docs == [] then FetchPostsResult([], None)
    else FetchPostsResult(MakePosts(docs, likedSet, roomId, now), Some(docs[|docs| - 1]))
  }

  // ---------------------------------------------------------------------------
  // The like-toggle transaction

  /**
   * The documents one like toggle reads and writes: whether the post
   * exists and its stored `likeCount` (a Long, absent when `None`), and
   * whether the user's like document and its mirror in the user's index exist.
   */
  datatype LikeDocs = LikeDocs(postExists: bool, likeCount: Option<int>, likeDoc: bool, mirrorDoc: bool)

  /** A committed transaction: the documents afterwards and the count it returns. */
  datatype LikeCommit = LikeCommit(docs: LikeDocs, count: int)

  const POST_MISSING: string := "Post does not exist"

  /**
   * The body of `toggleLike`'s transaction. The stored count is read as a
   * Kotlin `Int` (`toInt()` wraps) and 0 when absent; a like document whose
   * read fails counts as absent. Liking adds the like and mirror documents
   * and one to the count when there was no like; unliking deletes both and
   * takes one off, never below 0, when there was one; otherwise nothing is
   * written. A missing post aborts the transaction.
   */
  function ToggleLikeTxn(d: LikeDocs, newIsLiked: bool, likeReadFails: bool): (r: Result<LikeCommit, string>)
    ensures r.Err? <==> !d.postExists
    ensures r.Err? ==> r.error == POST_MISSING
    ensures r.Ok? ==> Kotlin.IsInt32(r.value.count) && r.value.docs.postExists
    ensures r.Ok? && !newIsLiked ==> r.value.count >= 0 || r.value.docs == d
  {
    if !d.postExists then Err(POST_MISSING)
    else
      var likeCount := Kotlin.ToInt32(d.likeCount.GetOr(0));
      var liked := d.likeDoc && !likeReadFails;
      if newIsLiked then
        if !liked then
          var c := Kotlin.ToInt32(likeCount + 1);
          Ok(LikeCommit(d.(likeDoc := true, mirrorDoc := true, likeCount := Some(c)), c))
        else Ok(LikeCommit(d, likeCount))
      else if liked then
        var c := MaxOf(0, Kotlin.ToInt32(likeCount - 1));
        Ok(LikeCommit(d.(likeDoc := false, mirrorDoc := false, likeCount := Some(c)), c))
      else Ok(LikeCommit(d, likeCount))
  }

  /** Kotlin's `maxOf`. */
  function MaxOf(a: int, b: int): (m: int)
    ensures m >= a && m >= b && (m == a || m == b)
  {
    if a >= b then a else b
  }

  /** The count stored before the toggle, as the transaction reads it. */
  function StoredCount(d: LikeDocs): int {
    d.likeCount.GetOr(0)
  }

  /** Liking a post without a like adds exactly one and creates both like documents. */
  lemma LikeIncrements(d: LikeDocs, likeReadFails: bool)
    requires d.postExists && !(d.likeDoc && !likeReadFails)
    requires 0 <= StoredCount(d) < Kotlin.INT_MAX
    ensures var r := ToggleLikeTxn(d, true, likeReadFails);
      && r.Ok? && r.value.count == StoredCount(d) + 1
      && r.value.docs == d.(likeDoc := true, mirrorDoc := true, likeCount := Some(StoredCount(d) + 1))
  {
  }

  /** Liking a post already liked writes nothing and returns the stored count. */
  lemma LikeWhenLikedChangesNothing(d: LikeDocs)
    requires d.postExists && d.likeDoc && Kotlin.IsInt32(StoredCount(d))
    ensures ToggleLikeTxn(d, true, false) == Ok(LikeCommit(d, StoredCount(d)))
  {
  }

  /** Unliking a liked post takes one off, never going below 0, and deletes both like documents. */
  lemma UnlikeDecrements(d: LikeDocs)
    requires d.postExists && d.likeDoc && Kotlin.INT_MIN < StoredCount(d) <= Kotlin.INT_MAX
    ensures var r := ToggleLikeTxn(d, false, false);
      && r.Ok? && r.value.count == MaxOf(0, StoredCount(d) - 1) && r.value.count >= 0
      && r.value.docs == d.(likeDoc := false, mirrorDoc := false, likeCount := Some(r.value.count))
  {
  }

  /** Unliking a post without a like writes nothing. */
  lemma UnlikeWhenNotLikedChangesNothing(d: LikeDocs, likeReadFails: bool)
    requires d.postExists && !(d.likeDoc && !likeReadFails) && Kotlin.IsInt32(StoredCount(d))
    ensures ToggleLikeTxn(d, false, likeReadFails) == Ok(LikeCommit(d, StoredCount(d)))
  {
  }

  /**
   * When the like document is read, the like document exists afterwards
   * exactly when the toggle asked for a like, the mirror agrees with it if it
   * did before, and the count returned is the count stored.
   */
  lemma ToggleLikeOutcome(d: LikeDocs, newIsLiked: bool)
    requires d.postExists && Kotlin.IsInt32(StoredCount(d))
    ensures var r := ToggleLikeTxn(d, newIsLiked, false);
      && r.Ok?
      && r.value.docs.likeDoc == newIsLiked
      && (d.likeDoc == d.mirrorDoc ==> r.value.docs.mirrorDoc == r.value.docs.likeDoc)
      && StoredCount(r.value.docs) == r.value.count
  {
  }

  /**
   * Asking for the same like state twice, with both reads of the like
   * document succeeding, ends with the documents and the count of asking once.
   */
  lemma ToggleLikeIdempotent(d: LikeDocs, newIsLiked: bool)
    requires d.postExists
    ensures var once := ToggleLikeTxn(d, newIsLiked, false);
      && once.Ok?
      && ToggleLikeTxn(once.value.docs, newIsLiked, false) == once
  {
    var once := ToggleLikeTxn(d, newIsLiked, false);
    if once.value.docs != d {
      assert StoredCount(once.value.docs) == once.value.count;
    }
  }

  /**
   * A like document that exists but whose read fails is taken as absent:
   * liking again then counts the same user a second time.
   */
  lemma LikeReadFailureCountsTwice(d: LikeDocs)
    requires d.postExists && d.likeDoc && 0 <= StoredCount(d) < Kotlin.INT_MAX
    ensures ToggleLikeTxn(d, true, true).Ok?
    ensures ToggleLikeTxn(d, true, true).value.count == StoredCount(d) + 1
  {
  }

  /** The documents of one post and one user in Firestore, which `toggleLike` updates. */
  class LikeDocuments {
    var postExists: bool
    var likeCount: Option<int>
    var likeDoc: bool
    var mirrorDoc: bool

    function Docs(): LikeDocs
      reads this
    {
      LikeDocs(postExists, likeCount, likeDoc, mirrorDoc)
    }

    constructor (d: LikeDocs)
      ensures Docs() == d
    {
      postExists := d.postExists;
      likeCount := d.likeCount;
      likeDoc := d.likeDoc;
      mirrorDoc := d.mirrorDoc;
    }

    /**
     * `toggleLike(newIsLiked)`: runs the transaction body on these
     * documents. An aborted transaction writes nothing.
     */
    method ToggleLike(newIsLiked: bool, likeReadFails: bool) returns (r: Result<int, string>)
      modifies this
      ensures var t := ToggleLikeTxn(old(Docs()), newIsLiked, likeReadFails);
        && (t.Ok? ==> r == Ok(t.value.count) && Docs() == t.value.docs)
        && (t.Err? ==> r == Err(t.error) && Docs() == old(Docs()))
    {
      if !postExists {
        return Err(POST_MISSING);
      }
      var count := Kotlin.ToInt32(likeCount.GetOr(0));
      var liked := likeDoc && !likeReadFails;
      if newIsLiked {
        if !liked {
          likeDoc := true;
          mirrorDoc := true;
          count := Kotlin.ToInt32(count + 1);
          likeCount := Some(count);
        }
      } else {
        if liked {
          likeDoc := false;
          mirrorDoc := false;
          count := MaxOf(0, Kotlin.ToInt32(count - 1));
          likeCount := Some(count);
        }
      }
      return Ok(count);
    }
  }

  // ---------------------------------------------------------------------------
  // createPost

  const ROOM_MISSING: string := "ルーム情報が取得できませんでした"

  /**
   * The post document `createPost` writes under `rooms/<roomId>/posts/<postId>`.
   * `createdAt` is the server's timestamp and is not part of the model.
   */
  datatype PostPayload = PostPayload(
    roomId: string,
    postId: string,
    content: string,
    authorId: string,
    authorName: string,
    userIcon: string,
    tag: string,
    media: seq<map<M.MediaField, M.FieldValue>>,
    likeCount: int,
    replyCount: int,
    retweetCount: int)

  /** `filterValues { it != null }`: the entries with a value. */
  function NonNull(item: map<M.MediaField, Option<M.FieldValue>>): (r: map<M.MediaField, M.FieldValue>)
    ensures forall k :: k in r <==> k in item && item[k].Some?
    ensures forall k :: k in r ==> r[k] == item[k].value
  {
    map k | k in item && item[k].Some? :: item[k].value
  }

  function IntValue(x: Option<int>): Option<M.FieldValue> {
    if x.Some? then Some(M.Int(x.value)) else None
  }

  function RealValue(x: Option<real>): Option<M.FieldValue> {
    if x.Some? then Some(M.Real(x.value)) else None
  }

  function StrValue(x: Option<string>): Option<M.FieldValue> {
    if x.Some? then Some(M.Str(x.value)) else None
  }

  /**
   * The map `createPost` stores for one attachment: id, type, the URL under
   * "mediaUrl", and width, height, duration and storage path only when set.
   */
  function MediaItemPayload(m: M.Media): (item: map<M.MediaField, M.FieldValue>)
    ensures item.Keys <= {M.IdField, M.TypeField, M.MediaUrlField, M.WidthField, M.HeightField, M.DurationField, M.StoragePathField}
    ensures M.IdField in item && item[M.IdField] == M.Str(m.id)
    ensures M.TypeField in item && item[M.TypeField] == M.Str(m.mediaType.RawValue())
    ensures M.MediaUrlField in item && item[M.MediaUrlField] == M.Str(m.url)
    ensures M.WidthField in item <==> m.width.Some?
    ensures M.WidthField in item ==> item[M.WidthField] == M.Int(m.width.value)
    ensures M.HeightField in item <==> m.height.Some?
    ensures M.HeightField in item ==> item[M.HeightField] == M.Int(m.height.value)
    ensures M.DurationField in item <==> m.duration.Some?
    ensures M.DurationField in item ==> item[M.DurationField] == M.Real(m.duration.value)
    ensures M.StoragePathField in item <==> m.storagePath.Some?
    ensures M.StoragePathField in item ==> item[M.StoragePathField] == M.Str(m.storagePath.value)
  {
    // Adding "duration" and "storagePath" only when set and then dropping
    // the null values leaves the same map as giving every key its nullable
    // value and dropping the nulls.
    NonNull(map[
      M.IdField := Some(M.Str(m.id)),
      M.TypeField := Some(M.Str(m.mediaType.RawValue())),
      M.MediaUrlField := Some(M.Str(m.url)),
      M.WidthField := IntValue(m.width),
      M.HeightField := IntValue(m.height),
      M.DurationField := RealValue(m.duration),
      M.StoragePathField := StrValue(m.storagePath)])
  }

  /** The attachment maps of a new post, one per attachment, in order. */
  function MediaPayloads(media: seq<M.Media>): (items: seq<map<M.MediaField, M.FieldValue>>)
    ensures |items| == |media|
    ensures forall i :: 0 <= i < |media| ==> items[i] == MediaItemPayload(media[i])
  {
    seq(|media|, i requires 0 <= i < |media| => MediaItemPayload(media[i]))
  }

  /**
   * `createPost`'s validation and payload: a room id that is blank once
   * trimmed is rejected; otherwise the trimmed room id and content, the tag's
   * raw value, one map per attachment in order and all counters at 0. The
   * tag check of the source cannot fail, since a `PostTag` is one of the two
   * allowed tags.
   */
  function CreatePost(roomId: string, postId: string, content: string, authorId: string, authorName: string,
                      userIcon: string, tag: Tags.PostTag, media: seq<M.Media>): (r: Result<PostPayload, string>)
    ensures r.Err? <==> Text.IsBlank(roomId)
    ensures r.Err? ==> r.error == ROOM_MISSING
    ensures r.Ok? ==> r.value.roomId == Text.Trim(roomId) && r.value.roomId != "" && r.value.postId == postId
    ensures r.Ok? ==> r.value.content == Text.Trim(content)
    ensures r.Ok? ==> r.value.authorId == authorId && r.value.authorName == authorName && r.value.userIcon == userIcon
    ensures r.Ok? ==> Tags.FromRawValue(r.value.tag) == tag
    ensures r.Ok? ==> r.value.likeCount == 0 && r.value.replyCount == 0 && r.value.retweetCount == 0
    ensures r.Ok? ==> |r.value.media| == |media| && forall i :: 0 <= i < |media| ==> r.value.media[i] == MediaItemPayload(media[i])
  {
    var roomIdSan := Text.Trim(roomId);
    var contentSan := Text.Trim(content);
    if roomIdSan == [] then Err(ROOM_MISSING)
    else
      Tags.FromRawValueRoundTrip(tag);
      Ok(PostPayload(roomIdSan, postId, contentSan, authorId, authorName, userIcon, tag.RawValue(),
                     MediaPayloads(media), 0, 0, 0))
  }

  /**
   * As written: an attachment map stored by `createPost`, read back through
   * `model.MediaDto` (URL under "url"), has no URL and so is dropped.
   */
  lemma StoredMediaDroppedOnRead(m: M.Media)
    ensures M.ToDomain(M.DtoFromFields(MediaItemPayload(m), M.MODEL_URL_KEY)) == None
  {
  }

  /**
   * Corrected: read back under the key it was stored under ("mediaUrl",
   * as `domain.model.MediaDto` does), an attachment with an id and a URL
   * comes back unchanged.
   */
  lemma StoredMediaRoundTrip(m: M.Media)
    requires m.id != "" && m.url != ""
    ensures M.ToDomain(M.DtoFromFields(MediaItemPayload(m), M.DOMAIN_URL_KEY)) == Some(m)
  {
    M.FromRawValueRoundTrip(m.mediaType);
  }
}
