/**
 * `TimeLinePostDto`, the Firestore form of a post, and its decoding into a
 * `Post`. Firestore's own timestamp conversion is outside the model: the
 * stored creation time is already milliseconds, and the "now" that replaces a
 * missing one is a parameter.
 */
module PostDtos {
  import opened Wrappers
  import Tags
  import M = Media
  import P = Posts

  datatype TimeLinePostDto = TimeLinePostDto(
    id: Option<string>,
    content: string,
    authorId: string,
    authorName: string,
    userIcon: Option<string>,
    createdAt: Option<int>,
    media: seq<M.MediaDto>,
    replyCount: int,
    retweetCount: int,
    likeCount: Option<int>,
    tag: Option<string>)

  /** The tag of a stored post: "ceremony", "reception", and CEREMONY for anything else or nothing. */
  function DecodeTag(tag: Option<string>): (t: Tags.PostTag)
    ensures t == Tags.RECEPTION <==> tag == Some("reception")
    ensures forall x: Tags.PostTag :: tag == Some(x.RawValue()) ==> t == x
  {
    if tag == Some("ceremony") then Tags.CEREMONY
    else if tag == Some("reception") then Tags.RECEPTION
    else Tags.CEREMONY
  }

  /** Whether a media entry decodes. */
  predicate ValidMedia(d: M.MediaDto) {
    M.ToDomain(d).Some?
  }

  /** `media.mapNotNull { it.toDomain() }`: invalid entries are dropped, the rest keep their order. */
  function DecodeMedia(ms: seq<M.MediaDto>): (r: seq<M.Media>)
    ensures |r| <= |ms|
    ensures (forall i :: 0 <= i < |ms| ==> ValidMedia(ms[i])) ==> |r| == |ms|
    ensures forall x :: x in r ==> exists d :: d in ms && M.ToDomain(d) == Some(x)
  {
    if ms == [] then []
    else
      var rest := DecodeMedia(ms[1..]);
      match M.ToDomain(ms[0])
      case Some(m) => [m] + rest
      case None => rest
  }

  /** Decoding a concatenation decodes each part: the order of the valid entries is kept. */
  lemma {:induction false} DecodeMediaAppend(a: seq<M.MediaDto>, b: seq<M.MediaDto>)
    ensures DecodeMedia(a + b) == DecodeMedia(a) + DecodeMedia(b)
  {
    if a == [] {
      assert a + b == b;
    } else {
      assert (a + b)[0] == a[0];
      assert (a + b)[1..] == a[1..] + b;
      DecodeMediaAppend(a[1..], b);
    }
  }

  /** The DTO list `toDto` writes for a list of attachments. */
  function EncodeMedia(ms: seq<M.Media>): (r: seq<M.MediaDto>)
    ensures |r| == |ms|
    ensures forall i :: 0 <= i < |ms| ==> r[i] == M.ToDto(ms[i])
  {
    seq(|ms|, i requires 0 <= i < |ms| => M.ToDto(ms[i]))
  }

  /** Attachments with ids and URLs come back, in order, after encoding and decoding. */
  lemma {:induction false} MediaListRoundTrip(ms: seq<M.Media>)
    requires forall i :: 0 <= i < |ms| ==> ms[i].id != "" && ms[i].url != ""
    ensures DecodeMedia(EncodeMedia(ms)) == ms
  {
    if ms != [] {
      M.RoundTrip(ms[0]);
      assert EncodeMedia(ms)[1..] == EncodeMedia(ms[1..]);
      MediaListRoundTrip(ms[1..]);
    }
  }

  /** Decoding keeps nothing exactly when no stored attachment is valid. */
  lemma {:induction false} DecodeMediaEmpty(ms: seq<M.MediaDto>)
    ensures DecodeMedia(ms) == [] <==> forall d :: d in ms ==> M.ToDomain(d).None?
  {
    if ms != [] {
      DecodeMediaEmpty(ms[1..]);
      assert forall d :: d in ms <==> d == ms[0] || d in ms[1..];
    }
  }

  /** A decoded post shows media (`hasMedia`) exactly when one of its stored attachments is valid. */
  lemma DecodedHasMedia(dto: TimeLinePostDto, roomId: string, isLiked: bool, now: int)
    requires ToDomain(dto, roomId, isLiked, now).Some?
    ensures P.HasMedia(ToDomain(dto, roomId, isLiked, now).value) <==> exists d :: d in dto.media && M.ToDomain(d).Some?
  {
    DecodeMediaEmpty(dto.media);
  }

  /**
   * `TimeLinePostDto.toDomain(roomId, isLiked)`: no post without an id or an
   * author; otherwise the fields are copied, the tag and media decoded, a
   * missing like count read as 0, a missing icon as "" and a missing creation
   * time as `now`.
   */
  function ToDomain(dto: TimeLinePostDto, roomId: string, isLiked: bool, now: int): (r: Option<P.Post>)
    ensures r.None? <==> dto.id.None? || dto.authorId == ""
    ensures r.Some? ==> r.value.id == dto.id.value && r.value.authorId == dto.authorId
    ensures r.Some? ==> r.value.roomId == roomId && r.value.isLiked == isLiked
    ensures r.Some? ==> r.value.content == dto.content && r.value.authorName == dto.authorName
    ensures r.Some? ==> r.value.replyCount == dto.replyCount && r.value.retweetCount == dto.retweetCount
    ensures r.Some? ==> r.value.likeCount == dto.likeCount.GetOr(0) && r.value.userIcon == dto.userIcon.GetOr("")
    ensures r.Some? ==> r.value.tag == DecodeTag(dto.tag) && r.value.media == DecodeMedia(dto.media)
    ensures r.Some? ==> r.value.createdAt == dto.createdAt.GetOr(now)
  {
    if dto.id.None? then None
    else if dto.authorId == "" then None
    else
      Some(P.Post(
        id := dto.id.value,
        roomId := roomId,
        authorId := dto.authorId,
        authorName := dto.authorName,
        userIcon := dto.userIcon.GetOr(""),
        content := dto.content,
        createdAt := dto.createdAt.GetOr(now),
        replyCount := dto.replyCount,
        retweetCount := dto.retweetCount,
        likeCount := dto.likeCount.GetOr(0),
        isLiked := isLiked,
        media := DecodeMedia(dto.media),
        tag := DecodeTag(dto.tag)))
  }
}
