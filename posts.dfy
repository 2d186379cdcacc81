/**
 * The timeline post value (`TimeLinePost`) and its derived views: whether it
 * has media, and the relative "time ago" label of its creation time.
 * Times are milliseconds since the epoch; the current time is a parameter.
 */
module Posts {
  import Kotlin
  import Text
  import Tags
  import M = Media

  datatype Post = Post(
    id: string,
    roomId: string,
    authorId: string,
    authorName: string,
    userIcon: string,
    content: string,
    createdAt: int,
    replyCount: int,
    retweetCount: int,
    likeCount: int,
    isLiked: bool,
    media: seq<M.Media>,
    tag: Tags.PostTag)

  /** `hasMedia`: the post carries at least one attachment. */
  predicate HasMedia(p: Post) {
    |p.media| > 0
  }

  /**
   * The label `formattedCreatedAt` shows: a relative text, or (a week and
   * more after creation) the creation date, which a calendar formats.
   */
  datatype CreatedAtLabel = Relative(text: string) | CalendarDate(createdAt: int)

  const SECONDS_AGO: string := "秒前"
  const MINUTES_AGO: string := "分前"
  const HOURS_AGO: string := "時間前"
  const DAYS_AGO: string := "日前"

  /**
   * `formattedCreatedAt`, at time `now`: the elapsed milliseconds are divided
   * step by step (Kotlin's truncating `/`) into seconds, minutes, hours and
   * days, and the first unit below its bound is shown.
   */
  function FormattedCreatedAt(p: Post, now: int): (r: CreatedAtLabel)
    ensures r.CalendarDate? <==> now - p.createdAt >= 604_800_000
    ensures r.CalendarDate? ==> r.createdAt == p.createdAt
  {
    var diffMillis := now - p.createdAt;
    ChainedUnits(if diffMillis >= 0 then diffMillis else 0);
    var diffSeconds := Kotlin.Div(diffMillis, 1000);
    var diffMinutes := Kotlin.Div(diffSeconds, 60);
    var diffHours := Kotlin.Div(diffMinutes, 60);
    var diffDays := Kotlin.Div(diffHours, 24);
    if diffSeconds < 60 then Relative(Text.IntToString(diffSeconds) + SECONDS_AGO)
    else if diffMinutes < 60 then Relative(Text.IntToString(diffMinutes) + MINUTES_AGO)
    else if diffHours < 24 then Relative(Text.IntToString(diffHours) + HOURS_AGO)
    else if diffDays < 7 then Relative(Text.IntToString(diffDays) + DAYS_AGO)
    else CalendarDate(p.createdAt)
  }

  /** Seconds, then minutes, then hours, then days: the chained divisions are divisions of the milliseconds. */
  lemma ChainedUnits(d: nat)
    ensures (d / 1000) / 60 == d / 60_000
    ensures (d / 60_000) / 60 == d / 3_600_000
    ensures (d / 3_600_000) / 24 == d / 86_400_000
  {
    var s := d / 1000;
    assert s * 1000 <= d < s * 1000 + 1000;
    var m := s / 60;
    assert m * 60 <= s < m * 60 + 60;
    assert m * 60_000 <= d < m * 60_000 + 60_000;
    var h := m / 60;
    assert h * 60 <= m < h * 60 + 60;
    assert h * 3_600_000 <= d < h * 3_600_000 + 3_600_000;
    var dd := h / 24;
    assert dd * 24 <= h < dd * 24 + 24;
    assert dd * 86_400_000 <= d < dd * 86_400_000 + 86_400_000;
  }

  /**
   * For a post created `d >= 0` milliseconds before `now`, the label is the
   * number of whole seconds under a minute, whole minutes under an hour,
   * whole hours under a day, whole days under a week, and otherwise the date;
   * the number shown lies in the bucket's range.
   */
  lemma {:induction false} FormattedCreatedAtBuckets(p: Post, now: int)
    requires now >= p.createdAt
    ensures var d := now - p.createdAt;
      && (d < 60_000 ==>
            FormattedCreatedAt(p, now) == Relative(Text.NatToString(d / 1000) + SECONDS_AGO) && 0 <= d / 1000 < 60)
      && (60_000 <= d < 3_600_000 ==>
            FormattedCreatedAt(p, now) == Relative(Text.NatToString(d / 60_000) + MINUTES_AGO) && 1 <= d / 60_000 < 60)
      && (3_600_000 <= d < 86_400_000 ==>
            FormattedCreatedAt(p, now) == Relative(Text.NatToString(d / 3_600_000) + HOURS_AGO) && 1 <= d / 3_600_000 < 24)
      && (86_400_000 <= d < 604_800_000 ==>
            FormattedCreatedAt(p, now) == Relative(Text.NatToString(d / 86_400_000) + DAYS_AGO) && 1 <= d / 86_400_000 < 7)
      && (604_800_000 <= d ==> FormattedCreatedAt(p, now) == CalendarDate(p.createdAt))
  {
    var d := now - p.createdAt;
    ChainedUnits(d);
  }

  /**
   * A creation time in the future (clock skew) is always shown in seconds,
   * with the truncated, non-positive difference as the number.
   */
  lemma FutureIsSeconds(p: Post, now: int)
    requires now < p.createdAt
    ensures FormattedCreatedAt(p, now) == Relative(Text.IntToString(Kotlin.Div(now - p.createdAt, 1000)) + SECONDS_AGO)
    ensures Kotlin.Div(now - p.createdAt, 1000) <= 0
  {
  }
}
