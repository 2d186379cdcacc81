/** The category filter of the timeline: all posts, or the posts of one tag. */
module Filters {
  import Tags

  datatype TimelineFilter = ALL | CEREMONY | RECEPTION {
    function DisplayName(): string {
      match this
      case ALL => "すべて"
      case CEREMONY => "挙式"
      case RECEPTION => "披露宴"
    }
  }

  /** Whether a post with tag `tag` passes filter `f`. */
  predicate Matches(f: TimelineFilter, tag: Tags.PostTag) {
    match f
    case ALL => true
    case CEREMONY => tag == Tags.CEREMONY
    case RECEPTION => tag == Tags.RECEPTION
  }

  /** `TimelineFilter.fromPostTag`: the filter that selects exactly the posts of `tag`. */
  function FromPostTag(tag: Tags.PostTag): (f: TimelineFilter)
    ensures f != ALL
    ensures forall t :: Matches(f, t) <==> t == tag
  {
    match tag
    case CEREMONY => CEREMONY
    case RECEPTION => RECEPTION
  }

  /** The filter made from a tag is labelled with that tag's own display name. */
  lemma FromPostTagDisplayName(tag: Tags.PostTag)
    ensures FromPostTag(tag).DisplayName() == tag.DisplayName()
  {
  }

  /** The three filter labels are pairwise distinct, so a label names one filter. */
  lemma DisplayNameInjective(a: TimelineFilter, b: TimelineFilter)
    requires a.DisplayName() == b.DisplayName()
    ensures a == b
  {
    assert ALL.DisplayName()[0] != CEREMONY.DisplayName()[0];
    assert ALL.DisplayName()[0] != RECEPTION.DisplayName()[0];
    assert CEREMONY.DisplayName()[0] != RECEPTION.DisplayName()[0];
  }

  /** Different tags give different filters. */
  lemma FromPostTagInjective(a: Tags.PostTag, b: Tags.PostTag)
    requires FromPostTag(a) == FromPostTag(b)
    ensures a == b
  {
    assert Matches(FromPostTag(a), a);
  }
}
