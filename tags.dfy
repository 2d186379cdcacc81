/** The closed set of post categories and their Firestore raw values. */
module Tags {

  datatype PostTag = CEREMONY | RECEPTION {
    /** The string stored in Firestore for this tag. */
    function RawValue(): string {
      match this
      case CEREMONY => "ceremony"
      case RECEPTION => "reception"
    }

    function DisplayName(): string {
      match this
      case CEREMONY => "挙式"
      case RECEPTION => "披露宴"
    }
  }

  /**
   * `PostTag.fromRawValue`: the entry whose raw value equals `value` exactly
   * (case matters), and CEREMONY when none does.
   */
  function FromRawValue(value: string): (t: PostTag)
    ensures t == RECEPTION <==> value == "reception"
  {
    if value == CEREMONY.RawValue() then CEREMONY
    else if value == RECEPTION.RawValue() then RECEPTION
    else CEREMONY
  }

  /** Decoding the raw value of a tag gives that tag back. */
  lemma FromRawValueRoundTrip(t: PostTag)
    ensures FromRawValue(t.RawValue()) == t
  {
  }

  /** The two raw values differ, so the encoding is injective. */
  lemma RawValueInjective(a: PostTag, b: PostTag)
    requires a.RawValue() == b.RawValue()
    ensures a == b
  {
    FromRawValueRoundTrip(a);
    FromRawValueRoundTrip(b);
  }

  /** The two display names differ, so a label names one tag. */
  lemma DisplayNameInjective(a: PostTag, b: PostTag)
    requires a.DisplayName() == b.DisplayName()
    ensures a == b
  {
    assert CEREMONY.DisplayName()[0] != RECEPTION.DisplayName()[0];
  }

  /** Matching is exact: a capitalised raw value is unknown and falls back to CEREMONY. */
  lemma FromRawValueIsCaseSensitive()
    ensures FromRawValue("Reception") == CEREMONY
    ensures FromRawValue("RECEPTION") == CEREMONY
  {
    assert "Reception" != "reception" by { assert "Reception"[0] != "reception"[0]; }
    assert "RECEPTION" != "reception" by { assert "RECEPTION"[0] != "reception"[0]; }
  }
}
