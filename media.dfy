/**
 * Media attachments: the `MediaType` enum with its raw-value codec, the
 * `Media` value, the `MediaDto` Firestore record and the conversions between
 * them. The `model` and `domain.model` packages define these identically
 * (apart from the Firestore field name under which the URL is stored, see
 * `MODEL_URL_KEY` and `DOMAIN_URL_KEY`), so they are modelled once.
 */
module Media {
  import opened Wrappers
  import Text

  datatype MediaType = IMAGE | VIDEO {
    /** The string stored in Firestore for this type. */
    function RawValue(): string {
      match this
      case IMAGE => "image"
      case VIDEO => "video"
    }
  }

  /**
   * `MediaType.fromRawValue`: the first entry (IMAGE, then VIDEO) whose raw
   * value equals `value` ignoring case, and IMAGE when none does.
   */
  function FromRawValue(value: string): (t: MediaType)
    ensures t == VIDEO <==> Text.EqualsIgnoreCase(value, "video")
    ensures t == IMAGE <==> !Text.EqualsIgnoreCase(value, "video")
  {
    RawValuesDiffer();
    if Text.EqualsIgnoreCase(IMAGE.RawValue(), value) then IMAGE
    else if Text.EqualsIgnoreCase(VIDEO.RawValue(), value) then VIDEO
    else IMAGE
  }

  /** The raw values of the two types differ even when case is ignored. */
  lemma RawValuesDiffer()
    ensures !Text.EqualsIgnoreCase("image", "video")
  {
    assert Text.Lowercase("image")[0] == 'i';
    assert Text.Lowercase("video")[0] == 'v';
  }

  /** Decoding the raw value of a type gives that type back. */
  lemma FromRawValueRoundTrip(t: MediaType)
    ensures FromRawValue(t.RawValue()) == t
  {
    RawValuesDiffer();
  }

  /** Decoding ignores case: a string decodes as its lower-case form does. */
  lemma FromRawValueIgnoresCase(value: string)
    ensures FromRawValue(value) == FromRawValue(Text.Lowercase(value))
  {
    var low := Text.Lowercase(value);
    assert Text.Lowercase(low) == low by {
      forall i | 0 <= i < |low| ensures Text.Lowercase(low)[i] == low[i] {
      }
    }
  }

  /** An attachment of a post. `duration` is only carried, never computed with. */
  datatype Media = Media(
    id: string,
    url: string,
    mediaType: MediaType,
    width: Option<int>,
    height: Option<int>,
    duration: Option<real>,
    storagePath: Option<string>)

  /** The Firestore form of an attachment: the type is a raw string. */
  datatype MediaDto = MediaDto(
    id: string,
    url: string,
    mediaType: string,
    width: Option<int>,
    height: Option<int>,
    duration: Option<real>,
    storagePath: Option<string>)

  /** `MediaDto.toDomain`: rejects an empty id or URL, decodes the type, copies the rest. */
  function ToDomain(dto: MediaDto): (r: Option<Media>)
    ensures r.None? <==> dto.id == "" || dto.url == ""
    ensures r.Some? ==> r.value.mediaType == FromRawValue(dto.mediaType)
    ensures r.Some? ==> r.value.id == dto.id && r.value.url == dto.url
    ensures r.Some? ==> r.value.width == dto.width && r.value.height == dto.height
    ensures r.Some? ==> r.value.duration == dto.duration && r.value.storagePath == dto.storagePath
  {
    if dto.id == "" || dto.url == "" then None
    else Some(Media(dto.id, dto.url, FromRawValue(dto.mediaType), dto.width, dto.height, dto.duration, dto.storagePath))
  }

  /** `Media.toDto`: writes the type as its raw value and copies the rest. */
  function ToDto(m: Media): (d: MediaDto)
    ensures d.mediaType == m.mediaType.RawValue()
    ensures d.id == m.id && d.url == m.url && d.width == m.width && d.height == m.height
    ensures d.duration == m.duration && d.storagePath == m.storagePath
  {
    MediaDto(m.id, m.url, m.mediaType.RawValue(), m.width, m.height, m.duration, m.storagePath)
  }

  /** An attachment with an id and a URL survives the round trip through its DTO. */
  lemma RoundTrip(m: Media)
    requires m.id != "" && m.url != ""
    ensures ToDomain(ToDto(m)) == Some(m)
  {
    FromRawValueRoundTrip(m.mediaType);
  }

  /**
   * The other direction: a DTO that decodes comes back from `toDto` unchanged
   * except that its type string is normalised to the raw value.
   */
  lemma DecodeNormalizesType(dto: MediaDto)
    requires ToDomain(dto).Some?
    ensures ToDto(ToDomain(dto).value) == dto.(mediaType := FromRawValue(dto.mediaType).RawValue())
    ensures dto.mediaType in {"image", "video"} ==> ToDto(ToDomain(dto).value) == dto
  {
    if dto.mediaType in {"image", "video"} {
      FromRawValueRoundTrip(if dto.mediaType == "image" then IMAGE else VIDEO);
    }
  }

  /** A value stored in a Firestore document field. */
  datatype FieldValue = Str(s: string) | Int(i: int) | Real(r: real)

  /** The fields of a stored attachment map, by their Firestore names. */
  datatype MediaField = IdField | TypeField | UrlField | MediaUrlField | WidthField | HeightField | DurationField | StoragePathField {
    function Name(): string {
      match this
      case IdField => "id"
      case TypeField => "type"
      case UrlField => "url"
      case MediaUrlField => "mediaUrl"
      case WidthField => "width"
      case HeightField => "height"
      case DurationField => "duration"
      case StoragePathField => "storagePath"
    }
  }

  /** The field from which `model.MediaDto` reads the URL ("url"). */
  const MODEL_URL_KEY: MediaField := UrlField
  /** The field from which `domain.model.MediaDto` reads the URL ("mediaUrl"). */
  const DOMAIN_URL_KEY: MediaField := MediaUrlField

  function StringField(fields: map<MediaField, FieldValue>, key: MediaField, default: string): string {
    if key in fields && fields[key].Str? then fields[key].s else default
  }

  function IntField(fields: map<MediaField, FieldValue>, key: MediaField): Option<int> {
    if key in fields && fields[key].Int? then Some(fields[key].i) else None
  }

  function RealField(fields: map<MediaField, FieldValue>, key: MediaField): Option<real> {
    if key in fields && fields[key].Real? then Some(fields[key].r) else None
  }

  function OptStringField(fields: map<MediaField, FieldValue>, key: MediaField): Option<string> {
    if key in fields && fields[key].Str? then Some(fields[key].s) else None
  }

  /**
   * Firestore's mapping of a media map onto a `MediaDto`, with the URL read
   * from `urlKey`: a field that is absent takes the constructor default.
   */
  function DtoFromFields(fields: map<MediaField, FieldValue>, urlKey: MediaField): (d: MediaDto)
    ensures urlKey !in fields ==> d.url == ""
    ensures IdField in fields && fields[IdField].Str? ==> d.id == fields[IdField].s
  {
    MediaDto(
      StringField(fields, IdField, ""),
      StringField(fields, urlKey, ""),
      StringField(fields, TypeField, "image"),
      IntField(fields, WidthField),
      IntField(fields, HeightField),
      RealField(fields, DurationField),
      OptStringField(fields, StoragePathField))
  }
}
