/** The avatar icons a user can pick, by name, and their drawable resources. */
module Avatars {
  import opened Wrappers

  /** The avatar drawables bundled with the app. */
  datatype Drawable = Oomimigitsune | LesserPanda | Bear | Todo | Musasabi | Rakko {
    /** The icon name under which a user profile stores this avatar. */
    function Name(): string {
      match this
      case Oomimigitsune => "oomimigitsune"
      case LesserPanda => "lesser_panda"
      case Bear => "bear"
      case Todo => "todo"
      case Musasabi => "musasabi"
      case Rakko => "rakko"
    }
  }

  /** `avatarResId`: the drawable of a known icon name, and none for any other name or none. */
  function AvatarResId(name: Option<string>): (r: Option<Drawable>)
    ensures r.Some? ==> name == Some(r.value.Name())
    ensures r.None? ==> forall d: Drawable :: name != Some(d.Name())
  {
    match name
    case None => None
    case Some(n) =>
      if n == "oomimigitsune" then Some(Oomimigitsune)
      else if n == "lesser_panda" then Some(LesserPanda)
      else if n == "bear" then Some(Bear)
      else if n == "todo" then Some(Todo)
      else if n == "musasabi" then Some(Musasabi)
      else if n == "rakko" then Some(Rakko)
      else None
  }

  /** Each of the six names maps to its own drawable. */
  lemma AvatarNameRoundTrip(d: Drawable)
    ensures AvatarResId(Some(d.Name())) == Some(d)
  {
  }

  /** Different drawables have different names. */
  lemma NamesDistinct(a: Drawable, b: Drawable)
    requires a.Name() == b.Name()
    ensures a == b
  {
    AvatarNameRoundTrip(a);
    AvatarNameRoundTrip(b);
  }

  /** `resolveAvatarResId`: the drawable of the name, falling back to the lesser panda. */
  function ResolveAvatarResId(name: Option<string>): (d: Drawable)
    ensures AvatarResId(name).Some? ==> d == AvatarResId(name).value
    ensures AvatarResId(name).None? ==> d == LesserPanda
  {
    AvatarResId(name).GetOr(LesserPanda)
  }

  /** Resolving a known name agrees with `avatarResId`; a missing name shows the lesser panda. */
  lemma ResolveKnownName(d: Drawable)
    ensures ResolveAvatarResId(Some(d.Name())) == d
    ensures ResolveAvatarResId(None) == LesserPanda
  {
    AvatarNameRoundTrip(d);
  }
}
