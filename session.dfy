/**
 * The signed-in session and room membership values and their derived flags:
 * `Session` (logged in, joined a room, the name and icon to show) and
 * `RoomMember` (role and mute state). Timestamps are milliseconds since the
 * epoch; the current time is a parameter.
 */
module Sessions {
  import opened Wrappers

  /** A user profile. */
  datatype AppUser = AppUser(id: string, name: string, icon: string, createdAt: Option<int>)

  /** A member of a room. */
  datatype RoomMember = RoomMember(
    id: string,
    username: string,
    usernameLower: string,
    userIcon: string,
    role: string,
    joinedAt: Option<int>,
    lastSignedInAt: Option<int>,
    isBanned: bool,
    mutedUntil: Option<int>)

  const OWNER_ROLE: string := "owner"
  const ADMIN_ROLE: string := "admin"
  const MEMBER_ROLE: string := "member"

  /** A member built with only an id and a name: every other field takes its default. */
  function DefaultMember(id: string, username: string): (m: RoomMember)
    ensures m.id == id && m.username == username
    ensures m.role == MEMBER_ROLE && !m.isBanned && m.mutedUntil.None?
  {
    RoomMember(id, username, "", "", MEMBER_ROLE, None, None, false, None)
  }

  predicate IsOwner(m: RoomMember) {
    m.role == OWNER_ROLE
  }

  predicate IsAdmin(m: RoomMember) {
    m.role == ADMIN_ROLE
  }

  predicate IsMember(m: RoomMember) {
    m.role == MEMBER_ROLE
  }

  /** `isMuted` at time `now`: muted while the mute end lies in the future. */
  predicate IsMuted(m: RoomMember, now: int) {
    match m.mutedUntil
    case None => false
    case Some(until) => until > now
  }

  /** A member has at most one of the three roles, and possibly none (any other role string). */
  lemma RolesExclusive(m: RoomMember)
    ensures !(IsOwner(m) && IsAdmin(m)) && !(IsOwner(m) && IsMember(m)) && !(IsAdmin(m) && IsMember(m))
  {
    assert OWNER_ROLE[0] != ADMIN_ROLE[0] && OWNER_ROLE[0] != MEMBER_ROLE[0] && ADMIN_ROLE[0] != MEMBER_ROLE[0];
  }

  /** A member with the default role is a plain member, neither owner nor admin. */
  lemma DefaultIsMember(id: string, username: string)
    ensures IsMember(DefaultMember(id, username))
    ensures !IsOwner(DefaultMember(id, username)) && !IsAdmin(DefaultMember(id, username))
  {
    RolesExclusive(DefaultMember(id, username));
  }

  /** A mute ends: once `now` reaches the mute end, the member is no longer muted, and never was without one. */
  lemma MuteExpires(m: RoomMember, now: int, later: int)
    requires now <= later
    ensures IsMuted(m, later) ==> IsMuted(m, now)
    ensures m.mutedUntil.None? ==> !IsMuted(m, now)
    ensures m.mutedUntil.Some? ==> (IsMuted(m, now) <==> now < m.mutedUntil.value)
  {
  }

  /** The current session: the signed-in uid ("" when signed out), profile, room and membership. */
  datatype Session = Session(uid: string, user: Option<AppUser>, roomId: Option<string>, member: Option<RoomMember>)

  const GUEST_NAME: string := "ゲスト"
  const DEFAULT_ICON: string := "👤"

  predicate IsLoggedIn(s: Session) {
    s.uid != ""
  }

  predicate HasJoinedRoom(s: Session) {
    s.roomId.Some? && s.member.Some?
  }

  /** `displayName`: the profile's name, else the member's name, else the guest name. */
  function DisplayName(s: Session): (name: string)
    ensures s.user.Some? ==> name == s.user.value.name
    ensures s.user.None? && s.member.Some? ==> name == s.member.value.username
    ensures s.user.None? && s.member.None? ==> name == GUEST_NAME
  {
    if s.user.Some? then s.user.value.name
    else if s.member.Some? then s.member.value.username
    else GUEST_NAME
  }

  /** `displayIcon`: the profile's icon, else the member's icon, else the default icon. */
  function DisplayIcon(s: Session): (icon: string)
    ensures s.user.Some? ==> icon == s.user.value.icon
    ensures s.user.None? && s.member.Some? ==> icon == s.member.value.userIcon
    ensures s.user.None? && s.member.None? ==> icon == DEFAULT_ICON
  {
    if s.user.Some? then s.user.value.icon
    else if s.member.Some? then s.member.value.userIcon
    else DEFAULT_ICON
  }

  /** `Session.empty`, the signed-out session. */
  function Empty(): (s: Session)
    ensures !IsLoggedIn(s) && !HasJoinedRoom(s)
    ensures DisplayName(s) == GUEST_NAME && DisplayIcon(s) == DEFAULT_ICON
  {
    Session("", None, None, None)
  }
}
