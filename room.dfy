/**
 * `RoomRepository`: joining a room, renaming oneself in it and reading a
 * member's profile. Every answer of Firebase (sign-in, the membership and
 * ban reads, the transaction commit) is an input; the member document the
 * repository writes is the result.
 */
module Rooms {
  import opened Wrappers
  import Text
  import Sessions
  import opened Requests

  /** `FirebaseFirestoreException.Code`. */
  datatype FirestoreCode =
    | OK | CANCELLED | UNKNOWN | INVALID_ARGUMENT | DEADLINE_EXCEEDED | NOT_FOUND
    | ALREADY_EXISTS | PERMISSION_DENIED | RESOURCE_EXHAUSTED | FAILED_PRECONDITION
    | ABORTED | OUT_OF_RANGE | UNIMPLEMENTED | INTERNAL | UNAVAILABLE | DATA_LOSS
    | UNAUTHENTICATED

  /** The exceptions a repository call can end in, by the classes `mapJoinError` tells apart. */
  datatype Failure =
    | JoinFailure(error: JoinError)
    | FirestoreFailure(code: FirestoreCode, message: Option<string>)
    | AuthFailure(errorCode: string, message: Option<string>)
    | IOFailure(message: Option<string>)
    | IllegalArgument(message: Option<string>)
    | OtherFailure(message: Option<string>)
  {
    /** The exception's `message`. */
    function Message(): Option<string> {
      match this
      case JoinFailure(e) => Some(e.Text())
      case FirestoreFailure(_, m) => m
      case AuthFailure(_, m) => m
      case IOFailure(m) => m
      case IllegalArgument(m) => m
      case OtherFailure(m) => m
    }
  }

  const ROOM_ID_REQUIRED: string := "ルームIDを入力してください。"
  const ROOM_KEY_REQUIRED: string := "入室キーを入力してください。"
  const USERNAME_REQUIRED: string := "ユーザー名を入力してください。"
  /** `changeUsername`'s message for a blank name (no closing full stop). */
  const NEW_USERNAME_REQUIRED: string := "ユーザー名を入力してください"

  const ACCESS_DENIED: string := "入室に失敗しました。ルームIDまたは入室キーが正しいか確認してください。"
  const ROOM_NOT_FOUND: string := "指定のルームが見つかりませんでした。ルームIDをご確認ください。"
  const TIMED_OUT: string := "タイムアウトしました。通信環境を確認して、もう一度お試しください。"
  const SERVER_UNREACHABLE: string := "サーバーに接続できませんでした。しばらくしてから再度お試しください。"
  const CANCELLED_MESSAGE: string := "操作がキャンセルされました。再度お試しください。"
  const JOIN_FAILED: string := "入室に失敗しました。しばらくしてから再度お試しください。"
  const AUTH_NETWORK: string := "ネットワークエラーのためサインインできませんでした。通信状況を確認して再度お試しください。"
  const AUTH_THROTTLED: string := "リクエストが集中しています。時間をおいて再度お試しください。"
  const SIGN_IN_FAILED: string := "サインインに失敗しました。もう一度お試しください。"
  const OFFLINE: string := "ネットワークに接続できません。通信環境を確認して再度お試しください。"

  /** The Firestore codes `mapJoinError` has a message of its own for. */
  predicate ExplainedCode(code: FirestoreCode) {
    code in {PERMISSION_DENIED, NOT_FOUND, DEADLINE_EXCEEDED, UNAVAILABLE, CANCELLED}
  }

  /** The Firebase Auth error codes `mapJoinError` has a message of its own for. */
  predicate ExplainedAuthCode(errorCode: string) {
    errorCode == "ERROR_NETWORK_REQUEST_FAILED" || errorCode == "ERROR_TOO_MANY_REQUESTS"
  }

  /** `mapJoinError`: turns any failure of a join step into a message the user can read. */
  function MapJoinError(f: Failure): (e: JoinError)
    ensures e.Message?
    ensures f.FirestoreFailure? && !ExplainedCode(f.code) ==> e.text == JOIN_FAILED
    ensures f.AuthFailure? && !ExplainedAuthCode(f.errorCode) ==> e.text == SIGN_IN_FAILED
    ensures f.IOFailure? ==> e.text == OFFLINE
    ensures f.JoinFailure? || f.IllegalArgument? || f.OtherFailure? ==> e.text == JOIN_FAILED
    ensures f.FirestoreFailure? && f.code == PERMISSION_DENIED ==> e.text == ACCESS_DENIED
    ensures f.FirestoreFailure? && f.code == NOT_FOUND ==> e.text == ROOM_NOT_FOUND
    ensures f.FirestoreFailure? && f.code == DEADLINE_EXCEEDED ==> e.text == TIMED_OUT
    ensures f.FirestoreFailure? && f.code == UNAVAILABLE ==> e.text == SERVER_UNREACHABLE
    ensures f.FirestoreFailure? && f.code == CANCELLED ==> e.text == CANCELLED_MESSAGE
    ensures f.AuthFailure? && f.errorCode == "ERROR_NETWORK_REQUEST_FAILED" ==> e.text == AUTH_NETWORK
    ensures f.AuthFailure? && f.errorCode == "ERROR_TOO_MANY_REQUESTS" ==> e.text == AUTH_THROTTLED
  {
    match f
    case FirestoreFailure(code, _) =>
      Message(
        match code
        case PERMISSION_DENIED => ACCESS_DENIED
        case NOT_FOUND => ROOM_NOT_FOUND
        case DEADLINE_EXCEEDED => TIMED_OUT
        case UNAVAILABLE => SERVER_UNREACHABLE
        case CANCELLED => CANCELLED_MESSAGE
        case _ => JOIN_FAILED)
    case AuthFailure(errorCode, _) =>
      Message(
        if errorCode == "ERROR_NETWORK_REQUEST_FAILED" then AUTH_NETWORK
        else if errorCode == "ERROR_TOO_MANY_REQUESTS" then AUTH_THROTTLED
        else SIGN_IN_FAILED)
    case IOFailure(_) => Message(OFFLINE)
    case _ => Message(JOIN_FAILED)
  }

  /**
   * The generic message is given exactly to the failures `mapJoinError` does
   * not recognise: unlisted Firestore codes and anything that is neither a
   * Firestore, an Auth nor an I/O failure.
   */
  lemma GenericJoinMessage(f: Failure)
    ensures MapJoinError(f).text == JOIN_FAILED <==>
              (f.FirestoreFailure? && !ExplainedCode(f.code)) ||
              f.JoinFailure? || f.IllegalArgument? || f.OtherFailure?
  {
    var e := MapJoinError(f);
    if f.FirestoreFailure? && ExplainedCode(f.code) {
      assert e.text[0] != JOIN_FAILED[0] || e.text[10] != JOIN_FAILED[10];
    } else if f.AuthFailure? {
      assert e.text in {AUTH_NETWORK, AUTH_THROTTLED, SIGN_IN_FAILED};
      assert |AUTH_NETWORK| != |JOIN_FAILED|;
      assert AUTH_THROTTLED[0] != JOIN_FAILED[0] && SIGN_IN_FAILED[0] != JOIN_FAILED[0];
    } else if f.IOFailure? {
      assert e.text[0] != JOIN_FAILED[0];
    }
  }

  /** Each listed Firestore code has its own message: the message determines the code. */
  lemma ExplainedCodesDistinct(f: Failure, g: Failure)
    requires f.FirestoreFailure? && ExplainedCode(f.code)
    requires g.FirestoreFailure? && ExplainedCode(g.code)
    requires MapJoinError(f) == MapJoinError(g)
    ensures f.code == g.code
  {
  }

  /** The member document a call writes to `rooms/{roomId}/members/{uid}`. */
  datatype MemberWrite =
    /** A merge into an existing member: `username`, `userIcon` and `updatedAt` only. */
    | MergeProfile(username: string, userIcon: string)
    /** A whole new member document (`joinedAt`, `lastSignedInAt` and `updatedAt` are server timestamps). */
    | CreateMember(username: string, usernameLower: string, role: string, isBanned: bool,
                   mutedUntil: Option<int>, providedKey: string, userIcon: string)
    /** `changeUsername`'s merge: `username` and `updatedAt` only. */
    | Rename(username: string)

  /** A committed write and the document it went to. */
  datatype MemberCommit = MemberCommit(roomId: string, uid: string, write: MemberWrite)

  /** The checks `joinRoom` makes before touching the network, on trimmed room id, key and name. */
  predicate JoinInputsValid(roomId: string, roomKey: string, username: string, userIcon: string) {
    Text.Trim(roomId) != [] && Text.Trim(roomKey) != [] && Text.Trim(username) != [] && userIcon != []
  }

  /**
   * `signInAnonymouslyIfNeeded` as seen by `joinRoom`: a sign-in that yields
   * no user throws `NotSignedIn`, and every failure goes through `mapJoinError`.
   */
  function SignedInUid(signIn: Result<Option<string>, Failure>): (r: Result<string, JoinError>)
    ensures r.Ok? <==> signIn.Ok? && signIn.value.Some?
    ensures r.Ok? ==> r.value == signIn.value.value
    ensures r.Err? ==> r.error.Message?
  {
    match signIn
    case Err(f) => Err(MapJoinError(f))
    case Ok(None) => Err(MapJoinError(JoinFailure(NotSignedIn)))
    case Ok(Some(uid)) => Ok(uid)
  }

  /**
   * `joinRoom`. `signIn` is the uid sign-in produced, `existed` whether the
   * member document exists, `banCheck` the member's `isBanned` field as read
   * (none when absent), and `commit` how the transaction ended.
   */
  function JoinRoom(roomId: string, roomKey: string, username: string, userIcon: string,
                    signIn: Result<Option<string>, Failure>, existed: Result<bool, Failure>,
                    banCheck: Result<Option<bool>, Failure>, commit: Result<(), Failure>)
    : (r: Result<MemberCommit, JoinError>)
    ensures Text.IsBlank(roomId) ==> r == Err(Message(ROOM_ID_REQUIRED))
    ensures !Text.IsBlank(roomId) && Text.IsBlank(roomKey) ==> r == Err(Message(ROOM_KEY_REQUIRED))
    ensures !Text.IsBlank(roomId) && !Text.IsBlank(roomKey) && Text.IsBlank(username) ==>
              r == Err(Message(USERNAME_REQUIRED))
    ensures !Text.IsBlank(roomId) && !Text.IsBlank(roomKey) && !Text.IsBlank(username) && userIcon == [] ==>
              r == Err(IconNotSelected)
    ensures r.Err? ==> r.error.Message? || r.error == IconNotSelected || r.error == Banned
    ensures r.Err? && r.error == Banned ==> existed == Ok(true) && banCheck == Ok(Some(true))
    ensures r.Ok? ==> JoinInputsValid(roomId, roomKey, username, userIcon)
    ensures r.Ok? ==> signIn == Ok(Some(r.value.uid)) && r.value.roomId == Text.Trim(roomId) && commit.Ok?
    ensures r.Ok? ==> existed.Ok? && (r.value.write.CreateMember? <==> !existed.value)
    ensures r.Ok? ==> r.value.write.username == Text.Trim(username) && !r.value.write.Rename?
    ensures JoinInputsValid(roomId, roomKey, username, userIcon) && signIn.Err? ==>
              r == Err(MapJoinError(signIn.error))
    ensures JoinInputsValid(roomId, roomKey, username, userIcon) && signIn == Ok(None) ==>
              r == Err(MapJoinError(JoinFailure(NotSignedIn)))
    ensures (JoinInputsValid(roomId, roomKey, username, userIcon) && signIn.Ok? && signIn.value.Some? &&
             existed.Err?) ==> r == Err(MapJoinError(existed.error))
    ensures (JoinInputsValid(roomId, roomKey, username, userIcon) && signIn.Ok? && signIn.value.Some? &&
             existed.Ok? && !(existed.value && banCheck == Ok(Some(true))) && commit.Err?) ==>
              r == Err(MapJoinError(commit.error))
    ensures r.Ok? <==> JoinInputsValid(roomId, roomKey, username, userIcon) && signIn.Ok? && signIn.value.Some? &&
                       existed.Ok? && !(existed.value && banCheck == Ok(Some(true))) && commit.Ok?
  {
    var roomIdSan := Text.Trim(roomId);
    var roomKeySan := Text.Trim(roomKey);
    var userNameSan := Text.Trim(username);
    if roomIdSan == [] then Err(Message(ROOM_ID_REQUIRED))
    else if roomKeySan == [] then Err(Message(ROOM_KEY_REQUIRED))
    else if userNameSan == [] then Err(Message(USERNAME_REQUIRED))
    else if userIcon == [] then Err(IconNotSelected)
    else
      match SignedInUid(signIn)
      case Err(e) => Err(e)
      case Ok(uid) =>
        match existed
        case Err(f) => Err(MapJoinError(f))
        case Ok(wasMember) =>
          if wasMember && banCheck == Ok(Some(true)) then Err(Banned)
          else
            match commit
            case Err(f) => Err(MapJoinError(f))
            case Ok(_) =>
              var write :=
                if wasMember then MergeProfile(userNameSan, userIcon)
                else CreateMember(userNameSan, Text.Lowercase(userNameSan), Sessions.MEMBER_ROLE, false,
                                  None, roomKeySan, userIcon);
              Ok(MemberCommit(roomIdSan, uid, write))
  }

  /** Invalid input is rejected before any network call: the Firebase answers cannot change the outcome. */
  lemma ValidationPrecedesNetwork(roomId: string, roomKey: string, username: string, userIcon: string,
                                  signIn: Result<Option<string>, Failure>, existed: Result<bool, Failure>,
                                  banCheck: Result<Option<bool>, Failure>, commit: Result<(), Failure>,
                                  signIn': Result<Option<string>, Failure>, existed': Result<bool, Failure>,
                                  banCheck': Result<Option<bool>, Failure>, commit': Result<(), Failure>)
    requires !JoinInputsValid(roomId, roomKey, username, userIcon)
    ensures JoinRoom(roomId, roomKey, username, userIcon, signIn, existed, banCheck, commit)
         == JoinRoom(roomId, roomKey, username, userIcon, signIn', existed', banCheck', commit')
    ensures JoinRoom(roomId, roomKey, username, userIcon, signIn, existed, banCheck, commit).Err?
  {
  }

  /** An existing member whose document says `isBanned` is turned away with `Banned`, whatever the commit would do. */
  lemma BannedMemberRejected(roomId: string, roomKey: string, username: string, userIcon: string,
                             uid: string, commit: Result<(), Failure>)
    requires JoinInputsValid(roomId, roomKey, username, userIcon)
    ensures JoinRoom(roomId, roomKey, username, userIcon, Ok(Some(uid)), Ok(true), Ok(Some(true)), commit)
         == Err(Banned)
  {
  }

  /** A ban check that fails, or finds no `isBanned` field, lets the join go on as if the flag were false. */
  lemma BanCheckFailureIgnored(roomId: string, roomKey: string, username: string, userIcon: string,
                               signIn: Result<Option<string>, Failure>, existed: Result<bool, Failure>,
                               banCheck: Result<Option<bool>, Failure>, commit: Result<(), Failure>)
    requires banCheck.Err? || banCheck == Ok(None)
    ensures JoinRoom(roomId, roomKey, username, userIcon, signIn, existed, banCheck, commit)
         == JoinRoom(roomId, roomKey, username, userIcon, signIn, existed, Ok(Some(false)), commit)
  {
  }

  /**
   * A first join creates a plain, unbanned, unmuted member holding the
   * trimmed key for the security rules to check, and the lowercased name.
   */
  lemma NewMemberDocument(roomId: string, roomKey: string, username: string, userIcon: string,
                          signIn: Result<Option<string>, Failure>, banCheck: Result<Option<bool>, Failure>,
                          commit: Result<(), Failure>)
    requires JoinRoom(roomId, roomKey, username, userIcon, signIn, Ok(false), banCheck, commit).Ok?
    ensures var w := JoinRoom(roomId, roomKey, username, userIcon, signIn, Ok(false), banCheck, commit).value.write;
            w == CreateMember(Text.Trim(username), Text.Lowercase(Text.Trim(username)), Sessions.MEMBER_ROLE,
                              false, None, Text.Trim(roomKey), userIcon)
    ensures var w := JoinRoom(roomId, roomKey, username, userIcon, signIn, Ok(false), banCheck, commit).value.write;
            w.providedKey != [] && |w.usernameLower| == |w.username| > 0
  {
  }

  /** A returning member's join only merges the trimmed name and the icon; the key is not sent again. */
  lemma ReturningMemberDocument(roomId: string, roomKey: string, username: string, userIcon: string,
                                signIn: Result<Option<string>, Failure>, banCheck: Result<Option<bool>, Failure>,
                                commit: Result<(), Failure>)
    requires JoinRoom(roomId, roomKey, username, userIcon, signIn, Ok(true), banCheck, commit).Ok?
    ensures JoinRoom(roomId, roomKey, username, userIcon, signIn, Ok(true), banCheck, commit).value.write
         == MergeProfile(Text.Trim(username), userIcon)
    ensures banCheck != Ok(Some(true))
  {
  }

  /** A sign-in that returns no user is reported with the generic join message, not `NotSignedIn`'s own. */
  lemma MissingUserGenericMessage(roomId: string, roomKey: string, username: string, userIcon: string,
                                  existed: Result<bool, Failure>, banCheck: Result<Option<bool>, Failure>,
                                  commit: Result<(), Failure>)
    requires JoinInputsValid(roomId, roomKey, username, userIcon)
    ensures JoinRoom(roomId, roomKey, username, userIcon, Ok(None), existed, banCheck, commit)
         == Err(Message(JOIN_FAILED))
  {
  }

  /**
   * `changeUsername`. `uid` is the signed-in user, if any; `commit` is how
   * the transaction ended. Firestore failures become `UsernameTaken` or
   * `Unknown`; other failures propagate unchanged.
   */
  function ChangeUsername(roomId: string, newUsername: string, uid: Option<string>, commit: Result<(), Failure>)
    : (r: Result<MemberCommit, Failure>)
    ensures uid.None? ==> r == Err(JoinFailure(NotSignedIn))
    ensures uid.Some? && Text.IsBlank(newUsername) ==> r == Err(IllegalArgument(Some(NEW_USERNAME_REQUIRED)))
    ensures r.Ok? <==> uid.Some? && !Text.IsBlank(newUsername) && commit.Ok?
    ensures r.Ok? ==> r.value == MemberCommit(Text.Trim(roomId), uid.value, Rename(Text.Trim(newUsername)))
    ensures uid.Some? && !Text.IsBlank(newUsername) && commit.Err? ==>
              r.Err? && (commit.error.FirestoreFailure? <==> r.error.JoinFailure? && !commit.error.JoinFailure?)
  {
    match uid
    case None => Err(JoinFailure(NotSignedIn))
    case Some(u) =>
      var roomIdSan := Text.Trim(roomId);
      var usernameSan := Text.Trim(newUsername);
      if usernameSan == [] then Err(IllegalArgument(Some(NEW_USERNAME_REQUIRED)))
      else
        match commit
        case Ok(_) => Ok(MemberCommit(roomIdSan, u, Rename(usernameSan)))
        case Err(f) =>
          if f.FirestoreFailure? then
            Err(JoinFailure(if f.code == PERMISSION_DENIED then UsernameTaken else Unknown))
          else Err(f)
  }

  /** A denied rename is read as a taken name; any other Firestore failure is `Unknown`. */
  lemma RenameFirestoreErrors(roomId: string, newUsername: string, uid: string, code: FirestoreCode,
                              message: Option<string>)
    requires !Text.IsBlank(newUsername)
    ensures var r := ChangeUsername(roomId, newUsername, Some(uid), Err(FirestoreFailure(code, message)));
            r == Err(JoinFailure(if code == PERMISSION_DENIED then UsernameTaken else Unknown))
  {
  }

  /** A rename failure that is not from Firestore reaches the caller as it was thrown. */
  lemma RenameOtherErrorsPropagate(roomId: string, newUsername: string, uid: string, f: Failure)
    requires !Text.IsBlank(newUsername) && !f.FirestoreFailure?
    ensures ChangeUsername(roomId, newUsername, Some(uid), Err(f)) == Err(f)
  {
  }

  /** The `username` and `userIcon` fields of a member document that exists. */
  datatype MemberFields = MemberFields(username: Option<string>, userIcon: Option<string>)

  /**
   * `fetchRoomUser`: `read` is the member document (none when it does not
   * exist) or the failure of the read, which is rethrown.
   */
  function FetchRoomUser(read: Result<Option<MemberFields>, Failure>): (r: Result<Option<(string, Option<string>)>, Failure>)
    ensures r.Err? <==> read.Err?
    ensures r.Err? ==> r.error == read.error
    ensures r.Ok? && r.value.Some? <==> read.Ok? && read.value.Some? && read.value.value.username.Some? &&
                                         read.value.value.username.value != []
    ensures r.Ok? && r.value.Some? ==>
              r.value.value == (read.value.value.username.value, read.value.value.userIcon)
  {
    match read
    case Err(f) => Err(f)
    case Ok(None) => Ok(None)
    case Ok(Some(doc)) =>
      if doc.username.None? || doc.username.value == [] then Ok(None)
      else Ok(Some((doc.username.value, doc.userIcon)))
  }
}
