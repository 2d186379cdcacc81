/**
 * `LoginViewModel`: the form state of the login screen, its field updaters,
 * and `join`, split at its suspension point into the synchronous validation
 * step and the completion that runs when `joinRoom` returns.
 */
module Login {
  import opened Wrappers
  import Text
  import opened Requests
  import Rooms

  /** `LoginUiState`. */
  datatype LoginUiState = LoginUiState(
    roomId: string,
    roomKey: string,
    username: string,
    selectedIcon: Option<string>,
    isLoading: bool,
    errorMessage: Option<string>)

  const ROOM_ID_REQUIRED: string := "ルームIDを入力してください"
  const ROOM_KEY_REQUIRED: string := "ルームキーを入力してください"
  const USERNAME_REQUIRED: string := "ユーザー名を入力してください"
  const ICON_REQUIRED: string := "アイコンを選択してください"
  const JOIN_FAILED_PREFIX: string := "入室に失敗しました: "

  /** The icon names offered by the picker. */
  const ICONS: seq<string> := ["avatar_1", "avatar_2", "avatar_3", "avatar_4", "avatar_5", "avatar_6",
                               "avatar_7", "avatar_8", "avatar_9", "avatar_10", "avatar_11", "avatar_12"]

  function InitialState(): LoginUiState {
    LoginUiState("", "", "", None, false, None)
  }

  /** The message of the first validation check `join` finds failing, if any. */
  function Validate(s: LoginUiState): (message: Option<string>)
    ensures message == Some(ROOM_ID_REQUIRED) <==> Text.IsBlank(s.roomId)
    ensures message == Some(ROOM_KEY_REQUIRED) <==> !Text.IsBlank(s.roomId) && Text.IsBlank(s.roomKey)
    ensures message == Some(USERNAME_REQUIRED) <==>
              !Text.IsBlank(s.roomId) && !Text.IsBlank(s.roomKey) && Text.IsBlank(s.username)
    ensures message == Some(ICON_REQUIRED) <==>
              !Text.IsBlank(s.roomId) && !Text.IsBlank(s.roomKey) && !Text.IsBlank(s.username) &&
              s.selectedIcon.None?
    ensures message.None? <==>
              !Text.IsBlank(s.roomId) && !Text.IsBlank(s.roomKey) && !Text.IsBlank(s.username) &&
              s.selectedIcon.Some?
  {
    if Text.IsBlank(s.roomId) then Some(ROOM_ID_REQUIRED)
    else if Text.IsBlank(s.roomKey) then Some(ROOM_KEY_REQUIRED)
    else if Text.IsBlank(s.username) then Some(USERNAME_REQUIRED)
    else if s.selectedIcon.None? then Some(ICON_REQUIRED)
    else None
  }

  /** A launched join: the state it captured and the parameters it sends. */
  datatype JoinLaunch = JoinLaunch(snapshot: LoginUiState, params: JoinParams)

  /** The text shown for a failed join: a `JoinError`'s own message, otherwise a prefixed one. */
  function FailureText(f: Rooms.Failure): (text: string)
    ensures f.JoinFailure? ==> text == f.error.Text()
    ensures !f.JoinFailure? ==> text == JOIN_FAILED_PREFIX + MessageText(f.Message())
  {
    match f
    case JoinFailure(e) => e.Text()
    case _ => JOIN_FAILED_PREFIX + MessageText(f.Message())
  }

  /** The synchronous part of `join`: the new state, and the launch when one is made. */
  function StartJoin(s: LoginUiState): (r: (LoginUiState, Option<JoinLaunch>))
    ensures s.isLoading ==> r == (s, None)
    ensures !s.isLoading && Validate(s).Some? ==> r == (s.(errorMessage := Validate(s)), None)
    ensures r.1.Some? <==> !s.isLoading && Validate(s).None?
    ensures r.1.Some? ==> r.0 == s.(isLoading := true, errorMessage := None) && r.1.value.snapshot == s
    ensures r.1.Some? ==> r.1.value.params == JoinParams(Text.Trim(s.roomId), Text.Trim(s.roomKey),
                                                        Text.Trim(s.username), s.selectedIcon.value)
  {
    if s.isLoading then (s, None)
    else
      match Validate(s)
      case Some(message) => (s.(errorMessage := Some(message)), None)
      case None =>
        var params := JoinParams(Text.Trim(s.roomId), Text.Trim(s.roomKey), Text.Trim(s.username),
                                 s.selectedIcon.value);
        (s.(isLoading := true, errorMessage := None), Some(JoinLaunch(s, params)))
  }

  /** The state `join` leaves once `joinRoom` has returned `outcome`. */
  function FinishJoin(launch: JoinLaunch, outcome: Result<(), Rooms.Failure>): (t: LoginUiState)
    ensures !t.isLoading
    ensures t.(isLoading := launch.snapshot.isLoading, errorMessage := launch.snapshot.errorMessage) == launch.snapshot
    ensures outcome.Ok? ==> t.errorMessage == launch.snapshot.errorMessage
    ensures outcome.Err? ==> t.errorMessage == Some(FailureText(outcome.error))
  {
    match outcome
    case Ok(_) => launch.snapshot.(isLoading := false)
    case Err(f) => launch.snapshot.(isLoading := false, errorMessage := Some(FailureText(f)))
  }

  /**
   * A form the screen accepts passes the repository's own checks, except for an
   * empty icon name, which the screen lets through and `joinRoom` answers with
   * `IconNotSelected`.
   */
  lemma ScreenValidationImpliesRepositoryValidation(s: LoginUiState)
    requires Validate(s).None?
    ensures var p := StartJoin(s.(isLoading := false)).1.value.params;
            Rooms.JoinInputsValid(p.roomId, p.roomKey, p.username, p.selectedIcon) <==> p.selectedIcon != []
  {
    var p := StartJoin(s.(isLoading := false)).1.value.params;
    Text.TrimIdempotent(s.roomId);
    Text.TrimIdempotent(s.roomKey);
    Text.TrimIdempotent(s.username);
  }

  /**
   * Completion restores the captured snapshot: edits made to the form while
   * the join was running are overwritten.
   */
  lemma CompletionForgetsEditsDuringJoin(s: LoginUiState, outcome: Result<(), Rooms.Failure>)
    requires StartJoin(s).1.Some?
    ensures var launch := StartJoin(s).1.value;
            FinishJoin(launch, outcome).roomId == s.roomId &&
            FinishJoin(launch, outcome).username == s.username &&
            FinishJoin(launch, outcome).selectedIcon == s.selectedIcon
  {
  }

  /** `LoginViewModel`, holding the `_uiState` flow's current value. */
  class LoginViewModel {
    var uiState: LoginUiState

    constructor()
      ensures uiState == InitialState()
    {
      uiState := InitialState();
    }

    /** `updateRoomId`: sets the field and clears the error. */
    method UpdateRoomId(value: string)
      modifies this
      ensures uiState == old(uiState).(roomId := value, errorMessage := None)
    {
      uiState := uiState.(roomId := value, errorMessage := None);
    }

    /** `updateRoomKey`: sets the field and clears the error. */
    method UpdateRoomKey(value: string)
      modifies this
      ensures uiState == old(uiState).(roomKey := value, errorMessage := None)
    {
      uiState := uiState.(roomKey := value, errorMessage := None);
    }

    /** `updateUsername`: sets the field and clears the error. */
    method UpdateUsername(value: string)
      modifies this
      ensures uiState == old(uiState).(username := value, errorMessage := None)
    {
      uiState := uiState.(username := value, errorMessage := None);
    }

    /** `selectIcon`: sets the icon and leaves any error on screen. */
    method SelectIcon(icon: string)
      modifies this
      ensures uiState == old(uiState).(selectedIcon := Some(icon))
    {
      uiState := uiState.(selectedIcon := Some(icon));
    }

    /**
     * `join` up to its launch: a no-op while loading; a failing check sets its
     * message; otherwise loading starts and the launch carries the trimmed
     * parameters.
     */
    method Join() returns (launch: Option<JoinLaunch>)
      modifies this
      ensures (uiState, launch) == StartJoin(old(uiState))
      ensures old(uiState).isLoading ==> uiState == old(uiState) && launch.None?
      ensures launch.None? ==> !uiState.isLoading || old(uiState).isLoading
    {
      var state := uiState;
      if state.isLoading {
        return None;
      }
      if Text.IsBlank(state.roomId) {
        uiState := state.(errorMessage := Some(ROOM_ID_REQUIRED));
        return None;
      }
      if Text.IsBlank(state.roomKey) {
        uiState := state.(errorMessage := Some(ROOM_KEY_REQUIRED));
        return None;
      }
      if Text.IsBlank(state.username) {
        uiState := state.(errorMessage := Some(USERNAME_REQUIRED));
        return None;
      }
      if state.selectedIcon.None? {
        uiState := state.(errorMessage := Some(ICON_REQUIRED));
        return None;
      }
      uiState := state.(isLoading := true, errorMessage := None);
      var params := JoinParams(Text.Trim(state.roomId), Text.Trim(state.roomKey), Text.Trim(state.username),
                               state.selectedIcon.value);
      launch := Some(JoinLaunch(state, params));
    }

    /** The rest of `join`: the room to open on success, and the restored state. */
    method CompleteJoin(launch: JoinLaunch, outcome: Result<(), Rooms.Failure>) returns (joinedRoom: Option<string>)
      modifies this
      ensures uiState == FinishJoin(launch, outcome)
      ensures joinedRoom.Some? <==> outcome.Ok?
      ensures joinedRoom.Some? ==> joinedRoom.value == launch.params.roomId
    {
      match outcome {
        case Ok(_) =>
          uiState := launch.snapshot.(isLoading := false);
          joinedRoom := Some(launch.params.roomId);
        case Err(f) =>
          uiState := launch.snapshot.(isLoading := false, errorMessage := Some(FailureText(f)));
          joinedRoom := None;
      }
    }
  }
}
