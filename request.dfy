/** What the login screen hands to the room repository, and the errors a join can end in. */
module Requests {

  /** `JoinParams`: the values a join is attempted with. */
  datatype JoinParams = JoinParams(roomId: string, roomKey: string, username: string, selectedIcon: string)

  /** `JoinError`: the failures of joining a room or renaming oneself in it, each with its message. */
  datatype JoinError =
    | NotSignedIn
    | InvalidKey
    | UsernameTaken
    | Banned
    | IconNotSelected
    | Unknown
    | Message(text: string)
  {
    /** The exception's `message`. */
    function Text(): string {
      match this
      case NotSignedIn => "サインインに失敗しました。"
      case InvalidKey => "roomKey が正しくありません。"
      case UsernameTaken => "このユーザー名は既に使われています。"
      case Banned => "このルームへの参加は禁止されています。"
      case IconNotSelected => "アイコンを指定してください。"
      case Unknown => "不明なエラーが発生しました。"
      case Message(text) => text
    }
  }
}
