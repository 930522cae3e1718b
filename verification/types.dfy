/** The conventional optional value, standing for `null`/`undefined` and for
    a settled promise that was rejected. */
module Wrappers {
  datatype Option<+T> = None | Some(value: T) {
    function GetOr(default: T): T {
      match this
      case Some(v) => v
      case None => default
    }
  }
}

/** Values shared by the Twitch service and its gates. */
module TwitchTypes {
  import opened Wrappers

  /** The identity published as `state.user` once `getMe` succeeds. */
  datatype User = User(id: string, name: string, avatar: string)

  /** `chatState.status`. */
  datatype ChatStatus = Disconnected | Connecting | Connected

  /** What the service can see of a chat client: the channel it was built for
      and the library's `isConnecting` / `isConnected` flags. */
  datatype ChatClient = ChatClient(channel: string, connecting: bool, connected: bool)

  /** One `chatClient.say(channel, text)` call. */
  datatype ChatLine = ChatLine(channel: string, text: string)

  datatype TextKind = Interim | Final

  /** A text event of the application's bus. A missing `textFieldType` is
      written as the empty string: both differ from "twitchChat". */
  datatype TextEvent = TextEvent(kind: TextKind, value: string, textFieldType: string)

  /** The flags of the service's persisted configuration that the core reads. */
  datatype Settings = Settings(
    chatEnable: bool,
    chatPostEnable: bool,
    chatPostLive: bool,
    chatReceiveEnable: bool)

  /** A chat client exists and is connected. */
  predicate IsConnected(client: Option<ChatClient>) {
    client.Some? && client.value.connected
  }

  /** A chat client exists and is connecting or connected: the re-entry guard of `chatConnect`. */
  predicate IsBusy(client: Option<ChatClient>) {
    client.Some? && (client.value.connecting || client.value.connected)
  }

  /** When `say` reaches the client: a non-empty user name is known and the client is connected. */
  predicate CanSay(user: Option<User>, client: Option<ChatClient>) {
    user.Some? && user.value.name != "" && IsConnected(client)
  }
}
