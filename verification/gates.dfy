/** What crosses between the application's text bus and the chat channel. */
module Gates {
  import opened Wrappers
  import opened TwitchTypes

  /** The `textFieldType` of events republished from chat. */
  const ChatFieldType: string := "twitchChat"

  /** The outbound gate of the `chatPostSource` subscription: not held back by
      "post only while live", client connected, posting enabled, a non-empty
      value and a final event. */
  predicate PostsSourceEvent(cfg: Settings, connected: bool, live: bool, ev: TextEvent) {
    && !(cfg.chatPostLive && !live)
    && connected
    && cfg.chatPostEnable
    && ev.value != ""
    && ev.kind == Final
  }

  /** The outbound gate of the `chatPostInput` subscription: the same
      conditions, and the event must not come from the chat itself. */
  predicate PostsInputEvent(cfg: Settings, connected: bool, live: bool, ev: TextEvent) {
    && !(cfg.chatPostLive && !live)
    && connected
    && cfg.chatPostEnable
    && ev.textFieldType != ChatFieldType
    && ev.value != ""
    && ev.kind == Final
  }

  /** The inbound filter of `onMessage`: only the session owner's own messages,
      and only while receiving is enabled. */
  predicate RepublishesMessage(cfg: Settings, user: Option<User>, authorId: string) {
    user.Some? && authorId == user.value.id && cfg.chatReceiveEnable
  }

  /** The text event a republished chat message becomes. */
  function InboundEvent(content: string): TextEvent
  {
    TextEvent(Final, content, ChatFieldType)
  }

  /** The two outbound paths differ only by the echo guard of the input path. */
  lemma InputPathIsSourcePathWithEchoGuard(cfg: Settings, connected: bool, live: bool, ev: TextEvent)
    ensures PostsInputEvent(cfg, connected, live, ev)
        <==> PostsSourceEvent(cfg, connected, live, ev) && ev.textFieldType != ChatFieldType
  {
  }

  /** No echo loop: a chat message republished on the bus is never posted back
      through the input path. */
  lemma NoEchoThroughInput(cfg: Settings, connected: bool, live: bool, content: string)
    ensures !PostsInputEvent(cfg, connected, live, InboundEvent(content))
  {
  }

  /** With "post only while live" set, nothing is posted while not live, and
      the same event passes once live when every other condition holds. */
  lemma PostOnlyWhileLive(cfg: Settings, connected: bool, ev: TextEvent)
    requires cfg.chatPostLive
    ensures !PostsSourceEvent(cfg, connected, false, ev)
    ensures !PostsInputEvent(cfg, connected, false, ev)
    ensures PostsSourceEvent(cfg, connected, true, ev)
        <==> connected && cfg.chatPostEnable && ev.value != "" && ev.kind == Final
  {
  }
}
