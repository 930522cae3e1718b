/** `Service_Twitch`: session, chat connection, text bridge, emote registry
    and live-check timer, with the network clients replaced by the outcomes
    they deliver. */
module Twitch {
  import opened Wrappers
  import opened TwitchTypes
  import opened Text
  import opened Auth
  import opened Emotes
  import opened Gates

  /** What the awaited calls of `connect` deliver: the identity (`getMe` and
      `getStream`; `None` when either throws), the two first-party emote
      lists (`None` when the fetch throws) and the six third-party providers. */
  datatype ConnectOutcomes = ConnectOutcomes(
    identity: Option<User>,
    channelEmotes: Option<seq<HelixEmote>>,
    globalEmotes: Option<seq<HelixEmote>>,
    providers: ProviderResults)
  {
    /** No awaited call of the sequence throws. */
    predicate Succeeds() {
      identity.Some? && channelEmotes.Some? && globalEmotes.Some?
    }
  }

  class Service {
    /** The persisted `token` of the service's configuration. */
    var token: string
    /** `state.user` */
    var user: Option<User>
    /** `state.live` */
    var live: bool
    /** `chatState.status` */
    var status: ChatStatus
    /** `chatClient` */
    var client: Option<ChatClient>
    /** whether `apiClient` is set */
    var hasApiClient: bool
    var emotes: EmoteMap
    /** `liveCheckInterval`: the last handle `setInterval` returned */
    var liveCheck: Option<nat>
    /** the next handle `setInterval` hands out */
    var nextHandle: nat

    /** The interval handles that are running. */
    ghost var activeTimers: set<nat>
    /** Every `chatClient.say` call, in order. */
    ghost var said: seq<ChatLine>
    /** Every text event published on the bus, in order. */
    ghost var published: seq<TextEvent>
    /** How many times `chatClient.connect()` was called. */
    ghost var connectRequests: nat
    /** How many times `chatClient.quit()` was called. */
    ghost var quitRequests: nat

    /** At most one live-check timer runs, and it is the one `liveCheck` holds;
        `live` is never set; a client is never connecting and connected at once. */
    ghost predicate Valid()
      reads this
    {
      && (liveCheck.None? ==> activeTimers == {})
      && (liveCheck.Some? ==> activeTimers <= {liveCheck.value} && liveCheck.value < nextHandle)
      && !live
      && (client.Some? ==> !(client.value.connecting && client.value.connected))
    }

    constructor (savedToken: string)
      ensures Valid()
      ensures token == savedToken && user == None && !live && status == Disconnected
      ensures client == None && !hasApiClient && emotes == map[]
      ensures liveCheck == None && activeTimers == {}
      ensures said == [] && published == [] && connectRequests == 0 && quitRequests == 0
    {
      token := savedToken;
      user := None;
      live := false;
      status := Disconnected;
      client := None;
      hasApiClient := false;
      emotes := map[];
      liveCheck := None;
      nextHandle := 0;
      activeTimers := {};
      said := [];
      published := [];
      connectRequests := 0;
      quitRequests := 0;
    }

    /** `chatConnect`: a no-op while the client is connecting or connected;
        otherwise the status becomes connecting and the client, if any, is
        asked to connect. */
    method ChatConnect()
      requires Valid()
      modifies this`status, this`client, this`connectRequests
      ensures Valid()
      ensures IsBusy(old(client)) ==>
        status == old(status) && client == old(client) && connectRequests == old(connectRequests)
      ensures !IsBusy(old(client)) ==> status == Connecting
      ensures !IsBusy(old(client)) && old(client).Some? ==>
        client == Some(old(client).value.(connecting := true)) && connectRequests == old(connectRequests) + 1
      ensures old(client).None? ==> client == None && connectRequests == old(connectRequests)
    {
      if client.Some? && (client.value.connecting || client.value.connected) {
        return;
      }
      status := Connecting;
      if client.Some? {
        client := Some(client.value.(connecting := true));
        connectRequests := connectRequests + 1;
      }
    }

    /** `chatDisconnect`: asks the client, if any, to quit; the status follows
        only when the transport reports the disconnect. */
    method ChatDisconnect()
      modifies this`quitRequests
      ensures quitRequests == old(quitRequests) + (if client.Some? then 1 else 0)
    {
      if client.Some? {
        quitRequests := quitRequests + 1;
      }
    }

    /** The `chatEnable` subscription of `init`. */
    method OnChatEnable(value: bool)
      requires Valid()
      modifies this`status, this`client, this`connectRequests, this`quitRequests
      ensures Valid()
      ensures value ==> quitRequests == old(quitRequests)
      ensures value && !IsBusy(old(client)) ==> status == Connecting
      ensures value && IsBusy(old(client)) ==>
        status == old(status) && client == old(client) && connectRequests == old(connectRequests)
      ensures value && !IsBusy(old(client)) && old(client).Some? ==>
        client == Some(old(client).value.(connecting := true)) && connectRequests == old(connectRequests) + 1
      ensures value && old(client).None? ==> client == None && connectRequests == old(connectRequests)
      ensures !value ==> status == old(status) && client == old(client) && connectRequests == old(connectRequests)
      ensures !value ==> quitRequests == old(quitRequests) + (if client.Some? then 1 else 0)
    {
      if value {
        ChatConnect();
      } else {
        ChatDisconnect();
      }
    }

    /** The `onConnect` handler: the only way to the connected status. It
        sets the status whenever the transport reports a connection. */
    method OnTransportConnect()
      requires Valid() && client.Some?
      modifies this`status, this`client
      ensures Valid()
      ensures status == Connected
      ensures client == Some(old(client).value.(connecting := false, connected := true))
    {
      client := Some(client.value.(connecting := false, connected := true));
      status := Connected;
    }

    /** The `onDisconnect` handler, for a disconnect from either side or a
        failed attempt: the only way back to the disconnected status. */
    method OnTransportDisconnect()
      requires Valid() && client.Some?
      modifies this`status, this`client
      ensures Valid()
      ensures status == Disconnected
      ensures client == Some(old(client).value.(connecting := false, connected := false))
    {
      client := Some(client.value.(connecting := false, connected := false));
      status := Disconnected;
    }

    /** `say`: reaches the chat, on the user's own channel, only when a user
        name is known and the client is connected. */
    method Say(value: string)
      modifies this`said
      ensures said == old(said) + (if CanSay(user, client) then [ChatLine(user.value.name, value)] else [])
    {
      if user.Some? && user.value.name != "" && client.Some? && client.value.connected {
        said := said + [ChatLine(user.value.name, value)];
      }
    }

    /** The `chatPostSource` subscription of `init`. Since `live` is never set,
        "post only while live" holds back every event. */
    method OnSourceEvent(cfg: Settings, ev: TextEvent)
      requires Valid()
      modifies this`said
      ensures said == old(said) +
        (if PostsSourceEvent(cfg, IsConnected(client), live, ev) && CanSay(user, client)
         then [ChatLine(user.value.name, ev.value)] else [])
      ensures cfg.chatPostLive ==> said == old(said)
    {
      if cfg.chatPostLive && !live {
        return;
      }
      if client.Some? && client.value.connected && cfg.chatPostEnable && ev.value != "" && ev.kind == Final {
        Say(ev.value);
      }
    }

    /** The `chatPostInput` subscription of `init`, with its echo guard. */
    method OnInputEvent(cfg: Settings, ev: TextEvent)
      requires Valid()
      modifies this`said
      ensures said == old(said) +
        (if PostsInputEvent(cfg, IsConnected(client), live, ev) && CanSay(user, client)
         then [ChatLine(user.value.name, ev.value)] else [])
      ensures cfg.chatPostLive || ev.textFieldType == ChatFieldType ==> said == old(said)
    {
      if cfg.chatPostLive && !live {
        return;
      }
      if client.Some? && client.value.connected && cfg.chatPostEnable
         && ev.textFieldType != ChatFieldType && ev.value != "" && ev.kind == Final {
        Say(ev.value);
      }
    }

    /** The `onMessage` handler: the session owner's own message is published
        once as a final chat-field event; anything else publishes nothing. */
    method OnMessage(cfg: Settings, authorId: string, content: string)
      modifies this`published
      ensures published == old(published) +
        (if RepublishesMessage(cfg, user, authorId) then [InboundEvent(content)] else [])
    {
      if user.Some? && authorId == user.value.id {
        if cfg.chatReceiveEnable {
          published := published + [TextEvent(Final, content, ChatFieldType)];
        }
      }
    }

    /** `logout`: clears the token and the user and cancels the live-check
        timer; the chat connection, its status and the emotes are left alone. */
    method Logout()
      requires Valid()
      modifies this`token, this`user, this`activeTimers
      ensures Valid()
      ensures token == "" && user == None && activeTimers == {}
      ensures old(token) == "" && old(user) == None && old(activeTimers) == {} ==> unchanged(this)
    {
      token := "";
      user := None;
      if liveCheck.Some? {
        activeTimers := activeTimers - {liveCheck.value};
      }
    }

    /** `scanForEmotes`: for each piece of the sentence split on single spaces
        that names an emote, its index mapped to the emote's URL. */
    method ScanForEmotes(sentence: string) returns (found: map<nat, string>)
      ensures found == Scan(emotes, sentence)
      ensures sentence == "" ==> found == map[]
      ensures sentence != "" ==> forall i: nat ::
        i in found <==> i < |Split(sentence, ' ')| && Split(sentence, ' ')[i] in emotes
      ensures forall i :: i in found ==> found[i] == emotes[Split(sentence, ' ')[i]]
    {
      if sentence == "" {
        return map[];
      }
      var words := Split(sentence, ' ');
      found := map[];
      var i := 0;
      while i < |words|
        invariant 0 <= i <= |words|
        invariant found == map j: nat | j < i && words[j] in emotes :: emotes[words[j]]
      {
        if words[i] in emotes {
          found := found[i := emotes[words[i]]];
        }
        i := i + 1;
      }
    }

    /** `addEmotes`: every name of `data` takes its URL from `data`, every
        other name keeps its URL. */
    method AddEmotes(data: EmoteMap)
      modifies this`emotes
      ensures emotes == MergeAll(old(emotes), [data])
      ensures emotes.Keys == old(emotes).Keys + data.Keys
      ensures forall k :: k in data ==> emotes[k] == data[k]
      ensures forall k :: k in old(emotes) && k !in data ==> emotes[k] == old(emotes)[k]
    {
      emotes := emotes + data;
    }

    /** `addTwitchEmotes`: each listed name takes the URL of its last entry in
        the list; every other name keeps its URL. */
    method AddTwitchEmotes(data: seq<HelixEmote>)
      modifies this`emotes
      ensures emotes == MergeAll(old(emotes), [FromEntries(data)])
      ensures forall j :: 0 <= j < |data| && (forall i :: j < i < |data| ==> data[i].name != data[j].name)
                          ==> data[j].name in emotes && emotes[data[j].name] == data[j].imageUrl1
      ensures forall k :: k in old(emotes) && (forall i :: 0 <= i < |data| ==> data[i].name != k)
                          ==> k in emotes && emotes[k] == old(emotes)[k]
    {
      var entries := FromEntries(data);
      forall k | true
        ensures k in entries <==> exists i :: 0 <= i < |data| && data[i].name == k
        ensures forall j :: 0 <= j < |data| && data[j].name == k && (forall i :: j < i < |data| ==> data[i].name != k)
                            ==> entries[k] == data[j].imageUrl1
      {
        FromEntriesLookup(data, k);
      }
      emotes := emotes + entries;
    }

    /** `startLiveCheck`: the previous timer, if any, is cleared before a new
        one is started, so exactly one runs afterwards. */
    method StartLiveCheck()
      requires Valid()
      modifies this`liveCheck, this`nextHandle, this`activeTimers
      ensures Valid()
      ensures liveCheck == Some(old(nextHandle)) && nextHandle == old(nextHandle) + 1
      ensures activeTimers == {liveCheck.value} && |activeTimers| == 1
    {
      if liveCheck.Some? {
        activeTimers := activeTimers - {liveCheck.value};
      }
      var handle := nextHandle;
      nextHandle := nextHandle + 1;
      liveCheck := Some(handle);
      activeTimers := activeTimers + {handle};
    }

    /** One tick of the live-check timer. With a user name and an API client it
        asks whether the user is streaming (`streamFound` is the answer); in
        either branch the result is only compared with `live`, never stored,
        so the tick changes nothing. */
    method LiveTick(streamFound: bool) returns (probed: bool)
      ensures probed <==> user.Some? && user.value.name != "" && hasApiClient
    {
      if user.None? || user.value.name == "" {
        var unused := live == false;
        return false;
      }
      probed := hasApiClient;
      var unused := live == streamFound;
    }

    /** The emote steps of `connect`: the fulfilled third-party results are
        added in list order, then the Twitch channel emotes, then the Twitch
        global emotes. */
    method MergeConnectEmotes(providers: ProviderResults, channel: seq<HelixEmote>, global: seq<HelixEmote>)
      modifies this`emotes
      ensures emotes == MergeAll(old(emotes), EmoteSources(providers, channel, global))
    {
      var results := providers.InOrder();
      var i := 0;
      while i < |results|
        invariant 0 <= i <= |results|
        invariant emotes == MergeAll(old(emotes), Contributions(results[..i]))
      {
        if results[i].Some? {
          AddEmotes(results[i].value);
        } else {
          assert emotes + map[] == emotes;
        }
        assert Contributions(results[..i + 1]) == Contributions(results[..i]) + [Contribution(results[i])];
        MergeAllAppend(old(emotes), Contributions(results[..i]), [Contribution(results[i])]);
        i := i + 1;
      }
      assert results[..i] == results;
      AddTwitchEmotes(channel);
      MergeAllAppend(old(emotes), Contributions(results), [FromEntries(channel)]);
      AddTwitchEmotes(global);
      MergeAllAppend(old(emotes), Contributions(results) + [FromEntries(channel)], [FromEntries(global)]);
      assert Contributions(results) + [FromEntries(channel)] + [FromEntries(global)]
          == EmoteSources(providers, channel, global);
    }

    /** `connect`. With an empty token nothing happens. Otherwise an API
        client is made; when the identity or either first-party emote fetch
        fails the sequence ends in `logout`. On success the user is set, the
        providers' emotes are merged into the registry (which is never reset)
        in their fixed order, a fresh chat client for the user's channel
        replaces the old one, and chat is opened when enabled. */
    method Connect(cfg: Settings, out: ConnectOutcomes)
      requires Valid()
      modifies this
      ensures Valid()
      ensures old(token) == "" ==> unchanged(this)
      ensures old(token) != "" && !out.Succeeds() ==>
        && token == "" && user == None && activeTimers == {} && hasApiClient
        && emotes == old(emotes) && status == old(status) && client == old(client)
        && liveCheck == old(liveCheck) && nextHandle == old(nextHandle)
        && said == old(said) && published == old(published)
        && connectRequests == old(connectRequests) && quitRequests == old(quitRequests)
      ensures old(token) != "" && out.Succeeds() ==>
        && token == old(token) && user == out.identity && hasApiClient
        && emotes == MergeAll(old(emotes), EmoteSources(out.providers, out.channelEmotes.value, out.globalEmotes.value))
        && client == Some(ChatClient(out.identity.value.name, cfg.chatEnable, false))
        && status == (if cfg.chatEnable then Connecting else old(status))
        && connectRequests == old(connectRequests) + (if cfg.chatEnable then 1 else 0)
        && activeTimers == old(activeTimers) && liveCheck == old(liveCheck) && nextHandle == old(nextHandle)
        && said == old(said) && published == old(published) && quitRequests == old(quitRequests)
    {
      if token == "" {
        return;
      }
      hasApiClient := true;
      if out.identity.None? {
        Logout();
        return;
      }
      var me := out.identity.value;
      user := Some(me);
      if out.channelEmotes.None? || out.globalEmotes.None? {
        Logout();
        return;
      }

      MergeConnectEmotes(out.providers, out.channelEmotes.value, out.globalEmotes.value);

      client := Some(ChatClient(me.name, false, false));
      if cfg.chatEnable {
        ChatConnect();
      }
    }

    /** The message handler of `login`: a `smplstt_tw_auth:` message stores
        its token and connects; any other message is ignored. */
    method OnAuthMessage(data: Option<string>, cfg: Settings, out: ConnectOutcomes)
      requires Valid()
      modifies this
      ensures Valid()
      ensures data.None? || ExtractToken(data.value).None? ==> unchanged(this)
      ensures data.Some? && ExtractToken(data.value) == Some("") ==> token == "" && user == old(user)
      ensures data.Some? && ExtractToken(data.value).Some? && ExtractToken(data.value).value != "" ==>
        if out.Succeeds() then token == ExtractToken(data.value).value && user == out.identity
        else token == "" && user == None
    {
      if data.None? {
        return;
      }
      var t := ExtractToken(data.value);
      if t.Some? {
        token := t.value;
        Connect(cfg, out);
      }
    }
  }
}
