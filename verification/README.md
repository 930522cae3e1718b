# Twitch chat service, modelled in Dafny

This project models `Service_Twitch`, the streaming application's link to
Twitch chat. The service does five things:

- it authenticates a session from a stored OAuth token;
- it keeps the chat connection's status;
- it relays text between the application's text-event bus and the channel's chat;
- it merges emote name → image URL maps from Twitch and six third-party providers;
- it can run a timer that checks whether the user is live (`startLiveCheck`), although nothing in the service starts it.

The network clients are replaced by what they deliver. `ConnectOutcomes` holds
the identity, the two first-party emote lists and the six provider results,
each either delivered or failed. The chat client is seen through its channel
and its `isConnecting`/`isConnected` flags. Its transport callbacks are the
methods `OnTransportConnect` and `OnTransportDisconnect`. Calls the service
makes to the outside (`say`, `connect`, `quit`, publishing on the bus) are kept
in ghost logs, so contracts can state exactly what was sent.

Modules:

- `Wrappers`: `Option`.
- `TwitchTypes`: shared values (user, chat status, client view, text event, settings).
- `Text`: JavaScript's `split`/`join` with a one-character separator, and their round trips.
- `Auth`: the token extraction of `login`.
- `Emotes`: the registry's merge (`MergeAll`, `FromEntries`), the provider order, and the scan specification.
- `Gates`: the pure outbound and inbound gating conditions.
- `Twitch`: the class `Service`, whose methods change the service's fields as the source does.

The model follows the code as written. In these places the code differs from
the service's design description:

- Emotes accumulate. `connect` merges into the existing map and never resets it (`MergeAll(old(emotes), …)`).
- A failed first-party emote fetch (channel or global) ends the whole `connect` in `logout`. It is not skipped.
- `logout` does not close the chat. The status, the client and the emotes are left as they are.
- The live-check tick only compares `live` with a value (`==`) and never assigns it. `Valid()` therefore keeps `live == false`. As a result, with "post only while live" set, nothing is ever posted (`OnSourceEvent`, `OnInputEvent`).
- `scanForEmotes` splits on single spaces, not on whitespace. A doubled space gives an empty piece, and that piece keeps its index.
- `chatConnect` checks the client's flags, not the status. Without a client it still sets the status to connecting, even when the status is already connecting.
- There is no check against stale results. A `connect` that completes after a `logout` applies its results anyway. This model runs each operation to completion, so it cannot show that case.
- `connect` never starts the live check. `startLiveCheck` is not called anywhere in the service, so `Connect` leaves the timer state unchanged.
- Only the input subscription (`chatPostInput`) has the echo guard against events republished from chat. The source subscription (`chatPostSource`) has none, so a configured source that carries such events would post them back (`OnSourceEvent`).
- Twitch global emotes take precedence over Twitch channel emotes, and both over every third-party provider (`ConnectPrecedence`).

## Model

| member | source | states |
|---|---|---|
| Text.Split | src/backend-services/twitch/index.ts:124 | `split` on one character always yields at least one piece (the empty string gives one empty piece) |
| Text.JoinSplit | src/backend-services/twitch/index.ts:124 | joining the pieces of `split` with the separator gives back the input, and no piece contains the separator |
| Text.SplitJoin | src/backend-services/twitch/index.ts:124 | splitting a join of separator-free pieces gives back exactly those pieces (the inverse round trip) |
| Auth.ExtractToken | src/backend-services/twitch/index.ts:93-95 | a token is extracted iff the message starts with `smplstt_tw_auth:`; the token has no ':', directly follows the marker, and is followed by the end of the message or by ':' |
| Auth.ExtractTokenOfMessage | src/backend-services/twitch/index.ts:92-98 | the message `smplstt_tw_auth:<t>` (optionally followed by `:...`) yields exactly `t` for any colon-free `t` |
| Auth.ForeignMessageIgnored | src/backend-services/twitch/index.ts:93 | a message without the marker yields no token |
| Emotes.FromEntriesLookup | src/backend-services/twitch/index.ts:133-135 | a name is in the Twitch-emote map iff some entry has that name, and its URL is that of the last entry with that name |
| Emotes.MergeAllLookup | src/backend-services/twitch/index.ts:138-140 | last writer wins: after successive spreads, a key is present iff it was present before or in some merged map, and its value is that of the last map holding it, else the old value |
| Emotes.MergeAllAppend | src/backend-services/twitch/index.ts:184-187 | merging one list of maps and then another equals merging their concatenation |
| Emotes.MergeAllKeepsNames | src/backend-services/twitch/index.ts:119-140 | the registry is never reset: every name it held survives a merge |
| Emotes.RejectedContributesNothing | src/backend-services/twitch/index.ts:184 | a rejected provider contributes no name |
| Emotes.ConnectPrecedence | src/backend-services/twitch/index.ts:172-187 | after `connect`'s merges a name takes its Twitch global URL if any, else its Twitch channel URL, else the value of the last fulfilled provider in FFZ-ch, FFZ-gl, BTTV-ch, BTTV-gl, 7TV-ch, 7TV-gl order holding it, else keeps its old value |
| Emotes.ScanFindsSecondWord | src/backend-services/twitch/index.ts:120-131 | in "first second" with only `second` an emote, the scan returns exactly `{1: url}` |
| Emotes.ScanKeepsEmptyPieces | src/backend-services/twitch/index.ts:124-128 | in "a  b" the empty piece from the doubled space keeps index 1, so `b` is reported at index 2 |
| Gates.InputPathIsSourcePathWithEchoGuard | src/backend-services/twitch/index.ts:49-68 | the input subscription posts iff the source subscription would and the event is not from "twitchChat" |
| Gates.NoEchoThroughInput | src/backend-services/twitch/index.ts:58-68 | an event republished from chat is never posted back through the input subscription |
| Gates.PostOnlyWhileLive | src/backend-services/twitch/index.ts:50-51 | with "post only while live" set, nothing passes either gate while not live, and a connected, enabled, non-empty final event passes the source gate once live |
| Twitch.Service.constructor | src/backend-services/twitch/index.ts:17-38 | the service starts disconnected, with no user, not live, no clients, no emotes and no timer |
| Twitch.Service.ChatConnect | src/backend-services/twitch/index.ts:71-76 | no change while the client is connecting or connected; otherwise the status becomes connecting and an existing client is asked to connect exactly once (the status changes even without a client) |
| Twitch.Service.ChatDisconnect | src/backend-services/twitch/index.ts:77-79 | the client, if any, is asked to quit once; the status is not touched |
| Twitch.Service.OnChatEnable | src/backend-services/twitch/index.ts:46-48 | enabling chat on an idle client sets the status to connecting and asks that client to connect exactly once; on a busy client nothing changes; without a client the status becomes connecting and nothing is requested; disabling asks the client, if any, to quit and leaves the status alone |
| Twitch.Service.OnTransportConnect | src/backend-services/twitch/index.ts:190 | whenever the transport reports a connection, the status becomes connected and the client's flags say connected |
| Twitch.Service.OnTransportDisconnect | src/backend-services/twitch/index.ts:191 | the disconnect callback sets the status to disconnected and clears the client's flags |
| Twitch.Service.Say | src/backend-services/twitch/index.ts:81-85 | exactly one line `(user name, value)` is sent iff a non-empty user name is known and the client is connected; otherwise nothing |
| Twitch.Service.OnSourceEvent | src/backend-services/twitch/index.ts:49-57 | the event's value is said iff the source gate and `say`'s own condition hold; with "post only while live" set nothing is sent, since `live` is never set |
| Twitch.Service.OnInputEvent | src/backend-services/twitch/index.ts:58-68 | as the source path, with the echo guard: an event from "twitchChat" is never sent |
| Twitch.Service.OnMessage | src/backend-services/twitch/index.ts:192-202 | exactly one final "twitchChat" event with the message content is published iff the author is the session's user and receiving is enabled; otherwise nothing |
| Twitch.Service.Logout | src/backend-services/twitch/index.ts:110-117 | the token is empty, the user is cleared and no timer runs; nothing else changes (chat, status, emotes); logging out when already logged out changes nothing |
| Twitch.Service.ScanForEmotes | src/backend-services/twitch/index.ts:120-131 | empty sentence gives an empty map; otherwise index i is present iff the i-th space-separated piece is an emote name, mapped to that emote's URL |
| Twitch.Service.AddEmotes | src/backend-services/twitch/index.ts:138-140 | every name of the data takes the data's URL, every other name keeps its URL, and the names are the union |
| Twitch.Service.AddTwitchEmotes | src/backend-services/twitch/index.ts:133-136 | each listed name takes the URL of its last entry in the list; unlisted names keep their URL |
| Twitch.Service.StartLiveCheck | src/backend-services/twitch/index.ts:142-145 | any previous timer is cleared, a fresh handle is stored, and exactly one timer runs afterwards |
| Twitch.Service.LiveTick | src/backend-services/twitch/index.ts:145-152 | the tick issues a stream probe iff a user name is known and an API client exists, and changes no state (in particular not `live`) |
| Twitch.Service.MergeConnectEmotes | src/backend-services/twitch/index.ts:172-187 | the registry becomes the old registry merged with the fulfilled providers in list order, then Twitch channel, then Twitch global emotes |
| Twitch.Service.Connect | src/backend-services/twitch/index.ts:155-209 | empty token: no change; any failed step (identity or either first-party emote fetch): the logout state with emotes, chat and status untouched; success: user set, emotes merged in the fixed order, a fresh client for the user's channel, and chat opened iff enabled |
| Twitch.Service.OnAuthMessage | src/backend-services/twitch/index.ts:92-100 | a non-auth message changes nothing; an auth message stores its token and connects, ending logged in on success and logged out on failure |

## Left out

- `init`'s wiring (`subscribeKey`, the two bus subscriptions, its initial `connect`) is not modelled as a step. Each subscription callback is a method (`OnChatEnable`, `OnSourceEvent`, `OnInputEvent`) that stands for one delivered event.
- `login`'s redirect: the authorization URL, `window.open`, and adding and removing the message listener are browser I/O. Only the message handler is modelled (`OnAuthMessage`).
- Network clients (`ApiClient`, `ChatClient`, `StaticAuthProvider`, the six emote loaders) are external. They are replaced by the outcomes they deliver. The model assumes the chat library sets `isConnecting` when asked to connect and fires its callbacks only for a client that exists. The library's own reconnect logic is not modelled.
- Asynchronous interleaving is not modelled: concurrent `connect` calls, completions after a `logout`, and callbacks from a chat client that `connect` has already replaced. Each operation runs to completion.
- `setInterval` timing (7000 ms) is not modelled, nor failures of the asynchronous probe inside a tick. Handles are drawn from a counter.
- `getImageUrl(1)` is a field of the emote value. `getStream()` is not used by the code except that it may throw, so its failure counts as an identity failure.
- JavaScript's `in` also matching inherited object keys (such as `constructor`) is not modelled. The registry is a plain finite map.
- Text events are always present. The undefined `data` that the optional chaining guards against is not modelled, and a missing `textFieldType` is written as the empty string.
- Twitch.Service.OnAuthMessage: states only the token and the user after the `connect` it triggers. The rest of the resulting state is given by `Connect`'s contract.
