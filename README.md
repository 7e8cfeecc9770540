# zara-music-bot: the event handlers as a verified state machine

zara-music-bot is a chat-and-voice bot. Users register an "entrance jingle" (a
YouTube URL with a start offset and a play length) with `!music-update`; when
they join a voice channel the bot joins it too and plays their clip. Rooms can
also have a clip, played on request with `!music-play`.

This project models the decision logic of the two event handlers in
`src/index.ts`: the `messageCreate` command router and the `voiceStateUpdate`
presence watcher. The platform, the document store and the audio library are
abstract: the store is a map from `(collection, id)` to a document, the set of
guilds with a live voice connection stands in for `getVoiceConnections()`, the
shared audio player is `Idle` or `Playing(target, arg)`, and every reply, store
write, stop, join and play is appended to an effect log.

Modules:

- `Wrappers` (wrappers.dfy): `Option` and JavaScript truthiness of an optional string.
- `Text` (text.dfy): `split(' ')` with its inverse `Join`, `includes` with its
  characterisation by positions, and the `+s` / `isNaN` number test on decimal
  strings (`ParseNum` reads back what `FormatInt` prints).
- `Records` (records.dfy): clips, documents, effects, messages, the state, the
  primitive effects (`UpdateMusic`, `StopPlayer`, `JoinChannel`, `PlayMusic`) and
  the state invariant `Valid`.
- `Router` (router.dfy): each `if` of `messageCreate` as a function, composed
  with the source's early returns in `HandleMessage`; the pure parts
  `BuildMusic` (the clip of `!music-update`) and `ChoosePlay` (the play source
  of `!music-play`).
- `Presence` (presence.dfy): `HandlePresence`, the transition rule of
  `voiceStateUpdate`, and its properties.
- `RouterProperties` (router_properties.dfy): what each command does, which
  commands can fire together, the update/me and persist/play round trips, and
  preservation of the invariant.
- `Bot` (bot.dfy): class `Bot` whose fields are the process-wide state; its
  methods run the handlers step by step with the source's early returns and are
  proved to produce exactly the state `HandleMessage` / `HandlePresence` give.

Behaviour worth knowing, all as the code does it:

- The checks are independent `if`s. The exact-match commands exclude each
  other; `!music-update` and `!music-play` are substring tests and can both
  fire on one message, unless the `!music-update` branch returns early, which
  skips `!music-play`.
- A message containing `!music-update` but no space throws a TypeError
  outside any `try`: the handler ends with outcome `Threw` (`UpdateWithoutSpaceThrows`).
- `!music-me` replies with the caller's current username, not the stored
  `name`. A document at `("users", id)` that was written by
  `!music-play users <id> <url>` has no `music` field, so `!music-me` throws on
  it, `!music-play` on a user document plays `[undefined]` (`UrlOnly(None)`),
  and the presence watcher passes `undefined` to `playMusic` (`NoMusic`).
- `!music-play` with neither a stored room clip nor a fallback URL still joins
  the caller's voice channel (and stops the player first if the guild had a
  live connection) before it returns.
- The presence watcher never stops the player and does not look at the live
  connections.

## Model

| member | source | states |
|---|---|---|
| Text.Split | src/index.ts:70 | `split(' ')` yields at least one token and no token contains a space |
| Text.JoinSplit | src/index.ts:70 | joining the tokens with single spaces gives back the message text |
| Text.SplitJoin | src/index.ts:88 | space-free tokens joined by single spaces split back into exactly those tokens |
| Text.SecondTokenIffSpace | src/index.ts:69-71 | the text split on spaces has a token at index 1 (`msgArray[1]` is defined) if and only if the text contains a space |
| Text.ContainsIffOccurs | src/index.ts:69 | `includes(t)` holds if and only if t occurs at some position of the text |
| Text.ContainsLength | src/index.ts:85 | a text only includes strings no longer than itself, and of its own length only itself |
| Text.ParseFormat | src/index.ts:74-75 | a whole number printed in decimal converts back (`+s`) to that number, not NaN |
| Text.NumberOrFormatted | src/index.ts:74-75 | `tok && !isNaN(+tok) ? +tok : default` on a printed number yields the number, whatever the default |
| RouterProperties.ExactCommandsLackSubstrings | src/index.ts:46-85 | no exact-match command text contains `!music-update` or `!music-play` |
| RouterProperties.OnlyExactBranchesFire | src/index.ts:43-112 | a message without `!music-me` and without either substring command runs only the greeting, help and stop branches |
| RouterProperties.NoCommandNoEffect | src/index.ts:43-112 | a message matching no command changes nothing and sends nothing |
| RouterProperties.GreetingCommands | src/index.ts:46-49 | `Hello` replies `Hi`, the Japanese greeting sends a greeting, and nothing else happens |
| RouterProperties.HelpCommand | src/index.ts:50-57 | `!music-help` sends the three help texts in order and nothing else happens |
| RouterProperties.StopCommand | src/index.ts:82-84 | `!music-stop` stops the player whatever its state, never throws, and does nothing else |
| RouterProperties.MeCommand | src/index.ts:58-68 | `!music-me`: no caller id, nothing; no document, the not-found reply; a user document, a reply with its clip; a document without `music`, a throw |
| RouterProperties.UpdateIsNoExactCommand | src/index.ts:69 | a text containing `!music-update` matches none of the exact-match commands |
| RouterProperties.BareUpdateThrows | src/index.ts:70-71 | `!music-update` with fewer than two tokens throws with nothing changed |
| RouterProperties.UpdateWithoutSpaceThrows | src/index.ts:69-71 | a message containing `!music-update` but no space throws with nothing changed |
| RouterProperties.UpdateAloneThrows | src/index.ts:71 | the message `!music-update` on its own throws with nothing changed |
| RouterProperties.UpdateWithoutYoutubeIsInert | src/index.ts:69-71 | token 1 without `youtube.com`: no write, no reply, and `!music-play` is skipped |
| RouterProperties.UpdateGuards | src/index.ts:77-78 | no caller id, no username, or the bot's own username: no write, no reply, later branches skipped |
| RouterProperties.BuildMusicRule | src/index.ts:72-76 | urls is `[token 1]`; start is token 2 if present and numeric else 0; duration is token 3 if present and numeric else 15 |
| RouterProperties.BuildMusicFormatted | src/index.ts:72-76 | typed decimal start and duration are stored as those numbers; with both omitted the clip is (url, 0, 15) |
| RouterProperties.UpdateStores | src/index.ts:79-80 | a well-formed update stores `{name: username, music}` at ("users", userId); without `!music-play` in the text it writes that and replies with the URL, nothing else |
| RouterProperties.UpdateTextTokens | src/index.ts:70 | `!music-update <url> <start> <duration>` splits into those four tokens and contains the command |
| RouterProperties.UpdateUrlTokens | src/index.ts:70 | `!music-update <url>` splits into those two tokens and contains the command |
| RouterProperties.UpdateDefaultsThenMe | src/index.ts:58-80 | after `!music-update <url>` alone, `!music-me` from the same caller reports url with the defaults 0 and 15 |
| RouterProperties.UpdateThenMe | src/index.ts:58-80 | after `!music-update <url> <s> <d>`, the store holds the clip and `!music-me` from the same caller reports exactly url, s and d |
| RouterProperties.OnlyPlayFires | src/index.ts:85-111 | a text with `!music-play` and without `!music-update` runs only the play branch |
| RouterProperties.PlayBranchIncompleteIsInert | src/index.ts:89-91 | in the play branch, token 1 or 2 missing or empty, no guild, or no caller voice channel: no stop, join, write or play |
| RouterProperties.PlayIncompleteIsInert | src/index.ts:85-91 | a whole `!music-play` message (without `!music-update`) with such tokens or no guild or no voice channel changes nothing and completes |
| RouterProperties.PlayStopsIffLive | src/index.ts:92-96 | the player is stopped before the join if and only if the guild had a live connection; the connection becomes the caller's channel |
| RouterProperties.PlaySourceChoice | src/index.ts:97-107 | stored room clip: play its url, no write; stored user document: play `undefined`, no write; none and a fallback: store `{url}` then play it; neither: only the join |
| RouterProperties.PlayNeverOverwrites | src/index.ts:97-99 | `!music-play` never changes a document that is already stored |
| RouterProperties.RoomClipPersistsThenPlaysBranch | src/index.ts:97-107 | in the play branch, a fallback stored by one `!music-play` is what a later one of the same room plays |
| RouterProperties.RoomClipPersistsThenPlays | src/index.ts:85-107 | over two whole messages: a fallback stored by one `!music-play` is what a later `!music-play` of the same room plays, both completing |
| RouterProperties.UpdateBranchPreservesValid | src/index.ts:72-79 | `!music-update` only stores documents with a non-empty, non-bot name and at least one URL |
| RouterProperties.PlayBranchPreservesValid | src/index.ts:92-106 | `!music-play` only plays on a guild it has joined and only stores non-empty URLs |
| RouterProperties.MessagePreservesValid | src/index.ts:43-112 | every message keeps the state invariant |
| Presence.PresenceIgnored | src/index.ts:115-119 | the bot's own presence changes and non-changes leave everything as it was |
| Presence.PresenceTransitions | src/index.ts:120-128 | entering with a stored document: exactly one join of (guild, new channel) and one play of its `music`; no document, or leaving: nothing |
| Presence.PresencePlaysUserMusic | src/index.ts:122-125 | the clip played on entering is the one stored for the member |
| Presence.PresencePreservesValid | src/index.ts:114-129 | presence changes keep the state invariant |
| Bot.Bot.constructor | src/index.ts:28-29 | the bot starts with no connection, an idle player and nothing said |
| Bot.Bot.OnMessage | src/index.ts:43-112 | the handler run step by step yields exactly the state and outcome of `HandleMessage`, and keeps the invariant |
| Bot.Bot.Greet | src/index.ts:46-57 | the greeting and help branches, step by step |
| Bot.Bot.MusicMe | src/index.ts:58-68 | the `!music-me` branch with its early return and throw |
| Bot.Bot.MusicUpdate | src/index.ts:69-81 | the `!music-update` branch with its throw and early returns |
| Bot.Bot.MusicStop | src/index.ts:82-84 | the `!music-stop` branch |
| Bot.Bot.MusicPlay | src/index.ts:85-111 | the `!music-play` branch with its early returns, stop, join, write and play |
| Bot.Bot.OnVoiceStateUpdate | src/index.ts:114-129 | the presence handler run step by step yields exactly `HandlePresence`, and keeps the invariant |
| Bot.Bot.Say | src/index.ts:46-80 | a reply or channel post is appended to the log and nothing else changes |
| Bot.Bot.UpdateMusic | src/index.ts:79 | a store write replaces the document at the key and is logged |
| Bot.Bot.StopPlayer | src/index.ts:94 | stopping leaves the player idle and is logged |
| Bot.Bot.JoinChannel | src/index.ts:132-140 | joining sets `connection` and gives the guild a live connection |
| Bot.Bot.PlayMusic | src/index.ts:100-106 | playing sets the player to the clip on the joined channel |

## Left out

- Client construction, intents, the `ready` log line and `client.login`: platform I/O.
- Firebase initialisation and credential loading from the environment: configuration I/O.
- `getMusic`, `updateMusic` and `playMusic` are not part of this model; they are a map lookup, an upsert and an abstract play effect.
- Records.UpdateMusic: overwrites the whole document; whether the store merges fields is not modelled, as `updateMusic` is not part of this model.
- Text.ParseNum: accepts only an optional sign followed by decimal digits; JavaScript's `+s` also accepts fractions, exponents, hexadecimal, `Infinity` and surrounding whitespace, which is floating-point semantics.
- Numbers are unbounded integers; the double-precision rounding of large numbers is not modelled.
- `joinVoiceChannel` transport details (`selfDeaf`, `selfMute`, the adapter creator), and the library dropping a guild's connection on disconnect: live connections only ever grow in the model.
- Failures inside the `try` of `!music-play` (a store read or a join that fails) are foreign-library errors; they would be caught and logged, and the model has none.
- What the runtime does with a `Threw` outcome (an unhandled promise rejection) is outside the model.
- Interleaving of handlers at `await` points and the last-write-wins race on `connection` and the player: each event runs to completion.
- `updateMusic` and `playMusic` are not awaited; the model issues their effects in program order.
- Reply texts, the help texts and `console.log` lines: replies are tags; log lines are not modelled.
