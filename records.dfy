/**
 * The bot's data: the documents it keeps in the store, the effects it has on the
 * chat and voice platform, and the process-wide state that the two event handlers
 * read and change (the document store, the `connection` variable, the live voice
 * connections per guild, the shared audio player).
 */
module Records {
  import opened Wrappers

  /** The bot's own username; messages and presence events from it are ignored. */
  const BOT_NAME: string := "zara-music-bot"

  /** A clip: source URLs, start offset and play length in seconds. */
  datatype Music = Music(urls: seq<string>, start: int, duration: int)

  /**
   * A stored document. `!music-update` writes a user document `{name, music}`;
   * `!music-play` writes a room document `{url}`.
   */
  datatype Record =
    | UserRecord(name: string, music: Music)
    | RoomRecord(url: string)

  /** A document path: (collection, document id). */
  datatype Key = Key(collection: string, id: string)

  /** A voice channel of a guild. */
  datatype Target = Target(guild: string, channel: string)

  /**
   * What `playMusic` is given: a user's whole clip, a `{urls: [url]}` object
   * whose url is `undefined` when the stored document has no `url` field, or
   * `undefined` itself when the stored document has no `music` field.
   */
  datatype PlayArg =
    | Clip(music: Music)
    | UrlOnly(url: Option<string>)
    | NoMusic

  /** The shared audio player: idle, or playing something on a voice channel. */
  datatype Player = Idle | Playing(target: Target, arg: PlayArg)

  /** The texts the bot posts, as tags; `MusicOf` carries what the reply reports. */
  datatype Reply =
    | Hi
    | Greeting
    | HelpUpdate
    | HelpMe
    | HelpStop
    | MusicNotFound
    | MusicOf(username: Option<string>, music: Music)
    | Updated(url: string)

  /** Effects on the outside world, in the order they are issued. */
  datatype Effect =
    | RepliedTo(reply: Reply)   // msg.reply
    | Sent(reply: Reply)        // msg.channel.send
    | Wrote(key: Key, record: Record)
    | PlayerStopped
    | Joined(target: Target)
    | Played(target: Target, arg: PlayArg)

  /** An inbound text message with what the handler reads of its author. */
  datatype Message = Message(
    content: string,
    userId: Option<string>,
    username: Option<string>,
    guild: Option<string>,
    voiceChannel: Option<string>)

  /** Everything the handlers can observe or change. */
  datatype State = State(
    store: map<Key, Record>,
    connection: Option<Target>,
    live: set<string>,
    player: Player,
    log: seq<Effect>)

  /** `getMusic(db, collection, id)`: the stored document, if any. */
  function Lookup(store: map<Key, Record>, k: Key): Option<Record> {
    if k in store then Some(store[k]) else None
  }

  /** The bot as it starts: no connection, nothing playing, nothing said yet. */
  function Initial(store: map<Key, Record>): State {
    State(store, None, {}, Idle, [])
  }

  // The primitive effects. Each appends itself to the log.

  function Say(st: State, e: Effect): State
    requires e.RepliedTo? || e.Sent?
  {
    st.(log := st.log + [e])
  }

  /** `updateMusic(db, collection, id, record)`, modelled as an overwriting upsert. */
  function UpdateMusic(st: State, k: Key, r: Record): State {
    st.(store := st.store[k := r], log := st.log + [Wrote(k, r)])
  }

  /** `audioPlayer.stop()`. */
  function StopPlayer(st: State): State {
    st.(player := Idle, log := st.log + [PlayerStopped])
  }

  /** `connection = joinChannel(guild, channel)`; the guild now has a live connection. */
  function JoinChannel(st: State, t: Target): State {
    st.(connection := Some(t), live := st.live + {t.guild}, log := st.log + [Joined(t)])
  }

  /** `playMusic(connection, audioPlayer, arg)` on the connection just joined. */
  function PlayMusic(st: State, t: Target, arg: PlayArg): State {
    st.(player := Playing(t, arg), log := st.log + [Played(t, arg)])
  }

  /** A document of the shape the bot itself writes. */
  predicate WellFormed(r: Record) {
    match r
    case UserRecord(name, music) => name != "" && name != BOT_NAME && |music.urls| >= 1
    case RoomRecord(url) => url != ""
  }

  /**
   * The state invariant: documents have the shapes the bot writes, the current
   * connection and whatever is playing belong to guilds with a live connection.
   */
  predicate Valid(st: State) {
    && (forall k :: k in st.store ==> WellFormed(st.store[k]))
    && (st.connection.Some? ==> st.connection.value.guild in st.live)
    && (st.player.Playing? ==> st.player.target.guild in st.live)
  }
}
