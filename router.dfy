/**
 * The `messageCreate` handler (src/index.ts:43-112) as a function from the state
 * and a message to the new state. The handler is a sequence of independent `if`s;
 * an early `return` in one of them skips all the later ones, and an uncaught
 * TypeError ends the handler with its effects so far. Each `if` is one function
 * below; HandleMessage runs them in the source's order.
 */
module Router {
  import opened Wrappers
  import opened Text
  import opened Records

  const HELLO: string := "Hello"
  const KONNICHIWA: string := "こんにちは"
  const HELP: string := "!music-help"
  const ME: string := "!music-me"
  const UPDATE: string := "!music-update"
  const STOP: string := "!music-stop"
  const PLAY: string := "!music-play"
  const YOUTUBE: string := "youtube.com"

  /** How a branch ends: fall through to the next `if`, `return`, or throw. */
  datatype Flow = Continue | Return | Throw
  datatype Step = Step(st: State, flow: Flow)

  /** How the whole handler ends: normally (also by `return`) or by an uncaught TypeError. */
  datatype Outcome = Completed | Threw
  datatype Handled = Handled(st: State, outcome: Outcome)

  /**
   * The clip of `!music-update <url> [start] [duration]`: token 1 as the only
   * URL, token 2 as start (default 0), token 3 as duration (default 15).
   */
  function BuildMusic(tokens: seq<string>): Music
    requires |tokens| >= 2
  {
    Music([tokens[1]], NumberOr(TokenAt(tokens, 2), 0), NumberOr(TokenAt(tokens, 3), 15))
  }

  /** What `!music-play` does after joining the caller's voice channel. */
  datatype PlayChoice =
    | JoinOnly                  // no stored room clip and no fallback URL
    | PlayStored(arg: PlayArg)  // play the stored document's `url`
    | PersistAndPlay(url: string)  // store `{url: fallback}`, then play it

  /** The choice of play source from the stored document and token 3. */
  function ChoosePlay(stored: Option<Record>, fallback: Option<string>): PlayChoice {
    match stored
    case None => if Truthy(fallback) then PersistAndPlay(fallback.value) else JoinOnly
    case Some(RoomRecord(url)) => PlayStored(UrlOnly(Some(url)))
    case Some(UserRecord(_, _)) => PlayStored(UrlOnly(None))
  }

  /** `Hello`, the Japanese greeting and `!music-help` (src/index.ts:46-57). */
  function Greetings(st: State, m: Message): State {
    var s1 := if m.content == HELLO then Say(st, RepliedTo(Hi)) else st;
    var s2 := if m.content == KONNICHIWA then Say(s1, Sent(Greeting)) else s1;
    if m.content == HELP then Say(Say(Say(s2, Sent(HelpUpdate)), Sent(HelpMe)), Sent(HelpStop))
    else s2
  }

  /**
   * `!music-me` (src/index.ts:58-68). A document at ("users", id) without a
   * `music` field makes `storeMusicdata.music.urls` throw.
   */
  function MeBranch(st: State, m: Message): Step {
    if m.content != ME then Step(st, Continue)
    else if !Truthy(m.userId) then Step(st, Return)
    else
      match Lookup(st.store, Key("users", m.userId.value))
      case None => Step(Say(st, Sent(MusicNotFound)), Continue)
      case Some(UserRecord(_, music)) => Step(Say(st, Sent(MusicOf(m.username, music))), Continue)
      case Some(RoomRecord(_)) => Step(st, Throw)
  }

  /**
   * `!music-update` (src/index.ts:69-81). With a single token, `msgArray[1]` is
   * `undefined` and `.includes` throws.
   */
  function UpdateBranch(st: State, m: Message): Step {
    if !Contains(m.content, UPDATE) then Step(st, Continue)
    else
      var tokens := Split(m.content);
      if |tokens| < 2 then Step(st, Throw)
      else if !Contains(tokens[1], YOUTUBE) then Step(st, Return)
      else
        var music := BuildMusic(tokens);
        if !Truthy(m.userId) || !Truthy(m.username) then Step(st, Return)
        else if m.username.value == BOT_NAME then Step(st, Return)
        else
          var written := UpdateMusic(st, Key("users", m.userId.value), UserRecord(m.username.value, music));
          Step(Say(written, Sent(Updated(tokens[1]))), Continue)
  }

  /** `!music-stop` (src/index.ts:82-84): stop the shared player, whatever it is doing. */
  function StopBranch(st: State, m: Message): State {
    if m.content == STOP then StopPlayer(st) else st
  }

  /**
   * `!music-play <collection> <id> [fallback]` (src/index.ts:85-111). Every
   * `return` in it ends the handler, as it is the last branch.
   */
  function PlayBranch(st: State, m: Message): State {
    if !Contains(m.content, PLAY) then st
    else
      var tokens := Split(m.content);
      var collection, id := TokenAt(tokens, 1), TokenAt(tokens, 2);
      if !Truthy(collection) || !Truthy(id) then st
      else
        var key := Key(collection.value, id.value);
        var stored := Lookup(st.store, key);
        if m.guild.None? || !Truthy(m.voiceChannel) then st
        else
          var t := Target(m.guild.value, m.voiceChannel.value);
          var stopped := if t.guild in st.live then StopPlayer(st) else st;
          var joined := JoinChannel(stopped, t);
          match ChoosePlay(stored, TokenAt(tokens, 3))
          case JoinOnly => joined
          case PlayStored(arg) => PlayMusic(joined, t, arg)
          case PersistAndPlay(url) => PlayMusic(UpdateMusic(joined, key, RoomRecord(url)), t, UrlOnly(Some(url)))
  }

  /** The whole `messageCreate` handler. */
  function HandleMessage(st: State, m: Message): Handled {
    var greeted := Greetings(st, m);
    var me := MeBranch(greeted, m);
    if me.flow == Throw then Handled(me.st, Threw)
    else if me.flow == Return then Handled(me.st, Completed)
    else
      var update := UpdateBranch(me.st, m);
      if update.flow == Throw then Handled(update.st, Threw)
      else if update.flow == Return then Handled(update.st, Completed)
      else Handled(PlayBranch(StopBranch(update.st, m), m), Completed)
  }
}
