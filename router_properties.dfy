/**
 * What the `messageCreate` handler promises, stated over Router.HandleMessage:
 * which branches can fire together, what each command does to the store, the
 * player, the connection and the chat, and the `!music-update` / `!music-me`
 * and `!music-play` round trips.
 */
module RouterProperties {
  import opened Wrappers
  import opened Text
  import opened Records
  import opened Router

  // ---------------------------------------------------------------------------
  // Which branches can fire on one message
  // ---------------------------------------------------------------------------

  /** No exact-match command text contains either substring command. */
  lemma {:induction false} ExactCommandsLackSubstrings(s: string)
    requires s == HELLO || s == KONNICHIWA || s == HELP || s == ME || s == STOP
    ensures !Contains(s, UPDATE) && !Contains(s, PLAY)
  {
    if Contains(s, UPDATE) {
      ContainsLength(s, UPDATE);
    }
    if Contains(s, PLAY) {
      ContainsLength(s, PLAY);
    }
  }

  /**
   * A message without `!music-me` and without either substring command runs
   * only the greetings, the help text and `!music-stop`.
   */
  lemma {:induction false} OnlyExactBranchesFire(st: State, m: Message)
    requires m.content != ME && !Contains(m.content, UPDATE) && !Contains(m.content, PLAY)
    ensures HandleMessage(st, m) == Handled(StopBranch(Greetings(st, m), m), Completed)
  {
    var g := Greetings(st, m);
    assert MeBranch(g, m) == Step(g, Continue);
    assert UpdateBranch(g, m) == Step(g, Continue);
    assert PlayBranch(StopBranch(g, m), m) == StopBranch(g, m);
  }

  /** A message that matches no command leaves everything as it was. */
  lemma {:induction false} NoCommandNoEffect(st: State, m: Message)
    requires m.content !in {HELLO, KONNICHIWA, HELP, ME, STOP}
    requires !Contains(m.content, UPDATE) && !Contains(m.content, PLAY)
    ensures HandleMessage(st, m) == Handled(st, Completed)
  {
    OnlyExactBranchesFire(st, m);
  }

  /**
   * The greetings, the help text and `!music-stop` each have only their own
   * effect: the exact-match commands exclude each other and every other branch.
   */
  lemma {:induction false} GreetingCommands(st: State, m: Message)
    requires m.content == HELLO || m.content == KONNICHIWA
    ensures m.content == HELLO ==>
      HandleMessage(st, m) == Handled(st.(log := st.log + [RepliedTo(Hi)]), Completed)
    ensures m.content == KONNICHIWA ==>
      HandleMessage(st, m) == Handled(st.(log := st.log + [Sent(Greeting)]), Completed)
  {
    ExactCommandsLackSubstrings(m.content);
    OnlyExactBranchesFire(st, m);
  }

  /** `!music-help` posts the three help texts and does nothing else. */
  lemma {:induction false} HelpCommand(st: State, m: Message)
    requires m.content == HELP
    ensures HandleMessage(st, m) ==
      Handled(st.(log := st.log + [Sent(HelpUpdate), Sent(HelpMe), Sent(HelpStop)]), Completed)
  {
    ExactCommandsLackSubstrings(m.content);
    OnlyExactBranchesFire(st, m);
    HelpGreetings(st, m);
  }

  /** On `!music-help` the greeting and stop branches only post the help texts. */
  lemma {:induction false} HelpGreetings(st: State, m: Message)
    requires m.content == HELP
    ensures StopBranch(Greetings(st, m), m) == st.(log := st.log + [Sent(HelpUpdate), Sent(HelpMe), Sent(HelpStop)])
  {
    assert HELP != STOP by {
      assert HELP[7] != STOP[7];
    }
    assert st.log + [Sent(HelpUpdate)] + [Sent(HelpMe)] + [Sent(HelpStop)]
        == st.log + [Sent(HelpUpdate), Sent(HelpMe), Sent(HelpStop)];
  }

  /** `!music-stop` stops the player whatever it is doing, never throws, and does nothing else. */
  lemma {:induction false} StopCommand(st: State, m: Message)
    requires m.content == STOP
    ensures HandleMessage(st, m) == Handled(st.(player := Idle, log := st.log + [PlayerStopped]), Completed)
  {
    ExactCommandsLackSubstrings(m.content);
    OnlyExactBranchesFire(st, m);
  }

  /**
   * `!music-me`: without a caller id nothing happens; without a document at
   * ("users", id) the "not found" reply; with a user document a reply with its
   * clip (and the caller's current username); a document without a `music`
   * field makes the handler throw.
   */
  lemma {:induction false} MeCommand(st: State, m: Message)
    requires m.content == ME
    ensures !Truthy(m.userId) ==> HandleMessage(st, m) == Handled(st, Completed)
    ensures Truthy(m.userId) && Key("users", m.userId.value) !in st.store ==>
      HandleMessage(st, m) == Handled(st.(log := st.log + [Sent(MusicNotFound)]), Completed)
    ensures Truthy(m.userId) && Key("users", m.userId.value) in st.store ==>
      match st.store[Key("users", m.userId.value)]
      case UserRecord(_, music) =>
        HandleMessage(st, m) == Handled(st.(log := st.log + [Sent(MusicOf(m.username, music))]), Completed)
      case RoomRecord(_) => HandleMessage(st, m) == Handled(st, Threw)
  {
    ExactCommandsLackSubstrings(m.content);
  }

  // ---------------------------------------------------------------------------
  // !music-update
  // ---------------------------------------------------------------------------

  /** A message containing `!music-update` is none of the exact-match commands. */
  lemma {:induction false} UpdateIsNoExactCommand(s: string)
    requires Contains(s, UPDATE)
    ensures s !in {HELLO, KONNICHIWA, HELP, ME, STOP}
  {
    ContainsLength(s, UPDATE);
  }

  /** `!music-update` with nothing after it: `msgArray[1].includes` throws; nothing changes. */
  lemma {:induction false} BareUpdateThrows(st: State, m: Message)
    requires Contains(m.content, UPDATE) && |Split(m.content)| < 2
    ensures HandleMessage(st, m) == Handled(st, Threw)
  {
    UpdateIsNoExactCommand(m.content);
  }

  /** Equivalently: a message containing `!music-update` but no space throws with nothing changed. */
  lemma {:induction false} UpdateWithoutSpaceThrows(st: State, m: Message)
    requires Contains(m.content, UPDATE) && ' ' !in m.content
    ensures HandleMessage(st, m) == Handled(st, Threw)
  {
    SecondTokenIffSpace(m.content);
    BareUpdateThrows(st, m);
  }

  /** The message `!music-update` alone is such a message. */
  lemma {:induction false} UpdateAloneThrows(st: State, m: Message)
    requires m.content == UPDATE
    ensures HandleMessage(st, m) == Handled(st, Threw)
  {
    assert forall i :: 0 <= i < |[UPDATE]| ==> ' ' !in [UPDATE][i];
    SplitJoin([UPDATE]);
    ContainsPrefixOf(UPDATE, "");
    assert UPDATE + "" == UPDATE;
    BareUpdateThrows(st, m);
  }

  /**
   * `!music-update` whose token 1 does not contain `youtube.com` writes nothing,
   * says nothing and skips every later branch, `!music-play` included.
   */
  lemma {:induction false} UpdateWithoutYoutubeIsInert(st: State, m: Message)
    requires Contains(m.content, UPDATE)
    requires |Split(m.content)| >= 2 && !Contains(Split(m.content)[1], YOUTUBE)
    ensures HandleMessage(st, m) == Handled(st, Completed)
  {
    UpdateIsNoExactCommand(m.content);
  }

  /**
   * `!music-update` from a caller without id or username, or from the bot
   * itself, writes nothing, says nothing and skips every later branch.
   */
  lemma {:induction false} UpdateGuards(st: State, m: Message)
    requires Contains(m.content, UPDATE)
    requires |Split(m.content)| >= 2 && Contains(Split(m.content)[1], YOUTUBE)
    requires !Truthy(m.userId) || !Truthy(m.username) || m.username.value == BOT_NAME
    ensures HandleMessage(st, m) == Handled(st, Completed)
  {
    UpdateIsNoExactCommand(m.content);
  }

  /**
   * The clip of `!music-update`: token 1 is the only URL; token 2 is the start
   * if it is present and a number, else 0; token 3 is the duration if it is
   * present and a number, else 15.
   */
  lemma {:induction false} BuildMusicRule(tokens: seq<string>)
    requires |tokens| >= 2
    ensures BuildMusic(tokens).urls == [tokens[1]]
    ensures BuildMusic(tokens).start ==
      if |tokens| > 2 && tokens[2] != "" && ParseNum(tokens[2]).Some? then ParseNum(tokens[2]).value else 0
    ensures BuildMusic(tokens).duration ==
      if |tokens| > 3 && tokens[3] != "" && ParseNum(tokens[3]).Some? then ParseNum(tokens[3]).value else 15
  {
  }

  /** Numbers typed in decimal are stored as those numbers. */
  lemma {:induction false} BuildMusicFormatted(url: string, start: int, duration: int)
    ensures BuildMusic([UPDATE, url, FormatInt(start), FormatInt(duration)]) == Music([url], start, duration)
    ensures BuildMusic([UPDATE, url]) == Music([url], 0, 15)
  {
    NumberOrFormatted(start, 0);
    NumberOrFormatted(duration, 15);
  }

  /**
   * A well-formed `!music-update` stores `{name: username, music}` at
   * ("users", userId), then replies with the URL; when the text does not also
   * contain `!music-play`, that is all it does.
   */
  lemma {:induction false} UpdateStores(st: State, m: Message)
    requires Contains(m.content, UPDATE)
    requires |Split(m.content)| >= 2 && Contains(Split(m.content)[1], YOUTUBE)
    requires Truthy(m.userId) && Truthy(m.username) && m.username.value != BOT_NAME
    ensures var tokens := Split(m.content);
      var key := Key("users", m.userId.value);
      var record := UserRecord(m.username.value, BuildMusic(tokens));
      var r := HandleMessage(st, m);
      && r.outcome == Completed
      && key in r.st.store && r.st.store[key] == record
      && (!Contains(m.content, PLAY) ==>
            r.st == st.(store := st.store[key := record],
                        log := st.log + [Wrote(key, record), Sent(Updated(tokens[1]))]))
  {
    UpdateIsNoExactCommand(m.content);
    var key := Key("users", m.userId.value);
    var s := UpdateBranch(st, m).st;
    assert key in s.store;
    PlayNeverOverwrites(s, m);
    if !Contains(m.content, PLAY) {
      assert st.log + [Wrote(key, UserRecord(m.username.value, BuildMusic(Split(m.content))))]
                    + [Sent(Updated(Split(m.content)[1]))]
          == st.log + [Wrote(key, UserRecord(m.username.value, BuildMusic(Split(m.content)))),
                       Sent(Updated(Split(m.content)[1]))];
    }
  }

  /** The text `!music-update <url> <start> <duration>` splits into exactly those four tokens. */
  lemma {:induction false} UpdateTextTokens(url: string, start: int, duration: int)
    requires ' ' !in url
    ensures var text := UPDATE + " " + url + " " + FormatInt(start) + " " + FormatInt(duration);
      && Split(text) == [UPDATE, url, FormatInt(start), FormatInt(duration)]
      && Contains(text, UPDATE)
  {
    var tokens := [UPDATE, url, FormatInt(start), FormatInt(duration)];
    var text := UPDATE + " " + url + " " + FormatInt(start) + " " + FormatInt(duration);
    FormatIntIsToken(start);
    FormatIntIsToken(duration);
    assert ' ' !in UPDATE by {
      assert forall i :: 0 <= i < |UPDATE| ==> UPDATE[i] != ' ';
    }
    assert Join(tokens) == text by {
      assert Join(tokens[3..]) == FormatInt(duration);
      assert Join(tokens[2..]) == FormatInt(start) + " " + FormatInt(duration);
      assert Join(tokens[1..]) == url + " " + FormatInt(start) + " " + FormatInt(duration);
    }
    SplitJoin(tokens);
    assert text == UPDATE + text[|UPDATE|..];
    ContainsPrefixOf(UPDATE, text[|UPDATE|..]);
  }

  /**
   * `!music-update <url> <start> <duration>` followed by `!music-me` from the
   * same caller: the reply reports exactly that URL, start and duration.
   */
  lemma {:induction false} UpdateThenMe(st: State, url: string, start: int, duration: int,
                     userId: string, username: string,
                     guild: Option<string>, voice: Option<string>,
                     guild2: Option<string>, voice2: Option<string>)
    requires ' ' !in url && Contains(url, YOUTUBE)
    requires userId != "" && username != "" && username != BOT_NAME
    ensures
      var update := Message(UPDATE + " " + url + " " + FormatInt(start) + " " + FormatInt(duration),
                            Some(userId), Some(username), guild, voice);
      var st1 := HandleMessage(st, update).st;
      var music := Music([url], start, duration);
      && HandleMessage(st, update).outcome == Completed
      && Lookup(st1.store, Key("users", userId)) == Some(UserRecord(username, music))
      && HandleMessage(st1, Message(ME, Some(userId), Some(username), guild2, voice2))
         == Handled(st1.(log := st1.log + [Sent(MusicOf(Some(username), music))]), Completed)
  {
    var text := UPDATE + " " + url + " " + FormatInt(start) + " " + FormatInt(duration);
    UpdateTextTokens(url, start, duration);
    BuildMusicFormatted(url, start, duration);
    var update := Message(text, Some(userId), Some(username), guild, voice);
    UpdateStores(st, update);
    var st1 := HandleMessage(st, update).st;
    assert st1.store[Key("users", userId)] == UserRecord(username, Music([url], start, duration));
    MeCommand(st1, Message(ME, Some(userId), Some(username), guild2, voice2));
  }

  /** The text `!music-update <url>` splits into exactly those two tokens. */
  lemma {:induction false} UpdateUrlTokens(url: string)
    requires ' ' !in url
    ensures Split(UPDATE + " " + url) == [UPDATE, url] && Contains(UPDATE + " " + url, UPDATE)
  {
    var tokens := [UPDATE, url];
    var text := UPDATE + " " + url;
    assert ' ' !in UPDATE by {
      assert forall i :: 0 <= i < |UPDATE| ==> UPDATE[i] != ' ';
    }
    assert Join(tokens) == text by {
      assert Join(tokens[1..]) == url;
    }
    SplitJoin(tokens);
    assert text == UPDATE + text[|UPDATE|..];
    ContainsPrefixOf(UPDATE, text[|UPDATE|..]);
  }

  /**
   * `!music-update <url>` without start and duration, then `!music-me` from the
   * same caller: the reply reports that URL with the defaults 0 and 15.
   */
  lemma {:induction false} UpdateDefaultsThenMe(st: State, url: string, userId: string, username: string,
                                                guild: Option<string>, voice: Option<string>,
                                                guild2: Option<string>, voice2: Option<string>)
    requires ' ' !in url && Contains(url, YOUTUBE)
    requires userId != "" && username != "" && username != BOT_NAME
    ensures
      var update := Message(UPDATE + " " + url, Some(userId), Some(username), guild, voice);
      var st1 := HandleMessage(st, update).st;
      var music := Music([url], 0, 15);
      && HandleMessage(st, update).outcome == Completed
      && Lookup(st1.store, Key("users", userId)) == Some(UserRecord(username, music))
      && HandleMessage(st1, Message(ME, Some(userId), Some(username), guild2, voice2))
         == Handled(st1.(log := st1.log + [Sent(MusicOf(Some(username), music))]), Completed)
  {
    UpdateUrlTokens(url);
    BuildMusicFormatted(url, 0, 15);
    var update := Message(UPDATE + " " + url, Some(userId), Some(username), guild, voice);
    UpdateStores(st, update);
    var st1 := HandleMessage(st, update).st;
    assert st1.store[Key("users", userId)] == UserRecord(username, Music([url], 0, 15));
    MeCommand(st1, Message(ME, Some(userId), Some(username), guild2, voice2));
  }

  // ---------------------------------------------------------------------------
  // !music-play
  // ---------------------------------------------------------------------------

  /** A message with `!music-play` but not `!music-update` runs only the play branch. */
  lemma {:induction false} OnlyPlayFires(st: State, m: Message)
    requires Contains(m.content, PLAY) && !Contains(m.content, UPDATE)
    ensures HandleMessage(st, m) == Handled(PlayBranch(st, m), Completed)
  {
    if m.content in {HELLO, KONNICHIWA, HELP, ME, STOP} {
      ExactCommandsLackSubstrings(m.content);
    }
  }

  /**
   * `!music-play` whose token 1 or 2 is missing or empty, or sent outside a
   * guild or by a caller in no voice channel, never stops, joins, writes or plays.
   */
  lemma {:induction false} PlayBranchIncompleteIsInert(st: State, m: Message)
    requires var tokens := Split(m.content);
      || !Truthy(TokenAt(tokens, 1)) || !Truthy(TokenAt(tokens, 2))
      || m.guild.None? || !Truthy(m.voiceChannel)
    ensures PlayBranch(st, m) == st
  {
  }

  /** The same for the whole handler: such a `!music-play` message changes nothing at all. */
  lemma {:induction false} PlayIncompleteIsInert(st: State, m: Message)
    requires Contains(m.content, PLAY) && !Contains(m.content, UPDATE)
    requires var tokens := Split(m.content);
      || !Truthy(TokenAt(tokens, 1)) || !Truthy(TokenAt(tokens, 2))
      || m.guild.None? || !Truthy(m.voiceChannel)
    ensures HandleMessage(st, m) == Handled(st, Completed)
  {
    OnlyPlayFires(st, m);
    PlayBranchIncompleteIsInert(st, m);
  }

  /** The conditions under which `!music-play` reaches the join. */
  predicate PlayProceeds(m: Message) {
    && Contains(m.content, PLAY)
    && Truthy(TokenAt(Split(m.content), 1)) && Truthy(TokenAt(Split(m.content), 2))
    && m.guild.Some? && Truthy(m.voiceChannel)
  }

  function CallerChannel(m: Message): Target
    requires m.guild.Some? && m.voiceChannel.Some?
  {
    Target(m.guild.value, m.voiceChannel.value)
  }

  /** The room key of `!music-play <collection> <id>`. */
  function RoomKey(m: Message): Key
    requires |Split(m.content)| >= 3
  {
    Key(Split(m.content)[1], Split(m.content)[2])
  }

  /**
   * `!music-play` stops the shared player before joining if and only if the
   * guild already had a live connection; afterwards the connection is the
   * caller's voice channel.
   */
  lemma {:induction false} PlayStopsIffLive(st: State, m: Message)
    requires PlayProceeds(m)
    ensures var r := PlayBranch(st, m);
      && r.connection == Some(CallerChannel(m))
      && m.guild.value in r.live
      && |st.log| <= |r.log| && r.log[..|st.log|] == st.log
      && (PlayerStopped in r.log[|st.log|..] <==> m.guild.value in st.live)
  {
    var r := PlayBranch(st, m);
    var t := CallerChannel(m);
    var tokens := Split(m.content);
    var key := Key(tokens[1], tokens[2]);
    var pre := if t.guild in st.live then [PlayerStopped] else [];
    var extra := match ChoosePlay(Lookup(st.store, key), TokenAt(tokens, 3))
      case JoinOnly => []
      case PlayStored(arg) => [Played(t, arg)]
      case PersistAndPlay(url) => [Wrote(key, RoomRecord(url)), Played(t, UrlOnly(Some(url)))];
    assert PlayerStopped !in extra;
    assert r.log == st.log + pre + [Joined(t)] + extra;
    assert r.log[|st.log|..] == pre + [Joined(t)] + extra;
  }

  /**
   * The play source of `!music-play`: a stored document's `url` (token 3
   * ignored, nothing written; a user document has no `url`, so `undefined` is
   * played); with no document and a fallback, the fallback is
   * stored at (collection, id) and played; with neither, nothing is written or
   * played after the join.
   */
  lemma {:induction false} PlaySourceChoice(st: State, m: Message)
    requires PlayProceeds(m)
    ensures var tokens := Split(m.content);
      var key := RoomKey(m);
      var t := CallerChannel(m);
      var joined := st.log + (if t.guild in st.live then [PlayerStopped] else []) + [Joined(t)];
      var r := PlayBranch(st, m);
      && (key in st.store && st.store[key].RoomRecord? ==>
            r.store == st.store && r.log == joined + [Played(t, UrlOnly(Some(st.store[key].url)))])
      && (key in st.store && st.store[key].UserRecord? ==>
            r.store == st.store && r.log == joined + [Played(t, UrlOnly(None))])
      && (key !in st.store && Truthy(TokenAt(tokens, 3)) ==>
            r.store == st.store[key := RoomRecord(tokens[3])]
            && r.log == joined + [Wrote(key, RoomRecord(tokens[3])), Played(t, UrlOnly(Some(tokens[3])))])
      && (key !in st.store && !Truthy(TokenAt(tokens, 3)) ==>
            r.store == st.store && r.log == joined)
  {
    var t := CallerChannel(m);
    var pre := if t.guild in st.live then [PlayerStopped] else [];
    assert st.log + pre + [Joined(t)] == (if t.guild in st.live then st.log + [PlayerStopped] else st.log) + [Joined(t)];
  }

  /** `!music-play` never overwrites a document that is already stored. */
  lemma {:induction false} PlayNeverOverwrites(st: State, m: Message)
    ensures forall k :: k in st.store ==> k in PlayBranch(st, m).store && PlayBranch(st, m).store[k] == st.store[k]
  {
  }

  /**
   * The first `!music-play <c> <i> <url>` on an unknown room stores the fallback;
   * a later `!music-play <c> <i>` then plays that same URL.
   */
  lemma {:induction false} RoomClipPersistsThenPlaysBranch(st: State, first: Message, second: Message)
    requires PlayProceeds(first) && PlayProceeds(second)
    requires RoomKey(first) !in st.store && Truthy(TokenAt(Split(first.content), 3))
    requires RoomKey(second) == RoomKey(first)
    ensures var r := PlayBranch(PlayBranch(st, first), second);
      && r.player == Playing(CallerChannel(second), UrlOnly(Some(Split(first.content)[3])))
      && r.log[|r.log| - 1] == Played(CallerChannel(second), UrlOnly(Some(Split(first.content)[3])))
  {
    PlaySourceChoice(st, first);
    var st1 := PlayBranch(st, first);
    assert RoomKey(second) in st1.store && st1.store[RoomKey(second)] == RoomRecord(Split(first.content)[3]);
    PlaySourceChoice(st1, second);
  }

  /** The same round trip for two whole `!music-play` messages. */
  lemma {:induction false} RoomClipPersistsThenPlays(st: State, first: Message, second: Message)
    requires PlayProceeds(first) && PlayProceeds(second)
    requires !Contains(first.content, UPDATE) && !Contains(second.content, UPDATE)
    requires RoomKey(first) !in st.store && Truthy(TokenAt(Split(first.content), 3))
    requires RoomKey(second) == RoomKey(first)
    ensures var r1 := HandleMessage(st, first);
      var r := HandleMessage(r1.st, second);
      && r1.outcome == Completed && r.outcome == Completed
      && r.st.player == Playing(CallerChannel(second), UrlOnly(Some(Split(first.content)[3])))
      && |r.st.log| > 0 && r.st.log[|r.st.log| - 1] == Played(CallerChannel(second), UrlOnly(Some(Split(first.content)[3])))
  {
    var st1 := PlayBranch(st, first);
    OnlyPlayFires(st, first);
    assert HandleMessage(st, first) == Handled(st1, Completed);
    OnlyPlayFires(st1, second);
    assert HandleMessage(st1, second) == Handled(PlayBranch(st1, second), Completed);
    RoomClipPersistsThenPlaysBranch(st, first, second);
  }

  // ---------------------------------------------------------------------------
  // The state invariant
  // ---------------------------------------------------------------------------

  /** `!music-update` only writes documents of the shape the invariant allows. */
  lemma {:induction false} UpdateBranchPreservesValid(st: State, m: Message)
    requires Valid(st)
    ensures Valid(UpdateBranch(st, m).st)
  {
    var r := UpdateBranch(st, m);
    if r.st != st {
      var tokens := Split(m.content);
      var record := UserRecord(m.username.value, BuildMusic(tokens));
      assert WellFormed(record);
      assert r.st.store == st.store[Key("users", m.userId.value) := record];
    }
  }

  /** `!music-play` joins before it plays and only stores non-empty URLs. */
  lemma {:induction false} PlayBranchPreservesValid(st: State, m: Message)
    requires Valid(st)
    ensures Valid(PlayBranch(st, m))
  {
    if PlayProceeds(m) {
      var tokens := Split(m.content);
      var r := PlayBranch(st, m);
      assert r.connection == Some(CallerChannel(m)) && m.guild.value in r.live;
      if RoomKey(m) !in st.store && Truthy(TokenAt(tokens, 3)) {
        assert WellFormed(RoomRecord(tokens[3]));
        assert r.store == st.store[RoomKey(m) := RoomRecord(tokens[3])];
      } else {
        assert r.store == st.store;
      }
    }
  }

  /** Every message keeps the state invariant, whichever branches fire. */
  lemma {:induction false} MessagePreservesValid(st: State, m: Message)
    requires Valid(st)
    ensures Valid(HandleMessage(st, m).st)
  {
    var greeted := Greetings(st, m);
    assert Valid(greeted);
    var me := MeBranch(greeted, m);
    assert Valid(me.st);
    UpdateBranchPreservesValid(me.st, m);
    var update := UpdateBranch(me.st, m);
    var stopped := StopBranch(update.st, m);
    assert Valid(stopped);
    PlayBranchPreservesValid(stopped, m);
  }
}
