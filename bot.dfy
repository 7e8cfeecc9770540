/**
 * The bot process: the module-level state of src/index.ts (the `connection`
 * variable, the shared `audioPlayer`, the document store and the voice
 * connections the platform keeps per guild) as the fields of one object, and
 * the two event handlers as methods that update them step by step, with the
 * source's early returns. Each handler is proved to do exactly what
 * Router.HandleMessage / Presence.HandlePresence say.
 */
module Bot {
  import opened Wrappers
  import opened Text
  import opened Records
  import opened Router
  import opened Presence
  import RouterProperties

  class Bot {
    var store: map<Key, Record>   // the document store, by (collection, id)
    var connection: Option<Target>  // `connection` (src/index.ts:28)
    var live: set<string>         // guilds with a live voice connection (`getVoiceConnections()`)
    var player: Player            // `audioPlayer` (src/index.ts:29)
    var log: seq<Effect>          // everything said and done so far

    function Snapshot(): State
      reads this
    {
      State(store, connection, live, player, log)
    }

    predicate Valid()
      reads this
    {
      Records.Valid(Snapshot())
    }

    /** Start-up: the store as found, no connection, an idle player. */
    constructor (initial: map<Key, Record>)
      ensures Snapshot() == Initial(initial)
      ensures (forall k :: k in initial ==> WellFormed(initial[k])) ==> Valid()
    {
      store, connection, live, player, log := initial, None, {}, Idle, [];
    }

    method Say(e: Effect)
      requires e.RepliedTo? || e.Sent?
      modifies this
      ensures Snapshot() == Records.Say(old(Snapshot()), e)
    {
      log := log + [e];
    }

    method UpdateMusic(k: Key, r: Record)
      modifies this
      ensures Snapshot() == Records.UpdateMusic(old(Snapshot()), k, r)
    {
      store := store[k := r];
      log := log + [Wrote(k, r)];
    }

    method StopPlayer()
      modifies this
      ensures Snapshot() == Records.StopPlayer(old(Snapshot()))
    {
      player := Idle;
      log := log + [PlayerStopped];
    }

    method JoinChannel(t: Target)
      modifies this
      ensures Snapshot() == Records.JoinChannel(old(Snapshot()), t)
    {
      connection := Some(t);
      live := live + {t.guild};
      log := log + [Joined(t)];
    }

    method PlayMusic(t: Target, arg: PlayArg)
      modifies this
      ensures Snapshot() == Records.PlayMusic(old(Snapshot()), t, arg)
    {
      player := Playing(t, arg);
      log := log + [Played(t, arg)];
    }

    /** The `messageCreate` handler (src/index.ts:43-112). */
    method OnMessage(m: Message) returns (outcome: Outcome)
      modifies this
      ensures Handled(Snapshot(), outcome) == HandleMessage(old(Snapshot()), m)
      ensures old(Valid()) ==> Valid()
    {
      if Valid() {
        RouterProperties.MessagePreservesValid(Snapshot(), m);
      }
      Greet(m);
      var flow := MusicMe(m);
      if flow == Throw {
        return Threw;
      } else if flow == Return {
        return Completed;
      }
      flow := MusicUpdate(m);
      if flow == Throw {
        return Threw;
      } else if flow == Return {
        return Completed;
      }
      MusicStop(m);
      MusicPlay(m);
      return Completed;
    }

    /** `Hello`, the Japanese greeting and `!music-help` (src/index.ts:46-57). */
    method Greet(m: Message)
      modifies this
      ensures Snapshot() == Greetings(old(Snapshot()), m)
    {
      if m.content == HELLO {
        Say(RepliedTo(Hi));
      }
      if m.content == KONNICHIWA {
        Say(Sent(Greeting));
      }
      if m.content == HELP {
        Say(Sent(HelpUpdate));
        Say(Sent(HelpMe));
        Say(Sent(HelpStop));
      }
    }

    /** `!music-me` (src/index.ts:58-68). */
    method MusicMe(m: Message) returns (flow: Flow)
      modifies this
      ensures Step(Snapshot(), flow) == MeBranch(old(Snapshot()), m)
    {
      flow := Continue;
      if m.content == ME {
        if !Truthy(m.userId) {
          return Return;
        }
        var stored := Lookup(store, Key("users", m.userId.value));
        match stored
        case None =>
          Say(Sent(MusicNotFound));
        case Some(UserRecord(_, music)) =>
          Say(Sent(MusicOf(m.username, music)));
        case Some(RoomRecord(_)) =>
          return Throw;
      }
    }

    /** `!music-update` (src/index.ts:69-81). */
    method MusicUpdate(m: Message) returns (flow: Flow)
      modifies this
      ensures Step(Snapshot(), flow) == UpdateBranch(old(Snapshot()), m)
    {
      flow := Continue;
      if Contains(m.content, UPDATE) {
        var tokens := Split(m.content);
        if |tokens| < 2 {
          return Throw;
        }
        if !Contains(tokens[1], YOUTUBE) {
          return Return;
        }
        var music := BuildMusic(tokens);
        if !Truthy(m.userId) || !Truthy(m.username) {
          return Return;
        }
        if m.username.value == BOT_NAME {
          return Return;
        }
        UpdateMusic(Key("users", m.userId.value), UserRecord(m.username.value, music));
        Say(Sent(Updated(tokens[1])));
      }
    }

    /** `!music-stop` (src/index.ts:82-84). */
    method MusicStop(m: Message)
      modifies this
      ensures Snapshot() == StopBranch(old(Snapshot()), m)
    {
      if m.content == STOP {
        StopPlayer();
      }
    }

    /** `!music-play` (src/index.ts:85-111). */
    method MusicPlay(m: Message)
      modifies this
      ensures Snapshot() == PlayBranch(old(Snapshot()), m)
    {
      if Contains(m.content, PLAY) {
        var tokens := Split(m.content);
        var collection, id := TokenAt(tokens, 1), TokenAt(tokens, 2);
        if !Truthy(collection) || !Truthy(id) {
          return;
        }
        var key := Key(collection.value, id.value);
        var stored := Lookup(store, key);
        if m.guild.None? || !Truthy(m.voiceChannel) {
          return;
        }
        var t := Target(m.guild.value, m.voiceChannel.value);
        if t.guild in live {
          StopPlayer();
        }
        JoinChannel(t);
        match ChoosePlay(stored, TokenAt(tokens, 3))
        case JoinOnly =>
        case PlayStored(arg) =>
          PlayMusic(t, arg);
        case PersistAndPlay(url) =>
          UpdateMusic(key, RoomRecord(url));
          PlayMusic(t, UrlOnly(Some(url)));
      }
    }

    /** The `voiceStateUpdate` handler (src/index.ts:114-129). */
    method OnVoiceStateUpdate(u: VoiceUpdate)
      modifies this
      ensures Snapshot() == HandlePresence(old(Snapshot()), u)
      ensures old(Valid()) ==> Valid()
    {
      if Valid() {
        PresencePreservesValid(Snapshot(), u);
      }
      if u.username == Some(BOT_NAME) || u.oldChannel == u.newChannel {
        return;
      }
      if Truthy(u.newChannel) {
        if !Truthy(u.username) {
          return;
        }
        var stored := Lookup(store, Key("users", u.memberId));
        if stored.None? {
          return;
        }
        var t := Target(u.guild, u.newChannel.value);
        JoinChannel(t);
        PlayMusic(t, MusicArg(stored.value));
      }
      // Leaving voice: the source only writes a log line.
    }
  }
}
