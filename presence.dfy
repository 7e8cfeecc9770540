/**
 * The `voiceStateUpdate` handler (src/index.ts:114-129): a transition rule over a
 * member's old and new voice channel.
 */
module Presence {
  import opened Wrappers
  import opened Records

  /** A member's voice-state change, with what the handler reads of it. */
  datatype VoiceUpdate = VoiceUpdate(
    memberId: string,
    username: Option<string>,
    guild: string,
    oldChannel: Option<string>,
    newChannel: Option<string>)

  /** The argument `playMusic` gets for a stored document: its `music` field, if any. */
  function MusicArg(r: Record): PlayArg {
    match r
    case UserRecord(_, music) => Clip(music)
    case RoomRecord(_) => NoMusic
  }

  /**
   * Ignore the bot and non-changes; on entering a channel, join it and play the
   * member's stored clip if there is one; on leaving, only log.
   */
  function HandlePresence(st: State, u: VoiceUpdate): State {
    if u.username == Some(BOT_NAME) || u.oldChannel == u.newChannel then st
    else if Truthy(u.newChannel) then
      if !Truthy(u.username) then st
      else
        match Lookup(st.store, Key("users", u.memberId))
        case None => st
        case Some(r) =>
          var t := Target(u.guild, u.newChannel.value);
          PlayMusic(JoinChannel(st, t), t, MusicArg(r))
    else st
  }

  /** The bot's own presence changes, and changes that are no change, are ignored. */
  lemma {:induction false} PresenceIgnored(st: State, u: VoiceUpdate)
    requires u.username == Some(BOT_NAME) || u.oldChannel == u.newChannel
    ensures HandlePresence(st, u) == st
  {
  }

  /** The conditions under which a presence change reaches the store lookup. */
  predicate Enters(u: VoiceUpdate) {
    && u.username != Some(BOT_NAME) && u.oldChannel != u.newChannel
    && Truthy(u.newChannel) && Truthy(u.username)
  }

  /**
   * A member with a stored document entering a channel: exactly one join of
   * (guild, new channel) and one play of the document's `music`, and nothing
   * else; a member without one, or a member leaving voice, changes nothing.
   */
  lemma {:induction false} PresenceTransitions(st: State, u: VoiceUpdate)
    ensures var key := Key("users", u.memberId);
      && (Enters(u) && key in st.store ==>
            var t := Target(u.guild, u.newChannel.value);
            HandlePresence(st, u) == st.(connection := Some(t), live := st.live + {u.guild},
                                         player := Playing(t, MusicArg(st.store[key])),
                                         log := st.log + [Joined(t), Played(t, MusicArg(st.store[key]))]))
      && (Enters(u) && key !in st.store ==> HandlePresence(st, u) == st)
      && (!Truthy(u.newChannel) ==> HandlePresence(st, u) == st)
  {
    if Enters(u) && Key("users", u.memberId) in st.store {
      var t := Target(u.guild, u.newChannel.value);
      assert st.log + [Joined(t)] + [Played(t, MusicArg(st.store[Key("users", u.memberId)]))]
          == st.log + [Joined(t), Played(t, MusicArg(st.store[Key("users", u.memberId)]))];
    }
  }

  /** A user document's clip is what gets played. */
  lemma {:induction false} PresencePlaysUserMusic(st: State, u: VoiceUpdate)
    requires Enters(u)
    requires Key("users", u.memberId) in st.store && st.store[Key("users", u.memberId)].UserRecord?
    ensures HandlePresence(st, u).player ==
      Playing(Target(u.guild, u.newChannel.value), Clip(st.store[Key("users", u.memberId)].music))
  {
  }

  /** Presence changes keep the state invariant. */
  lemma {:induction false} PresencePreservesValid(st: State, u: VoiceUpdate)
    requires Valid(st)
    ensures Valid(HandlePresence(st, u))
  {
  }
}
