/** The bot's playback state: the song queues of all guilds, the voice client
    of each guild, and the completion callbacks the voice transport has handed
    to the event loop. The commands, the voice-state event and the two
    transport events (a track reaches its end, a due callback runs) are the
    methods of MusicBot. */
module Bot {
  import opened VoiceTypes
  import opened Queues

  type Clients = map<GuildId, VoiceClient>

  function Lookup(clients: Clients, g: GuildId): (r: Option<VoiceClient>)
    ensures r.Some? <==> g in clients
    ensures r.Some? ==> r.value == clients[g]
  {
    if g in clients then Some(clients[g]) else None
  }

  /** Whether the connection `id` is still the guild's voice client; a
      callback's handle outlives its connection once the bot disconnects. */
  predicate Live(clients: Clients, g: GuildId, id: ClientId)
  {
    g in clients && clients[g].id == id
  }

  /** Whether the transport takes a new track on connection `id`: it refuses
      a handle that is no longer connected and a client that is already playing. */
  predicate Accepts(clients: Clients, g: GuildId, id: ClientId)
  {
    Live(clients, g, id) && !clients[g].activity.Playing?
  }

  function HookFor(t: Track): (h: AfterHook)
    ensures h == DisconnectHook <==> t == WelcomeSound
  {
    if t.WelcomeSound? then DisconnectHook else PlayNextHook
  }

  /** The callbacks that stopping connection `id` makes due: the hook of the
      track it holds, if it holds one. */
  function StopHooks(clients: Clients, g: GuildId, id: ClientId): (r: seq<Callback>)
    ensures |r| <= 1
    ensures r != [] <==> Live(clients, g, id) && !clients[g].activity.Idle?
    ensures r != [] ==> r[0] == Callback(g, id, HookFor(clients[g].activity.track))
  {
    if Live(clients, g, id) && !clients[g].activity.Idle?
    then [Callback(g, id, HookFor(clients[g].activity.track))]
    else []
  }

  /** The clients after disconnecting handle `id`: a live connection is
      dropped, a dead handle changes nothing. */
  function Detach(clients: Clients, g: GuildId, id: ClientId): (r: Clients)
    ensures g !in r <==> Live(clients, g, id) || g !in clients
    ensures r.Keys <= clients.Keys
    ensures forall h :: h in clients && h != g ==> h in r && r[h] == clients[h]
    ensures Live(clients, g, id) ==> r == clients - {g}
    ensures !Live(clients, g, id) ==> r == clients
  {
    if Live(clients, g, id) then clients - {g} else clients
  }

  /** The connect-or-move step before a guild's audio is played: a guild
      without a client connects (a new connection, nothing playing); a client
      in another channel moves (same connection, same player); a client in
      the target channel is kept. None when the connect or the move fails. */
  function ConnectStep(current: Option<VoiceClient>, newId: ClientId, ch: ChannelId, ok: bool)
    : (r: Option<VoiceClient>)
    ensures r.None? <==> !ok && (current.None? || current.value.channel != ch)
    ensures r.Some? ==> r.value.channel == ch
    ensures r.Some? && current.Some? ==>
      r.value.id == current.value.id && r.value.activity == current.value.activity
    ensures r.Some? && current.None? ==> r.value == VoiceClient(newId, ch, Idle)
  {
    match current
    case None => if ok then Some(VoiceClient(newId, ch, Idle)) else None
    case Some(c) =>
      if c.channel == ch then Some(c)
      else if ok then Some(c.(channel := ch))
      else None
  }

  /** The title a found song is queued under. */
  function TitleOf(res: Resolution): string
    requires res.Found?
  {
    match res.title
    case Some(t) => t
    case None => UnknownTitle
  }

  /** The welcome sound is due exactly when the priority user goes from no
      voice channel to some voice channel. */
  predicate WelcomeTriggered(config: Config, member: UserId, before: Option<ChannelId>,
                             after: Option<ChannelId>)
  {
    member == config.priorityUser && before.None? && after.Some?
  }

  class MusicBot {
    const config: Config
    /** The song queue of each guild that ever had one. */
    var queues: QueueStore
    /** The connected voice client of each guild. */
    var clients: Clients
    /** Completion callbacks that are due, oldest first. */
    var pending: seq<Callback>
    /** The id the next connection gets. */
    var nextId: ClientId

    /** Every connection id in use, by a client or by a due callback, was
        handed out before: a new connection is never mistaken for an old one. */
    ghost predicate Valid()
      reads this
    {
      (forall g :: g in clients ==> clients[g].id < nextId) &&
      (forall i :: 0 <= i < |pending| ==> pending[i].client < nextId)
    }

    constructor (config: Config)
      ensures Valid() && this.config == config
      ensures queues == map[] && clients == map[] && pending == [] && nextId == 0
    {
      this.config := config;
      queues, clients, pending, nextId := map[], map[], [], 0;
    }

    /** The state `PlayNext(g, id)` leaves, from the state q0, c0, p0, n0 it
        started in: the head of the guild's queue is taken and played on the
        connection if the transport accepts it (the song is lost if not);
        with no song to take, the connection is disconnected. */
    ghost predicate PlayedNext(g: GuildId, id: ClientId, reply: Reply,
                               q0: QueueStore, c0: Clients, p0: seq<Callback>, n0: ClientId)
      reads this
    {
      var (head, rest) := PopHead(q0, g);
      nextId == n0 &&
      if head.Some? then
        queues == rest && pending == p0 &&
        if Accepts(c0, g, id) then
          clients == c0[g := c0[g].(activity := Playing(QueuedSong(head.value)))] &&
          reply == NowPlaying(head.value.title)
        else
          clients == c0 && reply == PlayRejected
      else
        queues == q0 && clients == Detach(c0, g, id) &&
        pending == p0 + StopHooks(c0, g, id) && reply == QueueEmptyDisconnected
    }

    /** Disconnects handle `id`: a live connection stops its player (its hook
        becomes due) and leaves the guild; a dead handle is a no-op. */
    method Disconnect(g: GuildId, id: ClientId)
      requires Valid()
      modifies this
      ensures Valid()
      ensures queues == old(queues) && nextId == old(nextId)
      ensures clients == Detach(old(clients), g, id)
      ensures pending == old(pending) + StopHooks(old(clients), g, id)
    {
      pending := pending + StopHooks(clients, g, id);
      clients := Detach(clients, g, id);
    }

    /** Plays the next song of guild `g` on connection `id`, or disconnects
        when the guild has no song waiting. */
    method PlayNext(g: GuildId, id: ClientId) returns (reply: Reply)
      requires Valid()
      modifies this
      ensures Valid()
      ensures PlayedNext(g, id, reply, old(queues), old(clients), old(pending), old(nextId))
    {
      if g in queues && queues[g] != [] {
        var song := queues[g][0];
        queues := queues[g := queues[g][1..]];
        if Accepts(clients, g, id) {
          clients := clients[g := clients[g].(activity := Playing(QueuedSong(song)))];
          reply := NowPlaying(song.title);
        } else {
          reply := PlayRejected;
        }
      } else {
        Disconnect(g, id);
        reply := QueueEmptyDisconnected;
      }
    }

    /** Connects to channel `ch`, or moves the guild's client there; on
        failure nothing changes and None is returned. */
    method Attach(g: GuildId, ch: ChannelId, transportOk: bool) returns (client: Option<VoiceClient>)
      requires Valid()
      modifies this
      ensures Valid()
      ensures client == ConnectStep(Lookup(old(clients), g), old(nextId), ch, transportOk)
      ensures queues == old(queues) && pending == old(pending)
      ensures client.None? ==> unchanged(this)
      ensures client.Some? && g !in old(clients) ==>
        forall i :: 0 <= i < |pending| ==> pending[i].client != client.value.id
      ensures client.Some? ==>
        clients == old(clients)[g := client.value] &&
        nextId == (if g in old(clients) then old(nextId) else old(nextId) + 1)
    {
      var c: VoiceClient;
      if g in clients {
        c := clients[g];
        if c.channel != ch {
          if !transportOk {
            return None;
          }
          c := c.(channel := ch);
        }
      } else {
        if !transportOk {
          return None;
        }
        c := VoiceClient(nextId, ch, Idle);
        nextId := nextId + 1;
      }
      clients := clients[g := c];
      client := Some(c);
    }

    /** The play command. The author must be in a voice channel; the bot
        connects or moves there, makes sure the guild has a queue, resolves the
        song and prepares its audio, queues it (in front for the priority user)
        and starts the queue when the client is neither playing nor paused. */
    method Play(g: GuildId, author: UserId, authorChannel: Option<ChannelId>, transportOk: bool,
                resolution: Resolution, audio: AudioHandle, sourceOk: bool)
      returns (replies: seq<Reply>)
      requires Valid()
      modifies this
      ensures Valid()
      ensures authorChannel.None? ==> replies == [NeedVoiceChannel] && unchanged(this)
      ensures authorChannel.Some? ==>
        var c := ConnectStep(Lookup(old(clients), g), old(nextId), authorChannel.value, transportOk);
        if c.None? then
          replies == [if g in old(clients) then MoveFailed else ConnectFailed] && unchanged(this)
        else
          var c1 := old(clients)[g := c.value];
          var q1 := WithQueue(old(queues), g);
          nextId == (if g in old(clients) then old(nextId) else old(nextId) + 1) &&
          pending == old(pending) &&
          if resolution.NotFound? then
            replies == [SongNotFound] && queues == q1 && clients == c1
          else if !sourceOk then
            replies == [SourceFailed] && queues == q1 && clients == c1
          else
            var song := Song(TitleOf(resolution), audio);
            var priority := author == config.priorityUser;
            var q2 := q1[g := Enqueue(q1[g], song, priority)];
            if c.value.activity.Idle? then
              var (head, rest) := PopHead(q2, g);
              head.Some? && queues == rest &&
              clients == c1[g := c.value.(activity := Playing(QueuedSong(head.value)))] &&
              replies == [Added(song.title, priority), NowPlaying(head.value.title)]
            else
              queues == q2 && clients == c1 && replies == [Added(song.title, priority)]
    {
      if authorChannel.None? {
        return [NeedVoiceChannel];
      }
      var wasConnected := g in clients;
      var attached := Attach(g, authorChannel.value, transportOk);
      if attached.None? {
        return [if wasConnected then MoveFailed else ConnectFailed];
      }
      var client := attached.value;
      if g !in queues {
        queues := queues[g := []];
      }
      if resolution.NotFound? {
        return [SongNotFound];
      }
      if !sourceOk {
        return [SourceFailed];
      }
      var song := Song(TitleOf(resolution), audio);
      var priority := author == config.priorityUser;
      if priority {
        queues := queues[g := [song] + queues[g]];
      } else {
        queues := queues[g := queues[g] + [song]];
      }
      replies := [Added(song.title, priority)];
      if client.activity.Idle? {
        var next := PlayNext(g, client.id);
        replies := replies + [next];
      }
    }

    /** The pause command: only a playing client is paused. */
    method Pause(g: GuildId) returns (reply: Reply)
      requires Valid()
      modifies this
      ensures Valid()
      ensures queues == old(queues) && pending == old(pending) && nextId == old(nextId)
      ensures g in old(clients) && old(clients)[g].activity.Playing? ==>
        reply == PausedSong &&
        clients == old(clients)[g := old(clients)[g].(activity := Paused(old(clients)[g].activity.track))]
      ensures !(g in old(clients) && old(clients)[g].activity.Playing?) ==>
        reply == NothingPlaying && clients == old(clients)
    {
      if g in clients && clients[g].activity.Playing? {
        clients := clients[g := clients[g].(activity := Paused(clients[g].activity.track))];
        reply := PausedSong;
      } else {
        reply := NothingPlaying;
      }
    }

    /** The resume command: only a paused client resumes. */
    method Resume(g: GuildId) returns (reply: Reply)
      requires Valid()
      modifies this
      ensures Valid()
      ensures queues == old(queues) && pending == old(pending) && nextId == old(nextId)
      ensures g in old(clients) && old(clients)[g].activity.Paused? ==>
        reply == ResumedSong &&
        clients == old(clients)[g := old(clients)[g].(activity := Playing(old(clients)[g].activity.track))]
      ensures !(g in old(clients) && old(clients)[g].activity.Paused?) ==>
        reply == NotPaused && clients == old(clients)
    {
      if g in clients && clients[g].activity.Paused? {
        clients := clients[g := clients[g].(activity := Playing(clients[g].activity.track))];
        reply := ResumedSong;
      } else {
        reply := NotPaused;
      }
    }

    /** The skip command: the priority user stops what is playing, which makes
        its completion callback due; nothing else is touched. */
    method Skip(g: GuildId, author: UserId) returns (reply: Reply)
      requires Valid()
      modifies this
      ensures Valid()
      ensures queues == old(queues) && nextId == old(nextId)
      ensures !(g in old(clients) && old(clients)[g].activity.Playing?) ==>
        reply == NothingPlaying && unchanged(this)
      ensures g in old(clients) && old(clients)[g].activity.Playing? && author != config.priorityUser ==>
        reply == NoSkipPermission && unchanged(this)
      ensures g in old(clients) && old(clients)[g].activity.Playing? && author == config.priorityUser ==>
        reply == Skipped &&
        clients == old(clients)[g := old(clients)[g].(activity := Idle)] &&
        pending == old(pending) + StopHooks(old(clients), g, old(clients)[g].id)
    {
      if g in clients && clients[g].activity.Playing? {
        if author == config.priorityUser {
          pending := pending + StopHooks(clients, g, clients[g].id);
          clients := clients[g := clients[g].(activity := Idle)];
          reply := Skipped;
        } else {
          reply := NoSkipPermission;
        }
      } else {
        reply := NothingPlaying;
      }
    }

    /** The clear command: the priority user empties the guild's queue, if it
        has one; what is playing goes on. */
    method Clear(g: GuildId, author: UserId) returns (reply: Reply)
      requires Valid()
      modifies this
      ensures Valid()
      ensures clients == old(clients) && pending == old(pending) && nextId == old(nextId)
      ensures author != config.priorityUser ==> reply == NoClearPermission && queues == old(queues)
      ensures author == config.priorityUser && g !in old(queues) ==>
        reply == AlreadyEmpty && queues == old(queues)
      ensures author == config.priorityUser && g in old(queues) ==>
        reply == ClearedQueue && queues == old(queues)[g := []]
    {
      if author == config.priorityUser {
        if g in queues {
          queues := queues[g := []];
          reply := ClearedQueue;
        } else {
          reply := AlreadyEmpty;
        }
      } else {
        reply := NoClearPermission;
      }
    }

    /** The stop command: when a client exists, the priority user empties the
        guild's queue and disconnects. The queue is looked up without a
        default, so a guild with a client but no queue gets the generic error
        and nothing changes. */
    method Stop(g: GuildId, author: UserId) returns (reply: Reply)
      requires Valid()
      modifies this
      ensures Valid()
      ensures nextId == old(nextId)
      ensures g !in old(clients) ==> reply == NotConnected && unchanged(this)
      ensures g in old(clients) && author != config.priorityUser ==>
        reply == NoStopPermission && unchanged(this)
      ensures g in old(clients) && author == config.priorityUser && g !in old(queues) ==>
        reply == UnexpectedError && unchanged(this)
      ensures g in old(clients) && author == config.priorityUser && g in old(queues) ==>
        reply == StoppedAndDisconnected &&
        queues == old(queues)[g := []] &&
        clients == old(clients) - {g} &&
        pending == old(pending) + StopHooks(old(clients), g, old(clients)[g].id)
    {
      if g !in clients {
        return NotConnected;
      }
      if author != config.priorityUser {
        return NoStopPermission;
      }
      if g !in queues {
        return UnexpectedError;
      }
      queues := queues[g := []];
      Disconnect(g, clients[g].id);
      reply := StoppedAndDisconnected;
    }

    /** The voice-state event. When the priority user joins a channel from
        none, the bot connects or moves there (giving up on failure) and plays
        the welcome sound if its file exists, its audio can be prepared and
        the client is not playing. The queues are never touched. */
    method VoiceStateUpdate(g: GuildId, member: UserId, before: Option<ChannelId>,
                            after: Option<ChannelId>, transportOk: bool, fileExists: bool,
                            sourceOk: bool)
      returns (outcome: WelcomeOutcome)
      requires Valid()
      modifies this
      ensures Valid()
      ensures queues == old(queues) && pending == old(pending)
      ensures !WelcomeTriggered(config, member, before, after) ==>
        outcome == NotTriggered && unchanged(this)
      ensures WelcomeTriggered(config, member, before, after) ==>
        var c := ConnectStep(Lookup(old(clients), g), old(nextId), after.value, transportOk);
        if c.None? then
          outcome == (if g in old(clients) then WelcomeMoveFailed else WelcomeConnectFailed) &&
          unchanged(this)
        else
          nextId == (if g in old(clients) then old(nextId) else old(nextId) + 1) &&
          if !fileExists then
            outcome == FileMissing && clients == old(clients)[g := c.value]
          else if !sourceOk then
            outcome == WelcomeSourceFailed && clients == old(clients)[g := c.value]
          else if c.value.activity.Playing? then
            outcome == AlreadyPlaying && clients == old(clients)[g := c.value]
          else
            outcome == WelcomeStarted &&
            clients == old(clients)[g := c.value.(activity := Playing(WelcomeSound))]
    {
      if !WelcomeTriggered(config, member, before, after) {
        return NotTriggered;
      }
      var wasConnected := g in clients;
      var attached := Attach(g, after.value, transportOk);
      if attached.None? {
        return if wasConnected then WelcomeMoveFailed else WelcomeConnectFailed;
      }
      var client := attached.value;
      if !fileExists {
        return FileMissing;
      }
      if !sourceOk {
        return WelcomeSourceFailed;
      }
      if client.activity.Playing? {
        return AlreadyPlaying;
      }
      clients := clients[g := client.(activity := Playing(WelcomeSound))];
      outcome := WelcomeStarted;
    }

    /** Transport event: the track playing in guild `g` reaches its end; the
        player goes idle and the track's hook becomes due. */
    method TrackEnds(g: GuildId)
      requires Valid()
      modifies this
      ensures Valid()
      ensures queues == old(queues) && nextId == old(nextId)
      ensures !(g in old(clients) && old(clients)[g].activity.Playing?) ==> unchanged(this)
      ensures g in old(clients) && old(clients)[g].activity.Playing? ==>
        clients == old(clients)[g := old(clients)[g].(activity := Idle)] &&
        pending == old(pending) + StopHooks(old(clients), g, old(clients)[g].id)
    {
      if g in clients && clients[g].activity.Playing? {
        pending := pending + StopHooks(clients, g, clients[g].id);
        clients := clients[g := clients[g].(activity := Idle)];
      }
    }

    /** Event-loop step: runs the oldest due callback. A song's hook plays the
        guild's next song on the connection it was registered on; the welcome
        sound's hook disconnects that connection whatever is queued. Returns
        the message the hook sends, if any. */
    method RunCallback() returns (reply: Option<Reply>)
      requires Valid()
      modifies this
      ensures Valid()
      ensures old(pending) == [] ==> reply == None && unchanged(this)
      ensures old(pending) != [] && old(pending)[0].hook == PlayNextHook ==>
        reply.Some? &&
        PlayedNext(old(pending)[0].guild, old(pending)[0].client, reply.value,
                   old(queues), old(clients), old(pending)[1..], old(nextId))
      ensures old(pending) != [] && old(pending)[0].hook == DisconnectHook ==>
        var cb := old(pending)[0];
        reply == None && queues == old(queues) && nextId == old(nextId) &&
        clients == Detach(old(clients), cb.guild, cb.client) &&
        pending == old(pending)[1..] + StopHooks(old(clients), cb.guild, cb.client)
    {
      if pending == [] {
        return None;
      }
      var cb := pending[0];
      pending := pending[1..];
      if cb.hook == PlayNextHook {
        var r := PlayNext(cb.guild, cb.client);
        reply := Some(r);
      } else {
        Disconnect(cb.guild, cb.client);
        reply := None;
      }
    }
  }
}
