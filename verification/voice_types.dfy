/** Values shared by the music-queue model of the bot: identifiers, songs, the
    abstract state of a voice client, the completion callbacks the voice
    transport hands back to the event loop, and the replies the commands send. */
module VoiceTypes {

  datatype Option<T> = None | Some(value: T)

  type GuildId = int
  type ChannelId = int
  type UserId = int
  /** Identifies one voice connection; every successful connect yields a new one. */
  type ClientId = nat
  /** Opaque handle of a prepared audio stream (the FFmpeg source of a song). */
  type AudioHandle = nat

  /** The values the bot reads from its environment at start-up. */
  datatype Config = Config(priorityUser: UserId, blockedUser: UserId, djRoleName: string)

  /** The role name used when none is configured. */
  const DefaultDjRoleName: string := "DJ"
  /** The title given to a search result that carries none. */
  const UnknownTitle: string := "Unknown Title"

  /** One entry of a guild's queue: a title and the audio to play. */
  datatype Song = Song(title: string, audio: AudioHandle)

  /** What a voice client can be playing: a queued song or the welcome sound. */
  datatype Track = QueuedSong(song: Song) | WelcomeSound

  /** The player of a voice client: nothing, or a track that is playing or paused. */
  datatype Activity = Idle | Playing(track: Track) | Paused(track: Track)

  /** A connected voice client: its connection id, its channel and its player. */
  datatype VoiceClient = VoiceClient(id: ClientId, channel: ChannelId, activity: Activity)

  /** What the `after` hook of a track does once it runs: a queued song's hook
      advances the queue, the welcome sound's hook disconnects. */
  datatype AfterHook = PlayNextHook | DisconnectHook

  /** A completion callback that has become due and waits for the event loop;
      it holds the guild and the connection it was registered on. */
  datatype Callback = Callback(guild: GuildId, client: ClientId, hook: AfterHook)

  /** Outcome of the search for a song: nothing found, or a result whose
      title may be missing. */
  datatype Resolution = NotFound | Found(title: Option<string>)

  /** The messages the commands send back to the channel they were issued in. */
  datatype Reply =
    | NeedVoiceChannel
    | ConnectFailed
    | MoveFailed
    | SongNotFound
    | SourceFailed
    | Added(title: string, priority: bool)
    | NowPlaying(title: string)
    | QueueEmptyDisconnected
    | PlayRejected           // the transport raised; surfaces as the generic error
    | PausedSong
    | NothingPlaying
    | ResumedSong
    | NotPaused
    | Skipped
    | NoSkipPermission
    | ClearedQueue
    | AlreadyEmpty
    | NoClearPermission
    | StoppedAndDisconnected
    | NoStopPermission
    | NotConnected
    | UnexpectedError

  /** The reply of the queue listing command. */
  datatype QueueReply = EmptyQueue | CurrentQueue(lines: seq<string>)

  /** What the voice-state handler did about the welcome sound. */
  datatype WelcomeOutcome =
    | NotTriggered
    | WelcomeMoveFailed
    | WelcomeConnectFailed
    | FileMissing
    | WelcomeSourceFailed
    | AlreadyPlaying
    | WelcomeStarted
}
