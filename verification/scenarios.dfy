/** Runs of the bot through a few events, showing what its rules add up to. */
module Scenarios {
  import opened VoiceTypes
  import opened Queues
  import opened Bot

  const Guild: GuildId := 10
  const Channel: ChannelId := 100
  const PriorityUser: UserId := 1
  const BlockedUser: UserId := 2
  const OtherUser: UserId := 5

  /** While the welcome sound plays, the guild has a voice client but no
      queue, so the priority user's stop command fails and changes nothing. */
  method StopDuringWelcome() returns (outcome: WelcomeOutcome, reply: Reply, stillPlaying: bool)
    ensures outcome == WelcomeStarted
    ensures reply == UnexpectedError
    ensures stillPlaying
  {
    var bot := new MusicBot(Config(PriorityUser, BlockedUser, DefaultDjRoleName));
    outcome := bot.VoiceStateUpdate(Guild, PriorityUser, None, Some(Channel), true, true, true);
    reply := bot.Stop(Guild, PriorityUser);
    stillPlaying := Guild in bot.clients && bot.clients[Guild].activity == Playing(WelcomeSound);
  }

  /** On an idle connected client a song starts at once; a later priority
      song waits in front of the queue instead of pre-empting it. */
  method IdleThenPriority() returns (first: seq<Reply>, second: seq<Reply>, waiting: seq<Song>)
    ensures first == [Added("A", false), NowPlaying("A")]
    ensures second == [Added("B", true)]
    ensures waiting == [Song("B", 2)]
  {
    var bot := new MusicBot(Config(PriorityUser, BlockedUser, DefaultDjRoleName));
    first := bot.Play(Guild, OtherUser, Some(Channel), true, Found(Some("A")), 1, true);
    second := bot.Play(Guild, PriorityUser, Some(Channel), true, Found(Some("B")), 2, true);
    waiting := bot.queues[Guild];
  }

  /** A song requested during the welcome sound waits; when the welcome sound
      ends, its hook disconnects the bot and the song stays queued. */
  method WelcomeEndIgnoresQueue() returns (added: seq<Reply>, hookReply: Option<Reply>,
                                           connected: bool, waiting: seq<Song>)
    ensures added == [Added("A", false)]
    ensures hookReply == None
    ensures !connected
    ensures waiting == [Song("A", 1)]
  {
    var bot := new MusicBot(Config(PriorityUser, BlockedUser, DefaultDjRoleName));
    var outcome := bot.VoiceStateUpdate(Guild, PriorityUser, None, Some(Channel), true, true, true);
    added := bot.Play(Guild, OtherUser, Some(Channel), true, Found(Some("A")), 1, true);
    bot.TrackEnds(Guild);
    hookReply := bot.RunCallback();
    connected := Guild in bot.clients;
    waiting := bot.queues[Guild];
  }

  /** After a skip, the stopped song's hook is still due when the next play
      command starts the queue itself; once the hook runs, the transport
      refuses the song it takes (the client is playing) and that song is lost. */
  method SkipRace() returns (hookReply: Option<Reply>, waiting: seq<Song>, nowPlaying: Activity)
    ensures hookReply == Some(PlayRejected)
    ensures waiting == []
    ensures nowPlaying == Playing(QueuedSong(Song("B", 2)))
  {
    var bot := new MusicBot(Config(PriorityUser, BlockedUser, DefaultDjRoleName));
    var r1 := bot.Play(Guild, OtherUser, Some(Channel), true, Found(Some("A")), 1, true);
    assert bot.clients[Guild] == VoiceClient(0, Channel, Playing(QueuedSong(Song("A", 1))));
    var r2 := bot.Skip(Guild, PriorityUser);
    assert bot.pending == [Callback(Guild, 0, PlayNextHook)];
    assert bot.clients[Guild] == VoiceClient(0, Channel, Idle) && bot.queues[Guild] == [];
    var r3 := bot.Play(Guild, OtherUser, Some(Channel), true, Found(Some("B")), 2, true);
    assert bot.clients[Guild] == VoiceClient(0, Channel, Playing(QueuedSong(Song("B", 2))));
    assert bot.queues[Guild] == [];
    var r4 := bot.Play(Guild, OtherUser, Some(Channel), true, Found(Some("C")), 3, true);
    assert bot.queues[Guild] == [Song("C", 3)];
    assert bot.pending == [Callback(Guild, 0, PlayNextHook)];
    hookReply := bot.RunCallback();
    waiting := bot.queues[Guild];
    nowPlaying := bot.clients[Guild].activity;
  }
}
