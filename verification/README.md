# Music queue and voice playback of a Discord bot, in Dafny

This project models the playback core of a Discord music bot (`discordbot.py`):

- the per-guild song queues (`music_queues`);
- the voice client each guild may have;
- the commands that read and change them: `play`, `pause`, `resume`, `skip`, `queue`, `clear` and `stop`;
- `play_next`, the advance-or-disconnect step that the voice client's `after` hook re-runs;
- the welcome sound, which plays when the priority user joins a voice channel;
- the global command gate (blocked user, DJ role).

Modules:

- `VoiceTypes` (voice_types.dfy): identifiers, `Song`, `Track`, the abstract voice client (connection id, channel, player `Idle | Playing | Paused`), callbacks and reply enums.
- `Permissions` (permissions.dfy): `has_dj_role` and `global_command_check` as pure functions.
- `Queues` (queues.dfy): the queue store as `map<GuildId, seq<Song>>`, the two ways a song is added, taking the head, and lemmas about runs of additions.
- `Listing` (listing.dfy): the numbered listing of the `queue` command. Lines are rendered `"<n>. <title>"`, and a proved parser reads each line back. The parser (`ParseLine`, with its helper `FirstIndex`) models nothing in the bot; it only serves to state what a listing line contains.
- `Bot` (bot.dfy): class `MusicBot`, whose methods are the commands and events. Its fields are the queue store, the voice client of each guild, and a FIFO of completion callbacks that are due but not yet run by the event loop.
- `Scenarios` (scenarios.dfy): short runs of the bot with their outcomes proved.

External effects are inputs. These are:

- whether a connect or move succeeds;
- whether the search finds a song, and its title if any;
- whether the audio source can be prepared;
- whether the welcome file exists.

Messages are reply enums, not strings. A voice client present in the map is a connected one.

Every connect hands out a fresh connection id. A callback remembers the connection it was registered on, so a callback that runs after that connection was dropped acts on a dead handle, as it does in the source:

- its disconnect is a no-op;
- its `play` is refused, and the song it popped is lost.

The transport refuses `play` on a dead handle and on a client that is already playing. On a paused client, the new track replaces the paused one.

The model keeps these behaviours of the code, which a reader might not expect:

- On an idle, connected client, a newly queued song starts at once. So "A, then a priority B" plays A first, not B first (`Scenarios.IdleThenPriority`).
- The welcome sound does not require an empty queue. It plays whenever the client is not playing, and its hook disconnects even when songs are waiting (`Scenarios.WelcomeEndIgnoresQueue`).
- `stop` indexes the queue without a default. A guild that has a voice client but no queue, for example while the welcome sound plays, gets the generic error, and nothing changes (`Scenarios.StopDuringWelcome`).
- Completion is not serialised with commands. After a skip, a `play` command can start the queue before the stopped song's hook runs. The hook's `play_next` then pops a song that the transport refuses (`Scenarios.SkipRace`).

## Model

| member | source | states |
|---|---|---|
| `Permissions.HasDjRole` | discordbot.py:48-50 | true exactly when some role name equals the DJ role name |
| `Permissions.CommandAllowed` | discordbot.py:75-90 | the blocked user is always refused, even with the DJ role; any other caller is allowed exactly when some role is the DJ role |
| `Queues.Enqueue` | discordbot.py:236-242 | the length grows by one and the contents by the new song; a priority song lands at index 0 with the old queue after it in order; any other song lands at the tail after the old queue in order |
| `Queues.WithQueue` | discordbot.py:197-199 | an existing queue is kept, a missing one is created empty, and other guilds' queues are untouched |
| `Queues.PopHead` | discordbot.py:54-56 | a song is taken exactly when the guild's queue is present and non-empty; the taken song followed by the new queue is the old queue; other guilds' queues are untouched; otherwise the store is unchanged |
| `Queues.PriorityIsNext` | discordbot.py:237-238 | a song the priority user just added is the next one taken, and taking it gives back the store as it was |
| `Queues.AppendKeepsHead` | discordbot.py:240-241 | appending another user's song to a non-empty queue does not change which song is taken next, and appending commutes with taking the head |
| `Queues.EnqueueAllShape` | discordbot.py:236-242 | after any run of additions the queue is: the priority songs, most recent first; then the songs already queued, in order; then the other songs, in request order |
| `Listing.NatToString` | discordbot.py:286 | the entry number is written as a non-empty string of decimal digits without a leading zero |
| `Listing.DecimalRoundTrip` | discordbot.py:286 | reading the decimal writing of a number gives back the number |
| `Listing.ParseRenderLine` | discordbot.py:286 | a listing line `"<n>. <title>"` gives back exactly its number and title, whatever the title contains |
| `Listing.CanonicalRoundTrip` | discordbot.py:286 | a digit string without a leading zero is exactly the decimal writing of the number it denotes |
| `Listing.ParsedLineIsRendered` | discordbot.py:286 | a line that reads back as a number and a title is exactly `"<n>. <title>"` for them, so a listing meeting the read-back contract is written as Python writes it |
| `Listing.QueueListing` | discordbot.py:282-289 | the empty reply exactly when the guild has no queue or an empty one; otherwise one line per queued song, and line i reads back as number i+1 with the title of the song at index i; the store is only read |
| `Bot.ConnectStep` | discordbot.py:180-195 | fails only when a connect or move is needed and the transport fails; without a client, a new connection in the target channel with nothing playing; with a client, a move keeps the connection and its player; the same channel is a no-op |
| `Bot.StopHooks` | discordbot.py:57-62 | stopping a live connection that holds a track makes exactly that track's hook due; a queued song's hook advances the queue, the welcome sound's hook disconnects |
| `Bot.Detach` | discordbot.py:65 | disconnecting a live connection removes exactly the guild's client; a dead handle leaves all clients as they were; other guilds' clients are untouched |
| `Bot.MusicBot.constructor` | discordbot.py:42 | the bot starts with no queues, no clients and no due callbacks |
| `Bot.MusicBot.Disconnect` | discordbot.py:65-69 | the queues are untouched; a live connection is dropped and its playing or paused track's hook becomes due; a dead handle changes nothing |
| `Bot.MusicBot.PlayNext` | discordbot.py:52-69 | with a non-empty queue: exactly the head is removed, the rest stays in order, other guilds are untouched, and the head plays if the transport accepts it (otherwise it is lost); with an absent or empty queue: no queue changes and the connection is disconnected |
| `Bot.MusicBot.Attach` | discordbot.py:180-195 | on failure nothing changes; on success the guild's client is the connect-or-move result, and a new connection's id is named by no due callback |
| `Bot.MusicBot.Play` | discordbot.py:169-246 | the author must be in a voice channel; a connect or move failure returns before the queue is touched; a failed search or audio source returns with no song added (an empty queue may have been created); otherwise the song is queued in front for the priority user and at the tail for others; `play_next` runs only when the client is neither playing nor paused |
| `Bot.MusicBot.Pause` | discordbot.py:248-256 | only a playing client is paused; queues are untouched |
| `Bot.MusicBot.Resume` | discordbot.py:258-266 | only a paused client resumes; queues are untouched |
| `Bot.MusicBot.Skip` | discordbot.py:268-280 | acts only when playing and the caller is the priority user: the player goes idle and the track's hook becomes due; otherwise nothing changes |
| `Bot.MusicBot.Clear` | discordbot.py:291-302 | only the priority user can clear, and only the caller's guild queue is emptied, if it exists; the voice client is untouched |
| `Bot.MusicBot.Stop` | discordbot.py:304-317 | needs a client and the priority user; a guild without a queue entry gets the generic error and nothing changes; otherwise the queue is emptied and the client disconnected |
| `Bot.MusicBot.VoiceStateUpdate` | discordbot.py:114-163 | acts only when the priority user goes from no channel to some channel; connects or moves first and gives up on failure; plays the welcome sound only if the file exists, the source is prepared and the client is not playing; never touches a queue |
| `Bot.MusicBot.TrackEnds` | discordbot.py:57-62 | when the playing track ends, the player goes idle and the track's hook becomes due; otherwise nothing changes |
| `Bot.MusicBot.RunCallback` | discordbot.py:148-156 | runs the oldest due callback: a song's hook does exactly what `play_next` does on its own connection; the welcome sound's hook disconnects that connection regardless of the queue |
| `Scenarios.StopDuringWelcome` | discordbot.py:311 | with the welcome sound playing and no queue for the guild, `stop` by the priority user yields the generic error and the sound keeps playing |
| `Scenarios.IdleThenPriority` | discordbot.py:244-246 | on an idle client a song starts at once; a later priority song waits in the queue |
| `Scenarios.WelcomeEndIgnoresQueue` | discordbot.py:146-156 | a song added during the welcome sound waits; the welcome sound's end disconnects the bot and leaves the song queued |
| `Scenarios.SkipRace` | discordbot.py:57-62 | after a skip whose hook has not run yet, a play command starts the queue; the late hook pops the next song, the transport refuses it, and the song is lost |

## Left out

- Voice transport internals are abstracted to connection ids, channels and an `Idle | Playing | Paused` player. This covers connect, `move_to`, FFmpeg and audio frames.
- discord.py's state of a voice client that is registered but not connected is folded into "no client", so `is_connected()` is the client's presence.
- The track that a play on a paused client replaces is abandoned: its hook is not modelled.
- yt_dlp search and extraction, and the ffmpeg options, are reduced to a `Resolution` input (not found, or found with an optional title) and a source-ok flag.
- The welcome file's existence check is a boolean input.
- The thread hand-off through `asyncio.run_coroutine_threadsafe` and the waiting on the disconnect future are not modelled. The callbacks are a FIFO that the event loop drains one at a time (`RunCallback`).
- Environment loading, logging, bot and intent setup, `on_ready` and `bot.run` are start-up I/O. The configured ids and the role name are a `Config` value.
- Message texts are reply enums. The welcome announcement in the system channel and the `"Current Music Queue:"` header are not modelled. The listing lines are kept as a sequence rather than joined with newlines.
- `on_command_error`, the rendering of a failed gate or an exception into a message, is not modelled. `PlayRejected` and `UnexpectedError` stand for the exception paths.
- The command framework's application of the gate before each command is not modelled. `CommandAllowed` is the gate itself.
- Commands and events each run to completion, one at a time. The source can interleave a due callback or another command at a command's own awaits (connect, `move_to`, `ctx.send`, for instance between queuing the song and the `is_playing()` check of `play`), and those interleavings are not modelled. Only interleavings between whole commands and events are modelled, such as `Scenarios.SkipRace`.
