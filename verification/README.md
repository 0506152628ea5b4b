# telegram-spotify-queue: the playback queue coordinator in Dafny

The bot lets several chat users share one Spotify player. A user searches for a track. `/confirm` then queues the song the search found. A single coordinator plays the queued songs one after another. It owns a FIFO of pending songs (`music_queue`) and a "now playing" slot (`now_playing`). Its advance step (`handle_song_change`) does one of two things:

- With an empty queue, it clears the slot and pauses the player.
- Otherwise, it pops the head of the queue, puts it in the slot, starts playback and arms a one-shot timer for the song's length. When that timer fires, the advance step runs again.

`queue_song` appends a song and runs an advance only when nothing is playing.

The model is functional. `Player.State` is an immutable record of:

- the queue, as a `seq<Song>`;
- the slot, as an `Option<Song>`;
- the trace of every effect issued so far: `Play(uri)`, `Pause` or `ArmTimer(length)`.

`Advance` and `QueueSong` are pure step functions. A run is a sequence of `Enqueue(song)` and `TimerFired` events. Lemmas about runs state the FIFO order, that no song is dropped, that the backend is told to play exactly the started songs, that in any sequential schedule an idle coordinator never holds a queued song, and that the timer drains the queue. Around the coordinator sit:

- the requester directory with its get-or-create lookup (`Users.GetUser`);
- the `/confirm` command (`Bot.ConfirmSong`);
- the mapping from a search response to a song (`Search.SongOf`).

Files: `wrappers.dfy` (Option), `songs.dfy` (the `Song` and `User` records), `search.dfy`, `player.dfy`, `users.dfy` and `bot.dfy`.

## Model

| member | source | states |
|---|---|---|
| Songs.NewUser | telegram_spotify_queue.py:54-59 | A requester seen for the first time has the given id and name and no pending search result. |
| Search.LeadArtist | telegram_spotify_queue.py:87-89 | The credited artist is the track's first artist, or "Unknown" when the track lists no artists. |
| Search.SongOf | telegram_spotify_queue.py:81-97 | A response with no tracks gives no song; otherwise the song carries the first track's uri, title and duration, its lead artist, and the requester who searched. |
| Search.OnlyFirstTrackMatters | telegram_spotify_queue.py:82-85 | Only the first track of a response is used: appending more tracks changes nothing. |
| Search.OnlyLeadArtistMatters | telegram_spotify_queue.py:87-89 | Featured artists are dropped: tracks that agree on uri, title, duration and first artist give the same song. |
| Player.Advance | telegram_spotify_queue.py:100-119 | The slot is filled exactly when the queue was non-empty. An empty queue leaves the slot empty and the queue empty, and emits exactly one Pause with no timer. Otherwise exactly the head moves into the slot, the queue becomes the tail, and the step emits Play(head.uri) then ArmTimer(head.length). |
| Player.QueueSong | telegram_spotify_queue.py:122-126 | Afterwards something is always playing. While a song plays, the new song goes to the tail and the slot and trace are unchanged. When idle, the slot takes the old head, or the new song if the queue was empty, with the rest kept in order, and exactly one Play/ArmTimer pair is emitted. |
| Player.StepExtendsTrace | telegram_spotify_queue.py:107-117 | A step only appends effects; effects already issued are never revised. |
| Player.StepConservesSongs | telegram_spotify_queue.py:112-114 | No silent drops: the queue before a step, plus any enqueued song, equals the song the step started followed by the queue after it. |
| Player.StepPlays | telegram_spotify_queue.py:113-114 | The Play effects a step issues are exactly the song it started. |
| Player.StepKeepsConsistent | telegram_spotify_queue.py:107-117 | After an advance from any state, and after a request from a consistent state, the slot agrees with the last effects and an idle coordinator holds no queued song. |
| Player.RunConservesSongs | telegram_spotify_queue.py:112-123 | Over any run, the songs started and then the songs still queued equal the initial queue followed by every enqueued song, in order. |
| Player.PlaysInRequestOrder | telegram_spotify_queue.py:112-123 | FIFO from start-up: the songs that became now-playing are a prefix of the enqueued songs, and the queue holds exactly the rest. |
| Player.RunPlays | telegram_spotify_queue.py:112-114 | Over any run, the uris the backend is told to play are those of the started songs, in order. |
| Player.RunKeepsConsistent | telegram_spotify_queue.py:107-126 | Consistency survives any run from a consistent state. |
| Player.IdleMeansDrained | telegram_spotify_queue.py:107-109 | In any sequential schedule of atomic steps from start-up, whenever nothing plays, nothing is queued and the last effect issued (if any) was a Pause. |
| Player.TimerDrainsQueue | telegram_spotify_queue.py:107-117 | With no new requests, one timer firing per queued song plus one starts every queued song in order, plays their uris, and ends idle with an empty queue, with Pause as the last effect. |
| Player.TwoRequestSession | telegram_spotify_queue.py:100-126 | Queue x while idle, then y: x plays, y waits, and exactly one Play(x) is issued. The first firing plays y with no Pause in between. The second firing pauses and the coordinator is idle. |
| Users.GetUser | telegram_spotify_queue.py:137-147 | A known id returns the stored requester and leaves the directory unchanged. An unknown id stores and returns a new requester with no search result, adding exactly that key. Other entries are untouched. |
| Users.GetUserIdempotent | telegram_spotify_queue.py:141-147 | A second lookup of the same id, under any name, returns the same requester and leaves the directory unchanged. |
| Users.GetUserKeepsWellKeyed | telegram_spotify_queue.py:145-146 | Lookups keep every requester filed under its own id. |
| Bot.ConfirmSong | telegram_spotify_queue.py:151-160 | Afterwards the sender exists and has no pending result, and other requesters are unchanged. Without a pending result, playback state is unchanged. With one, exactly that song is queued through `QueueSong`. |
| Bot.ConfirmWhilePlayingAppends | telegram_spotify_queue.py:153-160 | Confirming while a song plays appends exactly the pending song and issues no effect. |
| Bot.ConfirmWhileIdlePlays | telegram_spotify_queue.py:155-156 | Confirming while idle, from a consistent state (so the queue is empty), starts the pending song at once with Play and ArmTimer. |
| Bot.ConfirmTwiceQueuesOnce | telegram_spotify_queue.py:153-160 | A second /confirm without a fresh search leaves the playback state as the first one left it. |
| Bot.ConfirmKeepsInvariants | telegram_spotify_queue.py:151-160 | Confirmations keep the coordinator consistent and the directory well keyed. |

## Left out

- The Spotify and Telegram clients (`spotify.search`, `start_playback`, `pause_playback`, the `Updater` and its handlers) are foreign network calls. Play and pause appear only as effects in the trace. Backend failures are not modelled. In the code, an exception from `play_song` leaves the song in the slot with no timer armed. Nothing clears that slot afterwards, so every later request only appends and nothing plays again. When the exception comes from `/confirm` (line 156), line 160 never runs. The search result then stays pending, and a second `/confirm` queues the same song again. `Bot.ConfirmTwiceQueuesOnce` holds only on the path where the backend calls succeed.
- `Lock`, `Timer` and threads are not modelled. Each advance and each `queue_song` is one atomic step, and a timer firing is an explicit `TimerFired` event that may occur in any state. The model does not reproduce the code's check-then-act: `queue_song` tests `now_playing` outside `np_lock` (line 125), and only `handle_song_change` takes the lock. `Player.QueueSong` instead tests the slot and advances in one atomic step, so the model makes no claim of race freedom.
- `Player.IdleMeansDrained` and `Player.Consistent` do not hold for the threaded code, because it can lose a wake-up. In this interleaving:
  1. The timer thread, holding the lock, finds the queue empty (line 107).
  2. A requester puts a song (line 123) and sees `now_playing` still set (line 125), so it does not advance.
  3. The timer thread clears the slot and pauses (lines 108-109).

  The song then sits in the queue with nothing playing and no timer armed.
- The timer length is not converted to seconds. The code's `duration_ms / 1000` is a float, so `Song.length` keeps the millisecond duration as a `nat` and passes it unchanged to `ArmTimer`.
- `Song.suggestedBy` holds the requester's id rather than the `User` object, so that `User` (which holds a `Song`) and `Song` are not mutually recursive values.
- Durations are not validated. The code accepts any length, so there is no rejection of zero or negative durations.
- `auth_guard` (token refresh) is left out. It is plumbing around the backend, returns itself instead of its wrapper, and uses an undefined `sp_oauth`.
- `on_message` and `start` are chat glue. `on_message` stores a search result on the requester; the model takes the stored result as given. `start` is only a lookup and a greeting.
- `User.name` is a `string`. The code stores `from_user.username` (line 139), which Telegram leaves as `None` for users without a username. The name only reaches logging and `__str__`, so the model does not represent the missing case.
- Reply texts, logging, configuration reading and `qsize()` are left out. `qsize()` is only an approximate count used in a reply.

## Behaviour of the code that the model keeps

- No duration is validated: `queue_song` queues a song of any length, including zero.
- When the timer fires and the queue is non-empty, the next song is played directly. No pause is issued between the two songs (`Player.TwoRequestSession`).
- `queue_song` returns nothing. The queue length shown to the user comes from a separate approximate `qsize()` call.
