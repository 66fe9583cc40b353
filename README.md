# SriRadio core in Dafny

SriRadio is a Discord bot that streams a continuous music playlist into a voice
channel and, on a timer, interrupts it with short "DJ" clips. The clips are
generated by a language model and spoken by a text-to-speech service. This project
models the three parts of the bot that make decisions, and proves properties of the
model:

- **The playlist queue** (`src/MusicManager.js`, module `Music`, file `music.dfy`):
  - an ordered playlist;
  - a cursor (`currentIndex`) naming the next song;
  - the time of the last Fisher–Yates reshuffle;
  - the two reshuffle checks of `getNextTrack`, adding and removing songs, and the
    current/next song queries.
- **The playback and reconnection state machine** (`index.js`, modules `Radio` and
  `RadioBot`, file `radio.dfy`):
  - `playNext` with its single retry timer;
  - the player's Idle and error handlers;
  - skip, stop and resume;
  - the DJ-break timer chain;
  - the channel choice of `autoJoinAndPlay`;
  - the Disconnected and Destroyed handlers of the voice connection.
- **The DJ rules** (`src/DJManager.js`, module `DJ`, file `dj.dfy`):
  - the prompt table and its hour-of-day weighting;
  - the ten-entry history of generated texts and the statistics over it;
  - the fallback decisions of a DJ break;
  - the selection of old temporary clip files to delete.

Two support modules sit beside them:

- `wrappers.dfy` (`Wrappers`): an `Option` type.
- `js_text.dfy` (`JsText`): the JavaScript built-ins the core relies on. These are
  `String.prototype.trim`, `startsWith`/`endsWith`, and `parseInt` without a radix
  (white space, sign, `0x` prefix, longest digit run; NaN as `None`).

How the three parts are written:

- Each object has a pure model and a class.
  - The pure model is a datatype with one function per operation. The lemmas are
    stated over these functions.
  - The class has the source's fields (`MusicManager`, `SriRadioBot`, `DJManager`).
    Its methods update the fields in place and are proved to perform the model's
    step: `ensures Model() == Step(old(Model()), ...)`.
- Nothing the core cannot decide is modelled as a decision. Instead these become
  explicit inputs:
  - randomness: the swap partners of a shuffle, and the index picks;
  - the clock: `now` and `hour`;
  - the network: whether a stream resolves, what a search or the language model
    returns, and whether text-to-speech succeeds;
  - the file system: the directory listing, `stat` and `unlink` outcomes;
  - the voice library's signals.
- Timers are pending events. The cancellable `playNextTimeout` is a field. Every
  other `setTimeout` is an element of a multiset until a `Fire…` step runs its
  callback.

The model follows the code where the code departs from the system's intended design.
Each departure below is proved as written:

- A player `error` advances regardless of `shouldAutoPlay` (`Radio.ErrorAdvancesUnconditionally`).
- A DJ break is played even while playback is stopped, because the DJ timer never
  looks at `shouldAutoPlay` (`Radio.DjBreakCycle`).
- The 2 s resume timer that a DJ clip's once-Idle handler sets is never cancelled by
  `stopPlayback`, so music restarts after a stop (`Radio.StopDuringDjClipResumes`).
- With auto-play on, a DJ clip's Idle advances twice: at once through the permanent
  handler, and again after 2 s (`Radio.DjClipIdle`). With auto-play off, only the 2 s
  resume advances.
- A rejoin that throws leaves two auto-joins pending. `destroy()` raises Destroyed,
  which schedules one after 5 s; the catch schedules another after 10 s
  (`Radio.DisconnectSequence`).
- Every successful `autoJoinAndPlay` starts one more DJ-break timer chain; earlier
  chains keep running (`Radio.AutoJoinEffect`).
- No generation counter guards late callbacks.

## Model

| member | source | states |
|---|---|---|
| JsText.TrimStart | src/DJManager.js:127 | the result is a suffix of the input that does not start with white space, and everything dropped is white space |
| JsText.TrimEnd | src/DJManager.js:127 | the result is a prefix of the input that does not end with white space, and everything dropped is white space |
| JsText.Trim | src/DJManager.js:127 | definition of `String.prototype.trim`; properties in `TrimIsInnerSlice` and `TrimEdges` |
| JsText.TrimIsInnerSlice | src/DJManager.js:127 | `trim` returns one contiguous slice `s[a..b]` of its input with only white space before `a` and after `b` |
| JsText.TrimEdges | src/DJManager.js:127 | a non-empty trimmed text neither starts nor ends with white space, and the result is empty exactly when the input is all white space (so such a reply is rejected) |
| JsText.StartsWith | src/DJManager.js:226 | definition of `startsWith`; used by `RemovedExactlyEligible` and `SongOf` |
| JsText.EndsWith | src/DJManager.js:226 | definition of `endsWith`; used by `RemovedExactlyEligible` |
| JsText.DigitRun | index.js:243 | `parseInt` reads the longest prefix of digits: every character in it is a digit of the radix, and the next one is not |
| JsText.ParseInt | index.js:243 | definition of `parseInt` without a radix; properties in `ParseDigits` and `ParseIntDecimal` |
| JsText.DecimalStringValue | index.js:243 | the decimal notation of `n` consists of digits whose value is `n` |
| JsText.ParseDigits | index.js:243 | a non-empty run of decimal digits is read whole, as its value |
| JsText.ParseIntDecimal | index.js:243 | `parseInt` of the decimal notation of a natural number gives back that number |
| Music.Swap | src/MusicManager.js:96 | the destructuring swap exchanges positions `i` and `j` and leaves every other position as it was |
| Music.ShuffleDownPermutes | src/MusicManager.js:94-97 | every suffix of the descending Fisher–Yates loop keeps the length and the multiset of songs |
| Music.ShuffledIsPermutation | src/MusicManager.js:92-100 | a reshuffle is a permutation: same length, same songs with the same multiplicities, same membership both ways |
| Music.Shuffled | src/MusicManager.js:92-100 | definition of the Fisher–Yates pass over the given draws; properties in `ShuffledIsPermutation` |
| Music.Reshuffle | src/MusicManager.js:92-100 | `shufflePlaylist` permutes the playlist (same length, same songs with the same multiplicities), resets the cursor to 0 and records `now` as the shuffle time |
| Music.Prepare | src/MusicManager.js:104-112 | after the two reshuffle checks the playlist is unchanged or reshuffled, the cursor is unchanged or 0, and a non-empty playlist has its cursor on a song, whatever the cursor was before |
| Music.NextTrack | src/MusicManager.js:102-137 | definition of one attempt of `getNextTrack`; properties in `NextTrackOutcome`, `ServedIsCurrent` and `PeekIsNextServed` |
| Music.NextTrackOutcome | src/MusicManager.js:102-137 | a reshuffle happens exactly when 30 minutes have passed or the cursor is at or past the end; `null` exactly for an empty playlist; otherwise the song at the checked cursor is served and the cursor moves by one, or by two when its stream cannot be resolved |
| Music.ServeRunInOrder | src/MusicManager.js:102-130 | successful calls made at any times within the shuffle interval, with the cursor staying in range, serve `playlist[cursor..cursor+n]` in order and leave the cursor at `cursor+n` |
| Music.FullRoundServesEachSongOnce | src/MusicManager.js:92-130 | after a reshuffle, a round of `|playlist|` successful calls made at any times within the shuffle interval serves every song exactly once (the multiset served equals the playlist) |
| Music.CurrentTrack | src/MusicManager.js:201-206 | definition of `getCurrentTrack`; properties in `ServedIsCurrent` |
| Music.PeekNext | src/MusicManager.js:208-215 | definition of the `nextTrack` entry; properties in `PeekIsNextServed` |
| Music.Info | src/MusicManager.js:208-215 | definition of `getPlaylistInfo`; properties in `ServedIsCurrent` and `PeekIsNextServed` |
| Music.ServedIsCurrent | src/MusicManager.js:201-206 | the current track is the song just served, and nothing is current exactly when the cursor is 0 or past the end |
| Music.PeekIsNextServed | src/MusicManager.js:208-215 | the info's `nextTrack` is the song the next successful call serves; when it is `null` that call reshuffles first |
| Music.Remove | src/MusicManager.js:179-187 | definition of `removeSong`; properties in `RemoveExact` |
| Music.RemoveExact | src/MusicManager.js:179-187 | an in-range removal returns the song at `index`, shifts the later songs down by one, and putting the song back restores the playlist; out of range the result is `null` and nothing changes; the cursor is never adjusted |
| Music.SongOf | src/MusicManager.js:158-165 | the video id can be read back from the URL after the watch-page prefix; the duration is never empty, and unless it is the "Unknown" placeholder it is the video's length text |
| Music.Add | src/MusicManager.js:154-177 | definition of `addSong`; properties in `AddThenRemoveLast` |
| Music.AddThenRemoveLast | src/MusicManager.js:154-187 | a song is added exactly when the search found one; it is appended at the end, and removing the last position gives back that song and the old queue; a failed search changes nothing |
| Music.MusicManager.constructor | src/MusicManager.js:7-15 | an empty playlist, cursor 0, never shuffled |
| Music.MusicManager.ShufflePlaylist | src/MusicManager.js:92-100 | the in-place loop leaves the fields as `Reshuffle` of the old ones |
| Music.MusicManager.GetNextTrack | src/MusicManager.js:102-137 | the method's fields and result are those of `NextTrack` |
| Music.MusicManager.AddSong | src/MusicManager.js:154-177 | the method's fields and result are those of `Add` |
| Music.MusicManager.RemoveSong | src/MusicManager.js:179-187 | the method's fields and result are those of `Remove` |
| Music.MusicManager.GetCurrentTrack | src/MusicManager.js:201-206 | `CurrentTrack` of the fields |
| Music.MusicManager.GetPlaylistInfo | src/MusicManager.js:208-215 | `Info` of the fields |
| Radio.FindIndex | index.js:117-124 | `find` yields the first element that satisfies the test, or none when no element does |
| Radio.ChooseChannel | index.js:111-125 | definition of the channel choice; properties in `ChannelChoiceOrder` |
| Radio.ChannelChoiceOrder | index.js:111-131 | the configured channel is joined when it is cached, else the first voice channel with members, else the first voice channel; each step is taken only when the earlier ones found nothing; there is no channel exactly when nothing qualifies |
| Radio.NodeTimerDelay | index.js:245-248 | the delay a timer really waits is always between 1 and 2^31-1 ms, and a delay already in that range is waited as given |
| Radio.DjBreakInterval | index.js:243 | definition of `parseInt(...) || 300000`; properties in `DjBreakIntervalChoice` and `DjBreakTimerDelay` |
| Radio.DjBreakIntervalChoice | index.js:243 | the 300000 ms default applies exactly when the setting is missing or reads as NaN or 0 (or is 300000 itself); a decimal setting is taken as written |
| Radio.DjBreakTimerDelay | index.js:243-248 | the DJ-break timer waits 300000 ms when the setting is missing, and a positive decimal setting of at most 2^31-1 ms as written |
| Radio.Initial | index.js:20-26 | definition of the constructor's state; properties in `PlaybackStepsKeepValid` |
| Radio.PlayNext | index.js:188-215 | definition of `playNext`; properties in `PlayNextSingleRetry` and `PlaybackStepsKeepValid` |
| Radio.OnIdle | index.js:63-67 | definition of the Idle handler; properties in `IdleAdvancesOnlyWithAutoPlay`, `IdleKeepsValid` and `DjClipIdle` |
| Radio.OnPlayerError | index.js:69-72 | definition of the error handler; properties in `ErrorAdvancesUnconditionally` and `ErrorBurstOneRetry` |
| Radio.SkipToNext | index.js:217-221 | definition of `skipToNext`; properties in `ResumeAndSkipAdvance` |
| Radio.StopPlayback | index.js:223-234 | definition of `stopPlayback`; properties in `StopThenIdlesStaySilent` and `StopDuringDjClipResumes` |
| Radio.ResumePlayback | index.js:236-240 | definition of `resumePlayback`; properties in `ResumeAndSkipAdvance` |
| Radio.FireRetry | index.js:209-213 | definition of the retry callback; properties in `PlaybackStepsKeepValid` |
| Radio.ScheduleDjBreak | index.js:242-249 | definition of `scheduleDJBreak`; properties in `DjBreakCycle` and `DjStepsKeepValid` |
| Radio.PlayDjBreak | index.js:251-277 | definition of `playDJBreak`; properties in `DjBreakCycle` and `DjClipIdle` |
| Radio.FireDjBreak | index.js:245-248 | definition of the DJ-break callback; properties in `DjBreakCycle` and `DjStepsKeepValid` |
| Radio.FireDjResume | index.js:266-268 | definition of the 2 s resume callback; properties in `StopDuringDjClipResumes` and `DjStepsKeepValid` |
| Radio.JoinChannel | index.js:138-180 | definition of `joinChannel`; properties in `StartKeepsValid` |
| Radio.StartRadio | index.js:182-186 | definition of `startRadio`; properties in `StartKeepsValid` and `AutoJoinEffect` |
| Radio.AutoJoinAndPlay | index.js:103-136 | definition of `autoJoinAndPlay`; properties in `AutoJoinEffect` and `AutoJoinKeepsValid` |
| Radio.OnDisconnected | index.js:149-151 | definition of the Disconnected handler; properties in `DisconnectSequence` and `SignalsKeepValid` |
| Radio.OnDestroyed | index.js:168-173 | definition of the Destroyed handler; properties in `DestroyedSchedulesRejoin` and `SignalsKeepValid` |
| Radio.OnReady | index.js:149-166 | definition of the connection's own recovery to Ready; properties in `DisconnectSequence` and `SignalsKeepValid` |
| Radio.FireGraceCheck | index.js:151-165 | definition of the grace-period callback; properties in `DisconnectSequence` and `SignalsKeepValid` |
| Radio.FireAutoJoin | index.js:160-172 | definition of an auto-join callback; properties in `AutoJoinKeepsValid` |
| Radio.PlaybackStepsKeepValid | index.js:20-26 | the initial state is valid, and `playNext`, the error handler, skip, stop, resume and the retry keep every pending timer on one of the source's fixed delays |
| Radio.IdleKeepsValid | index.js:63-67 | the Idle handler keeps the timer invariant |
| Radio.DjStepsKeepValid | index.js:242-277 | the DJ-break and 2 s resume timers keep the timer invariant |
| Radio.StartKeepsValid | index.js:182-186 | joining a channel and starting the radio keep the timer invariant |
| Radio.AutoJoinKeepsValid | index.js:103-136 | `autoJoinAndPlay`, whether run directly or from an auto-join timer, keeps the timer invariant |
| Radio.SignalsKeepValid | index.js:149-173 | the Disconnected, Destroyed and recovery signals and the grace check keep the invariant; a grace check is pending only while a connection exists |
| Radio.IdleAdvancesOnlyWithAutoPlay | index.js:63-67 | Idle advances exactly when auto-play is on; with auto-play off it leaves the retry, `isPlaying` and a silent output alone |
| Radio.ErrorAdvancesUnconditionally | index.js:69-72 | a player error starts the next track whatever the auto-play flag says |
| Radio.PlayNextSingleRetry | index.js:188-215 | `playNext` cancels the pending retry, so at most one retry is pending: none after a start, 10 s for no track, 5 s for an error; other timers are untouched and `isPlaying` is never cleared |
| Radio.ErrorBurstOneRetry | index.js:69-72 | after any burst of player errors, exactly the retry the last outcome asked for is pending, and no other timer was added |
| Radio.StopThenIdlesStaySilent | index.js:223-234 | after `stopPlayback`, with no DJ clip waiting, any number of Idle signals start nothing and schedule nothing |
| Radio.StopDuringDjClipResumes | index.js:223-234 | as written, a stop during a DJ clip does not hold: the clip's Idle schedules the 2 s resume, which starts a track with auto-play still off |
| Radio.ResumeAndSkipAdvance | index.js:217-240 | resume turns auto-play on and advances; skip turns it on and stops the output, so the following Idle advances |
| Radio.DisconnectSequence | index.js:149-166 | recovered within the grace period, nothing is attempted; still down, a rejoin; a failing rejoin destroys the connection and leaves auto-joins after 5 s and 10 s pending; output and retry are untouched |
| Radio.DestroyedSchedulesRejoin | index.js:168-173 | Destroyed schedules exactly one auto-join, after 5 s |
| Radio.AutoJoinEffect | index.js:103-136 | with a guild and a channel, the bot connects to that channel, advances, and adds one more DJ-break timer; otherwise nothing changes |
| Radio.DjBreakCycle | index.js:242-277 | a DJ-break timer re-arms exactly once; a clip takes the output and waits for its Idle; anything else advances at once |
| Radio.DjClipIdle | index.js:63-67 | the clip's Idle leaves one more 2 s resume pending and also advances at once when auto-play is on |
| RadioBot.SriRadioBot.constructor | index.js:20-26 | no connection, not playing, auto-play on, no retry, no timers |
| RadioBot.SriRadioBot.PlayNext | index.js:188-215 | the fields after the method are `Radio.PlayNext` of those before |
| RadioBot.SriRadioBot.OnIdle | index.js:63-67 | the fields after the handler are `Radio.OnIdle` of those before |
| RadioBot.SriRadioBot.OnPlayerError | index.js:69-72 | the fields after the handler are `Radio.OnPlayerError` of those before |
| RadioBot.SriRadioBot.SkipToNext | index.js:217-221 | the fields after the method are `Radio.SkipToNext` of those before |
| RadioBot.SriRadioBot.StopPlayback | index.js:223-234 | the fields after the method are `Radio.StopPlayback` of those before |
| RadioBot.SriRadioBot.ResumePlayback | index.js:236-240 | the fields after the method are `Radio.ResumePlayback` of those before |
| RadioBot.SriRadioBot.FireRetry | index.js:209-213 | the retry callback performs `Radio.FireRetry` |
| RadioBot.SriRadioBot.ScheduleDjBreak | index.js:242-249 | one more DJ-break timer at the configured interval |
| RadioBot.SriRadioBot.PlayDjBreak | index.js:251-277 | the fields after the method are `Radio.PlayDjBreak` of those before |
| RadioBot.SriRadioBot.FireDjBreak | index.js:245-248 | the DJ-break callback performs `Radio.FireDjBreak` |
| RadioBot.SriRadioBot.FireDjResume | index.js:266-268 | the 2 s resume callback performs `Radio.FireDjResume` |
| RadioBot.SriRadioBot.JoinChannel | index.js:138-180 | the fields after the method are `Radio.JoinChannel` of those before |
| RadioBot.SriRadioBot.StartRadio | index.js:182-186 | the fields after the method are `Radio.StartRadio` of those before |
| RadioBot.SriRadioBot.AutoJoinAndPlay | index.js:103-136 | the fields after the method are `Radio.AutoJoinAndPlay` of those before |
| RadioBot.SriRadioBot.OnDisconnected | index.js:149-151 | the fields after the handler are `Radio.OnDisconnected` of those before |
| RadioBot.SriRadioBot.OnDestroyed | index.js:168-173 | the fields after the handler are `Radio.OnDestroyed` of those before |
| RadioBot.SriRadioBot.OnReady | index.js:149-166 | a connection that recovers by itself is Ready again |
| RadioBot.SriRadioBot.FireGraceCheck | index.js:151-165 | the grace-period callback performs `Radio.FireGraceCheck` |
| RadioBot.SriRadioBot.FireAutoJoin | index.js:160-172 | an auto-join callback performs `Radio.FireAutoJoin` |
| DJ.PromptTable | src/DJManager.js:24-55 | the seven prompt types are distinct, include the four the hour can favour, and each prompt sets a word limit ("under N words") between 20 and 35 |
| DJ.DjPrompts | src/DJManager.js:24-55 | definition of the prompt table (seven prompts); properties in `PromptTable` |
| DJ.FindKind | src/DJManager.js:86-101 | `find` by type returns a prompt of the table with that type, or none when no prompt has it |
| DJ.FindKindFirst | src/DJManager.js:86-101 | the prompt `find` returns is the first of the table with that type |
| DJ.Candidates | src/DJManager.js:79-101 | definition of the weighted candidate list; properties in `CandidatesShape` and `CandidatesWeighting` |
| DJ.CandidatesShape | src/DJManager.js:79-101 | the candidates are the seven prompts followed by the extra copies: ten in the morning (6–12 h), nine otherwise, all extras of the favoured type |
| DJ.CandidatesWeighting | src/DJManager.js:79-101 | the favoured type makes up 4 of 10 candidates in the morning and 3 of 9 otherwise (transition 12–18 h, music fact 18–22 h, community at night); every other type makes up one |
| DJ.GetRandomPrompt | src/DJManager.js:79-103 | the picked prompt is always one of the table's seven |
| DJ.Remember | src/DJManager.js:130-134 | definition of push-then-`slice(-10)`; properties in `RememberKeepsLastTen` and `RememberAllIsSuffix` |
| DJ.RememberKeepsLastTen | src/DJManager.js:130-134 | recording a text appends it last and keeps the last (up to) ten, so the history grows by one up to ten and then stays at ten |
| DJ.RememberAllIsSuffix | src/DJManager.js:130-134 | after any number of recorded texts the history is the last (up to) ten of everything recorded, in order |
| DJ.Accepted | src/DJManager.js:127-145 | a reply is kept exactly when its trimmed text is non-empty, and what is kept is the trimmed text |
| DJ.Stats | src/DJManager.js:210-216 | definition of `getDJStats`; properties in `StatsOfHistory` |
| DJ.StatsOfHistory | src/DJManager.js:210-216 | the stats report the client flag, at most ten messages in total, and the last (up to) five in order, ending with the newest |
| DJ.DefaultBreak | src/DJManager.js:175-198 | definition of `generateDefaultDJBreak`; properties in `BreakFallback` |
| DJ.BreakClip | src/DJManager.js:57-77 | definition of the break decision; properties in `BreakFallback` |
| DJ.BreakFallback | src/DJManager.js:57-77 | generated text is spoken only with a client, a non-empty text and a working text-to-speech; every other path falls back to the default clip with the picked message; no clip at all only when the default speech also fails |
| DJ.Removed | src/DJManager.js:219-239 | definition of the names `cleanupTempFiles` deletes; properties in `RemovedExactlyEligible` |
| DJ.RemovedExactlyEligible | src/DJManager.js:219-239 | only names starting with `dj_`, ending with `.mp3` and older than an hour are deleted; when no file call throws, every such file is deleted |
| DJ.DJManager.constructor | src/DJManager.js:7-18 | an empty history and the client flag as given |
| DJ.DJManager.GenerateDJText | src/DJManager.js:105-145 | the anti-repeat hint lists the last three texts, the text returned is the accepted reply, and only an accepted reply is recorded in the history |
| DJ.DJManager.GenerateDJBreak | src/DJManager.js:57-77 | the clip is the `BreakClip` decision for the generated text, and the history records that text when there is one |
| DJ.DJManager.CleanupTempFiles | src/DJManager.js:219-239 | the loop deletes exactly the names `Removed` selects, in directory order, stopping at the first failing file call; nothing is deleted when the directory cannot be read |
| DJ.DJManager.GetDJStats | src/DJManager.js:210-216 | the total is the history's length and the flag is the client's; with the class invariant the total is at most ten and at most five messages are reported |

## Left out

- Persistence: `loadPlaylist`, `createDefaultPlaylist` and `savePlaylist` read and write a JSON file and call YouTube search. The model starts from the constructor's empty playlist, and `addSong`/`removeSong` skip the save (whose errors the source swallows).
- The reload on an empty playlist in `getNextTrack` (`await this.loadPlaylist()`): only its result, `null`, is modelled.
- Music.MusicManager.GetNextTrack: the recursive retry after a stream failure is not modelled. One call is one attempt, yielding `ResolveFailed` with the cursor moved by two; the caller may call again. The unbounded recursion on a playlist where no stream resolves is therefore not captured.
- Music.ShuffledIsPermutation: proves that a shuffle is a permutation, not that Fisher–Yates is uniform. Probabilities are outside the model.
- `getStreamableUrl`, `ytdl` and `searchSongs`: network calls. Their outcome is the `resolved` flag or the `Search` value.
- Volume (`setVolume(0.8)` and `0.9`), audio resources, the `inputType` and the player's stream handling: these are output details that make no decision.
- The Discord client: `ready`, slash commands (`src/commands`), `registerCommands`, the activity text and the express status page. Apart from `/announce`, they only call the modelled methods.
- `/announce` (src/commands/index.js:263) plays its clip with `bot.player.play` directly, bypassing the bot's methods. No model step plays that clip, so an announcement's Idle and its interplay with the queue are not modelled.
- The voice library's internals: reuse of an existing connection object by `joinVoiceChannel`, `subscribe`, and signals raised by connections that have since been replaced. Each model step acts on the current connection.
- A `joinChannel` that throws: the model assumes `joinVoiceChannel` returns a connection.
- Asynchronous interleavings inside one handler: each `async` body is one atomic step. For example, a `playNext` that awaits the queue while a stop arrives is not modelled.
- The wording of the seven DJ system prompts and of the fixed rules appended to them. Each prompt is its type and the word limit it sets; the request sent to the model is represented by the anti-repeat hint alone.
- The language-model call (model name, token limit, temperature) and gTTS: their results are the `reply` and `speechOk` inputs. `textToSpeech`'s own temporary file and its `unlink` are left out.
- `generateCustomAnnouncement`: a pass-through to text-to-speech without any decision.
- `console` logging everywhere.

