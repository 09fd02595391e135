# BTPlayer: a verified model of Kodi's Bluetooth "dummy" player

`BTPlayer` is the player Kodi selects while a Bluetooth (A2DP) source plays
through PulseAudio. It plays no audio of its own. On open it asks the audio
engine to suspend. Every 500 ms its worker thread asks BlueZ for the Track
and Status properties of `org.bluez.MediaPlayer1`, and for the Position
property only after a "playing" status, and forwards now-playing data to
the GUI. On close it asks the audio engine to resume.

This project models that object in Dafny:

- `wrappers.dfy`: module `Wrappers`, an `Option` type. `None` is a daemon
  query that failed.
- `a2dp_poll.dfy`: module `A2dpPoll`. It holds the value types (the music
  tag, the Track answer, the GUI record, the event log entries) and the
  comparator `haveTrackDetailsChanged` as a pure function. It also holds
  `Poll`, which states on values what one `updateA2DPInfo` step does.
  `Poll` is built from `TrackStage`, `StatusStage` and `Announce`, which
  follow the three parts of the C++ function. The lemmas about `Poll` are
  in the same file.
- `btplayer.dfy`: module `BluetoothPlayer`. Class `BTPlayer` has fields
  that mirror the header's members. Its methods update those fields in
  place. `UpdateA2DPInfo` runs the poll step imperatively and is proved
  equal to `Poll` on the class's `Snapshot()`. The calls towards the
  outside that the model keeps go into the ghost log `events`, in order:
  daemon queries, playlist and now-playing messages, the data-cache
  signal, audio-engine suspend and resume, and the paused/resumed
  callbacks. The playback started/stopped callbacks, the thread's
  `Create` and `StopThread`, and the start and job events are not logged
  (see "Left out").

Behaviours the model states rather than corrects:

- Nothing ever sets the stop flag back to false. `OpenFile` keeps it as it
  is, so a session that was closed, or that hit the error limit, never
  polls again once reopened (`CloseThenReopen`, `ErrorsOutlastReopen`).
- While no artist is stored, the artist is not compared
  (`ArtistIgnoredWithoutStoredArtist`).
- Polling the same track twice reports a second change whenever the music
  tag does not keep the artist string as its first artist
  (`RepeatedPoll`).
- The error counter counts every failed query since the last `OpenFile`,
  not only consecutive ones. The 51st error raises stop, not the 50th.
  A step where every query fails counts two errors, because Position is
  not asked for without a "playing" status. So 26 such steps stop a fresh
  session and 25 do not (`FailingPollsStopAtThreshold`).
- The second `trackDetailsChanged = true` (BTPlayer.cpp:242) never changes
  the outcome. The stored count can only move when the comparator already
  reported a change (`PollStateChange`).
- `QueueNextFile` raises the job counter, but no job is ever submitted, so
  nothing in the player lowers it again. After a queued file, `CloseFile`
  waits for ever unless something outside calls `OnJobComplete`, and the
  audio engine is then never asked to resume (`QueueThenCloseBlocks`).

## Model

| member | source | states |
|---|---|---|
| `A2dpPoll.TrackDetailsChanged` | xbmc/cores/btplayer/BTPlayer.cpp:161-184 | true exactly when title, album or track number differ, or a stored first artist differs from the answer's artist |
| `A2dpPoll.LogError` | xbmc/cores/btplayer/BTPlayer.cpp:151-159 | the counter grows by one; stop is raised when the counter was already at 50 or more (the 51st error); nothing else changes |
| `A2dpPoll.TrackStage` | xbmc/cores/btplayer/BTPlayer.cpp:192-212 | an absent Track answer counts one error; a present one sets the total time to its duration, and it replaces the tag only when the comparator reports a change |
| `A2dpPoll.StatusStage` | xbmc/cores/btplayer/BTPlayer.cpp:213-238 | the time changes only on a "playing" status with a position; one error per absent answer; stop rises only when a new error passes 50 |
| `A2dpPoll.Announce` | xbmc/cores/btplayer/BTPlayer.cpp:239-262 | the stored count becomes the given count and no other state field changes |
| `A2dpPoll.AnnounceMessages` | xbmc/cores/btplayer/BTPlayer.cpp:239-262 | the playlist is cleared iff the count moves; the audio-info signal always goes out; now-playing and song number go out iff the track changed or the count moved; the exact message list in each of the three cases |
| `A2dpPoll.Poll` | xbmc/cores/btplayer/BTPlayer.cpp:186-263 | one step never lowers stop; it adds between 0 and 3 errors; it replaces the tag only when the comparator reports a change |
| `A2dpPoll.PollQueries` | xbmc/cores/btplayer/BTPlayer.cpp:188-228 | the step asks for Track, then Status, and for Position iff the status is "playing" |
| `A2dpPoll.PollStateChange` | xbmc/cores/btplayer/BTPlayer.cpp:186-263 | after a step: total time follows any Track answer; tag replaced only on a change; time only on "playing" plus position; errors grow by the number of absent answers (at most 3); stop only rises, and only by a new error above 50; stored count moves only when a change brings a different count |
| `A2dpPoll.PollEvents` | xbmc/cores/btplayer/BTPlayer.cpp:186-263 | with no change only the audio-info signal follows; a new count sends clear, then add, before the now-playing and song-number posts; no clear without a new count |
| `A2dpPoll.PositionIgnoredUnlessPlaying` | xbmc/cores/btplayer/BTPlayer.cpp:223-236 | when the status is not "playing", the Position answer has no effect on the step |
| `A2dpPoll.ArtistIgnoredWithoutStoredArtist` | xbmc/cores/btplayer/BTPlayer.cpp:164-170 | with no stored artist the answer's artist does not affect the comparison, so a change of artist alone goes unnoticed |
| `A2dpPoll.RepeatedPoll` | xbmc/cores/btplayer/BTPlayer.cpp:161-211 | the second of two polls of the same track reports a change (and posts now-playing) iff the first one did and the tag's first artist is not the artist string |
| `A2dpPoll.FailingPollsCountErrors` | xbmc/cores/btplayer/BTPlayer.cpp:196-232 | k steps in which every query fails add 2k errors, leave the tag alone, and end with stop raised iff it was raised before or the count passed 50 |
| `A2dpPoll.FailingPollsStopAtThreshold` | xbmc/cores/btplayer/BTPlayer.cpp:151-159 | from a fresh session, 25 fully failing steps (50 errors) keep stop down and 26 (52 errors) raise it |
| `A2dpPoll.FirstChangedPollRebuildsPlaylist` | xbmc/cores/btplayer/BTPlayer.cpp:240-255 | from the initial count 0, a changed track with a positive count stores that count, clears the playlist and adds one with that many items |
| `A2dpPoll.FirstTrackScenario` | xbmc/cores/btplayer/BTPlayer.cpp:186-263 | first poll of artist A, title T1, track 1 of 5 with a failed status query: the exact event list (one playlist of 5 items, one now-playing, song number 1), one error, no stop |
| `BluetoothPlayer.BTPlayer.constructor` | xbmc/cores/btplayer/BTPlayer.cpp:60-77 | the GUI record is zero, stop, playing, paused and finished are false, the job counter and stored track count are 0, the tag is empty |
| `BluetoothPlayer.BTPlayer.OpenFile` | xbmc/cores/btplayer/BTPlayer.cpp:85-116 | returns true; paused false, path set, error counter 0, playing true, engine suspend requested; stop untouched, so the poll guard holds iff stop was down |
| `BluetoothPlayer.BTPlayer.QueueNextFile` | xbmc/cores/btplayer/BTPlayer.cpp:118-125 | returns true and adds one to the job counter; nothing else changes |
| `BluetoothPlayer.BTPlayer.OnJobComplete` | xbmc/cores/btplayer/BTPlayer.cpp:364-369 | subtracts one from the job counter; nothing else changes |
| `BluetoothPlayer.BTPlayer.OnNothingToQueueNotify` | xbmc/cores/btplayer/BTPlayer.cpp:305-308 | sets the finished flag and nothing else |
| `BluetoothPlayer.BTPlayer.CloseFile` | xbmc/cores/btplayer/BTPlayer.cpp:127-148 | stop raised and the path cleared; each outside job completion lowers the counter during the wait; the wait is left (and the function returns true) iff the counter reaches 0 or was already at most 0; engine resume requested once exactly when the wait is left, and not otherwise |
| `BluetoothPlayer.BTPlayer.LogDBusError` | xbmc/cores/btplayer/BTPlayer.cpp:151-159 | the counter grows by one; stop is set iff it was set or the counter now exceeds 50 |
| `BluetoothPlayer.BTPlayer.UpdateA2DPInfo` | xbmc/cores/btplayer/BTPlayer.cpp:186-263 | the new snapshot and the appended events are exactly those of `Poll` on the old snapshot; the class invariant is kept; stop is never lowered |
| `BluetoothPlayer.BTPlayer.UpdateFromTrack` | xbmc/cores/btplayer/BTPlayer.cpp:188-212 | the Track part of the step equals `TrackStage`; it returns the comparator's verdict, the count to compare and the track number to post (0 when unchanged) |
| `BluetoothPlayer.BTPlayer.UpdateFromStatus` | xbmc/cores/btplayer/BTPlayer.cpp:213-238 | the Status and Position part of the step equals `StatusStage`; the Position query is logged only after a "playing" status |
| `BluetoothPlayer.BTPlayer.AnnounceChanges` | xbmc/cores/btplayer/BTPlayer.cpp:239-262 | the count update and the messages equal `Announce`: a new count is stored and sent as clear plus add, then the audio-info signal, then now-playing and song number if anything changed |
| `BluetoothPlayer.BTPlayer.ProcessIteration` | xbmc/cores/btplayer/BTPlayer.cpp:275-283 | one pass of the poll loop while playing and not stopped: nothing happens with an empty path, otherwise one `Poll` step on the session's path |
| `BluetoothPlayer.BTPlayer.Pause` | xbmc/cores/btplayer/BTPlayer.cpp:316-328 | flips the paused flag and logs the resumed callback iff it was paused, the paused callback otherwise |
| `BluetoothPlayer.BTPlayer.IsPlaying` | xbmc/cores/btplayer/BTPlayer.cpp:310-313 | reports the playing flag |
| `BluetoothPlayer.BTPlayer.IsPaused` | xbmc/cores/btplayer/BTPlayer.cpp:330-333 | reports the paused flag |
| `BluetoothPlayer.BTPlayer.GetTime` | xbmc/cores/btplayer/BTPlayer.cpp:340-343 | the stored time, never negative because it only ever holds a daemon position or 0 |
| `BluetoothPlayer.BTPlayer.GetTotalTime` | xbmc/cores/btplayer/BTPlayer.cpp:345-348 | the stored total time, never negative because it only ever holds a daemon duration or 0 |
| `BluetoothPlayer.BTPlayer.GetCacheLevel` | xbmc/cores/btplayer/BTPlayer.cpp:350-353 | always 0: the construction zeroes the cache level and nothing writes it (class invariant) |
| `BluetoothPlayer.BTPlayer.GetPercentage` | xbmc/cores/btplayer/BTPlayer.cpp:384-390 | 0 without a positive total time; otherwise time times 100 divided by total time, which lies in 0..100 while time does not exceed total time |
| `BluetoothPlayer.BTPlayer.GetSpeed` | xbmc/cores/btplayer/BTPlayer.cpp:379-382 | always normal speed, 1 |
| `BluetoothPlayer.BTPlayer.SetSpeed` | xbmc/cores/btplayer/BTPlayer.cpp:375-377 | changes nothing |
| `BluetoothPlayer.BTPlayer.Seek` | xbmc/cores/btplayer/BTPlayer.cpp:371-373 | changes nothing |
| `BluetoothPlayer.BTPlayer.SeekPercentage` | xbmc/cores/btplayer/BTPlayer.h:61 | changes nothing |
| `BluetoothPlayer.BTPlayer.SetVolume` | xbmc/cores/btplayer/BTPlayer.h:63 | changes nothing |
| `BluetoothPlayer.BTPlayer.SetDynamicRangeCompression` | xbmc/cores/btplayer/BTPlayer.h:64 | changes nothing |
| `BluetoothPlayer.BTPlayer.ToFFRW` | xbmc/cores/btplayer/BTPlayer.h:68 | changes nothing |
| `BluetoothPlayer.BTPlayer.HasVideo` | xbmc/cores/btplayer/BTPlayer.h:57 | the player never has video |
| `BluetoothPlayer.BTPlayer.HasAudio` | xbmc/cores/btplayer/BTPlayer.h:58 | the player always has audio |
| `BluetoothPlayer.BTPlayer.CanSeek` | xbmc/cores/btplayer/BTPlayer.h:59 | the player can never seek |
| `BluetoothPlayer.BTPlayer.SkipNext` | xbmc/cores/btplayer/BTPlayer.h:78 | skipping to the next item is always refused |
| `BluetoothPlayer.BTPlayer.IsPassthrough` | xbmc/cores/btplayer/BTPlayer.h:79 | the player always reports passthrough |
| `BluetoothPlayer.BTPlayer.HandlesType` | xbmc/cores/btplayer/BTPlayer.h:82 | every file type is accepted |
| `BluetoothPlayer.BuildPlaylist` | xbmc/cores/btplayer/BTPlayer.cpp:244-250 | exactly max(NumberOfTracks, 0) items, each the session path |
| `BluetoothPlayer.PauseTwice` | xbmc/cores/btplayer/BTPlayer.cpp:316-328 | two pauses restore the paused flag and log one paused and one resumed callback, in the order the flag dictates |
| `BluetoothPlayer.QueueThenCloseBlocks` | xbmc/cores/btplayer/BTPlayer.cpp:118-148 | a queued file and then a close with no outside job completion: the close does not leave its wait, the counter stays positive, and no resume is requested |
| `BluetoothPlayer.CloseAfterTwoCompletions` | xbmc/cores/btplayer/BTPlayer.cpp:127-148 | with two pending jobs, two outside completions let the close leave its wait with the counter at 0 and one resume request |
| `BluetoothPlayer.CloseThenReopen` | xbmc/cores/btplayer/BTPlayer.cpp:85-130 | after a close, a reopen sets playing, the path and a zero counter, but the poll guard stays false because stop is never lowered |
| `BluetoothPlayer.ErrorsOutlastReopen` | xbmc/cores/btplayer/BTPlayer.cpp:151-159 | a step that takes the counter past 50 raises stop, and a following open zeroes the counter without restarting the poll loop |

## Left out

- The BlueZ property queries (`CDBusUtil::GetVariant`) are parameters of the poll step. A result that compares equal to `NULL` is an absent answer (`None`). A key missing from a present Track answer reads as "" or 0, as the variant accessors give.
- The audio engine's suspend and resume are only logged as events. The 2-second wait for suspension, `IsSuspended`, and the result of `Resume` (a failure is only logged) are left out.
- Threads are left out: `Process`, its 100 ms wait for the start event, the 500 ms sleep, the start and stop callbacks, `Create`, `StopThread`, `OnStartup` and `OnExit`. `Polling()` is the loop guard. `ProcessIteration` is one pass of the loop.
- Locking (`m_streamsLock`) is left out; the model is sequential.
- CloseFile: the `OnJobComplete` calls that arrive from other threads during the wait are a parameter, a count of completions. Their timing, the 100 ms waits on the job event, and the `StopThread` call that ends the worker thread are not modelled. When the completions run out with the counter still positive, the model returns with `returned` false, which stands for a close still blocked in its wait.
- `CMusicInfoTag` is not part of this model. How `SetArtist` turns a string into an artist list is the constructor's parameter `splitArtist`, and nothing is assumed about it. `SetTitle`, `SetAlbum` and `SetTrackNumber` are modelled as plain stores.
- UpdateA2DPInfo: integers are unbounded. `TrackNumber` and `NumberOfTracks` (read as 64-bit and stored in `int`) and `Duration` and `Position` (unsigned 64-bit stored in `int64_t`) are not truncated. BlueZ sends these as 32-bit values.
- LogDBusError: the counter is a `nat`, so the 32-bit wrap of `m_dbus_errors` is not modelled. The poll loop stops long before it could happen.
- QueueNextFile: `m_jobCounter` is unbounded; its 32-bit overflow is not modelled.
- The error counter has no value before the first `OpenFile`. `UpdateA2DPInfo`, `ProcessIteration` and `LogDBusError` therefore require a session to have been opened (ghost flag `sessionOpened`).
- GetPercentage: computed with exact real division instead of single-precision float.
- `GetAudioStreamInfo` is left out. It copies zeroed GUI fields, and the class invariant already keeps them at zero. The codec name buffer `m_codec` is left out too.
- These are left out because their bodies are empty and they store nothing: `GetAudioInfo`, `GetVideoInfo`, `GetGeneralInfo`, `ShowOSD`, `DoAudioWork`, `SeekTime` and `GetAudioCapabilities`.
- `RegisterAudioCallback` and `UnRegisterAudioCallback` are left out. They store a callback pointer that nothing reads.
- `CQueueNextFileJob` is never submitted, and its `DoWork` just returns true.
- The destructor (`CloseFile` and then deleting the file item `m_FileItem`) is left out, and with it `m_FileItem`, which only the constructor and the destructor touch.
- These fields are only set at construction and nothing reads them, so they are left out: `m_signalSpeedChange`, `m_playbackSpeed`, `m_defaultCrossfadeMS`, `m_upcomingCrossfadeMS` and `m_continueStream`. `m_audioCallback` is covered by the line on the callback registration above.
- The start event (`m_startEvent`, set by `OpenFile`) and the job event (`m_jobEvent`, set by `OnJobComplete`) only wake threads, so they are left out with the threads.
- Logging is left out.
