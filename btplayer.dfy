/**
 * The Bluetooth player object: its state record, the lifecycle bookkeeping
 * around a session (open, queue, job completion, close, pause) and the poll
 * step that keeps the now-playing metadata, proved against `A2dpPoll.Poll`.
 *
 * Calls into the host (audio engine, application messenger, data cache,
 * player callbacks) and the daemon's property queries are recorded in the
 * ghost event log `events`; the daemon's answers are parameters.
 */
module BluetoothPlayer {
  import opened Wrappers
  import opened A2dpPoll

  class BTPlayer {
    var guiData: GuiData          // m_playerGUIData
    var isPlaying: bool           // m_isPlaying
    var isPaused: bool            // m_isPaused
    var isFinished: bool          // m_isFinished
    var tag: MusicTag             // m_tag
    var jobCounter: int           // m_jobCounter
    var bStop: bool               // m_bStop
    var numberOfTracks: int       // m_numberOfTracks
    var dbusPath: string          // m_dbus_path
    var dbusErrors: nat           // m_dbus_errors

    /** Set by OpenFile: the error counter has been given a value. */
    ghost var sessionOpened: bool
    /** Everything the player has done towards the host and the daemon, in order. */
    ghost var events: seq<Event>

    /** How the music tag files an artist string into its artist list (not modelled further). */
    const splitArtist: string -> seq<string>

    /**
     * The GUI fields nobody writes stay zero, the time fields hold daemon
     * values, and a counter above the threshold has raised stop.
     */
    ghost predicate Valid()
      reads this
    {
      && guiData.channelCount == 0 && guiData.bitsPerSample == 0
      && guiData.sampleRate == 0 && guiData.audioBitrate == 0
      && guiData.cacheLevel == 0 && !guiData.canSeek
      && guiData.time >= 0 && guiData.totalTime >= 0
      && (dbusErrors > MaxDBusErrors ==> bStop)
    }

    /** The part of the state one poll step reads and writes. */
    function Snapshot(): PollState
      reads this
    {
      PollState(tag, guiData, numberOfTracks, dbusErrors, bStop)
    }

    /** The guard of the poll loop: it keeps polling while this holds. */
    predicate Polling()
      reads this
    {
      isPlaying && !bStop
    }

    constructor (splitArtist: string -> seq<string>)
      ensures Valid()
      ensures guiData == ZeroGuiData && tag == EmptyTag && numberOfTracks == 0
      ensures !isPlaying && !isPaused && !isFinished && !bStop
      ensures jobCounter == 0 && dbusPath == [] && !sessionOpened && events == []
      ensures this.splitArtist == splitArtist
    {
      guiData := ZeroGuiData;
      isPlaying := false;
      isPaused := false;
      isFinished := false;
      tag := EmptyTag;
      jobCounter := 0;
      bStop := false;
      numberOfTracks := 0;
      dbusPath := [];
      dbusErrors := 0;
      sessionOpened := false;
      events := [];
      this.splitArtist := splitArtist;
    }

    /** Starts a session on `path`; the stop flag is left as it was. */
    method OpenFile(path: string) returns (ok: bool)
      requires Valid()
      modifies this`isPaused, this`dbusPath, this`dbusErrors, this`isPlaying, this`sessionOpened, this`events
      ensures Valid() && ok
      ensures !isPaused && dbusPath == path && dbusErrors == 0 && isPlaying && sessionOpened
      ensures events == old(events) + [EngineSuspendRequested]
      ensures Polling() <==> !bStop
    {
      isPaused := false;
      dbusPath := path;
      dbusErrors := 0;
      sessionOpened := true;
      events := events + [EngineSuspendRequested];
      isPlaying := true;
      ok := true;
    }

    /** Counts one more pending job; nothing is queued. */
    method QueueNextFile(path: string) returns (ok: bool)
      modifies this`jobCounter
      ensures ok && jobCounter == old(jobCounter) + 1
    {
      jobCounter := jobCounter + 1;
      ok := true;
    }

    /** One pending job has finished. */
    method OnJobComplete()
      modifies this`jobCounter
      ensures jobCounter == old(jobCounter) - 1
    {
      jobCounter := jobCounter - 1;
    }

    method OnNothingToQueueNotify()
      modifies this`isFinished
      ensures isFinished
    {
      isFinished := true;
    }

    /**
     * Ends the session: raises stop, forgets the path, then waits until the
     * job counter is at most 0.  Nothing in the player itself lowers the
     * counter: only `OnJobComplete`, called from outside, does.  The
     * parameter `completions` is how many such calls arrive during the
     * wait.  `returned` tells whether the wait was left (the source then
     * resumes the audio engine and returns true); when it is false the
     * caller is still blocked in the wait.
     */
    method CloseFile(reopen: bool, completions: nat) returns (returned: bool)
      requires Valid()
      modifies this`bStop, this`dbusPath, this`jobCounter, this`events
      ensures Valid()
      ensures bStop && dbusPath == [] && !Polling()
      ensures returned <==> old(jobCounter) <= completions
      ensures returned <==> jobCounter <= 0
      ensures jobCounter == if old(jobCounter) <= 0 then old(jobCounter)
                            else if old(jobCounter) <= completions then 0
                            else old(jobCounter) - completions
      ensures events == old(events) + (if returned then [EngineResumeRequested] else [])
    {
      bStop := true;
      dbusPath := [];
      var pending := completions;
      while jobCounter > 0 && pending > 0
        invariant 0 <= pending <= completions
        invariant old(jobCounter) <= 0 ==> jobCounter == old(jobCounter)
        invariant old(jobCounter) > 0 ==> 0 <= jobCounter == old(jobCounter) - (completions - pending)
        modifies this`jobCounter
        decreases pending
      {
        OnJobComplete();
        pending := pending - 1;
      }
      returned := jobCounter <= 0;
      if returned {
        events := events + [EngineResumeRequested];
      }
    }

    /** One failed daemon query. */
    method LogDBusError()
      requires sessionOpened
      modifies this`dbusErrors, this`bStop
      ensures dbusErrors == old(dbusErrors) + 1
      ensures bStop <==> old(bStop) || dbusErrors > MaxDBusErrors
    {
      dbusErrors := dbusErrors + 1;
      if dbusErrors > MaxDBusErrors {
        bStop := true;
      }
    }

    /** One poll step on session `path`, given the daemon's answers. */
    method UpdateA2DPInfo(path: string, track: Option<TrackInfo>, status: Option<string>, position: Option<nat>)
      requires Valid() && sessionOpened
      modifies this`tag, this`guiData, this`numberOfTracks, this`dbusErrors, this`bStop, this`events
      ensures Valid()
      ensures Snapshot() == Poll(old(Snapshot()), path, track, status, position, splitArtist).state
      ensures events == old(events) + Poll(old(Snapshot()), path, track, status, position, splitArtist).events
      ensures old(bStop) ==> bStop
    {
      ghost var before := Snapshot();
      var changed, count, trackNumber := UpdateFromTrack(track);
      UpdateFromStatus(status, position);
      AnnounceChanges(path, changed, count, trackNumber);
      assert [Queried(TrackProperty)] + Queries(status)[1..] == Queries(status);
    }

    /**
     * The Track query of a poll step: compares, stores a changed track and
     * the duration, and returns what the rest of the step needs.
     */
    method UpdateFromTrack(track: Option<TrackInfo>) returns (changed: bool, count: int, trackNumber: int)
      requires Valid() && sessionOpened
      modifies this`tag, this`guiData, this`dbusErrors, this`bStop, this`events
      ensures Valid()
      ensures Snapshot() == TrackStage(old(Snapshot()), track, splitArtist)
      ensures changed == Changed(old(Snapshot()), track)
      ensures count == if changed then track.value.numberOfTracks else numberOfTracks
      ensures trackNumber == if changed then track.value.trackNumber else 0
      ensures events == old(events) + [Queried(TrackProperty)]
    {
      changed := false;
      count := numberOfTracks;
      trackNumber := 0;
      events := events + [Queried(TrackProperty)];
      match track {
        case None =>
          LogDBusError();
        case Some(t) =>
          changed := TrackDetailsChanged(tag, t);
          if changed {
            tag := MusicTag(splitArtist(t.artist), t.title, t.album, t.trackNumber);
            count := t.numberOfTracks;
            trackNumber := t.trackNumber;
          }
          guiData := guiData.(totalTime := t.duration);
      }
    }

    /** The Status query of a poll step, and the Position query while playing. */
    method UpdateFromStatus(status: Option<string>, position: Option<nat>)
      requires Valid() && sessionOpened
      modifies this`guiData, this`dbusErrors, this`bStop, this`events
      ensures Valid()
      ensures Snapshot() == StatusStage(old(Snapshot()), status, position)
      ensures events == old(events) + Queries(status)[1..]
    {
      events := events + [Queried(StatusProperty)];
      match status {
        case None =>
          LogDBusError();
        case Some(st) =>
          if st == Playing {
            events := events + [Queried(PositionProperty)];
            match position {
              case None =>
                LogDBusError();
              case Some(p) =>
                guiData := guiData.(time := p);
            }
          }
      }
    }

    /**
     * The end of a poll step: a new track count is stored and announced as a
     * fresh playlist, then the audio-info signal, then the now-playing
     * messages if anything changed.
     */
    method AnnounceChanges(path: string, changed: bool, count: int, trackNumber: int)
      modifies this`numberOfTracks, this`events
      ensures Snapshot() == Announce(old(Snapshot()), path, changed, count, trackNumber).state
      ensures events == old(events) + Announce(old(Snapshot()), path, changed, count, trackNumber).events
    {
      var notify := changed;
      if numberOfTracks != count {
        notify := true;
        numberOfTracks := count;
        var items := BuildPlaylist(path, count);
        assert items == Playlist(path, count);
        events := events + [PlaylistCleared, PlaylistAdded(items)];
      }
      events := events + [AudioInfoChanged];
      if notify {
        events := events + [CurrentItemUpdated(tag), SongNumberSet(trackNumber)];
      }
    }

    /**
     * One pass of the poll loop while its guard holds: a poll step on the
     * session's path, skipped while no path is set.
     */
    method ProcessIteration(track: Option<TrackInfo>, status: Option<string>, position: Option<nat>)
      requires Valid() && sessionOpened && Polling()
      modifies this`tag, this`guiData, this`numberOfTracks, this`dbusErrors, this`bStop, this`events
      ensures Valid()
      ensures dbusPath == [] ==> Snapshot() == old(Snapshot()) && events == old(events)
      ensures dbusPath != [] ==>
                && Snapshot() == Poll(old(Snapshot()), dbusPath, track, status, position, splitArtist).state
                && events == old(events) + Poll(old(Snapshot()), dbusPath, track, status, position, splitArtist).events
    {
      if dbusPath != [] {
        UpdateA2DPInfo(dbusPath, track, status, position);
      }
    }

    /** Flips the paused flag and tells the host which way it went. */
    method Pause()
      modifies this`isPaused, this`events
      ensures isPaused == !old(isPaused)
      ensures events == old(events) + [if old(isPaused) then PlaybackResumed else PlaybackPaused]
    {
      if isPaused {
        isPaused := false;
        events := events + [PlaybackResumed];
      } else {
        isPaused := true;
        events := events + [PlaybackPaused];
      }
    }

    method IsPlaying() returns (playing: bool)
      ensures playing == isPlaying
    {
      playing := isPlaying;
    }

    method IsPaused() returns (paused: bool)
      ensures paused == isPaused
    {
      paused := isPaused;
    }

    /** The last position the daemon reported, or 0 before the first one. */
    method GetTime() returns (time: int)
      requires Valid()
      ensures time == guiData.time && time >= 0
    {
      time := guiData.time;
    }

    /** The duration of the last track the daemon reported, or 0 before the first one. */
    method GetTotalTime() returns (totalTime: int)
      requires Valid()
      ensures totalTime == guiData.totalTime && totalTime >= 0
    {
      totalTime := guiData.totalTime;
    }

    /** Nothing is buffered: the cache level is always 0. */
    method GetCacheLevel() returns (level: int)
      requires Valid()
      ensures level == 0
    {
      level := guiData.cacheLevel;
    }

    /** Progress in percent; 0 while no positive duration is known. */
    method GetPercentage() returns (percent: real)
      requires Valid()
      ensures guiData.totalTime <= 0 ==> percent == 0.0
      ensures guiData.totalTime > 0 ==> percent * guiData.totalTime as real == guiData.time as real * 100.0
      ensures guiData.time <= guiData.totalTime ==> 0.0 <= percent <= 100.0
    {
      if guiData.totalTime > 0 {
        percent := guiData.time as real * 100.0 / guiData.totalTime as real;
      } else {
        percent := 0.0;
      }
    }

    /** Playback always runs at normal speed. */
    method GetSpeed() returns (speed: real)
      ensures speed == 1.0
    {
      speed := 1.0;
    }

    method SetSpeed(speed: real)
      ensures unchanged(this)
    {
    }

    method Seek(plus: bool, largeStep: bool, chapterOverride: bool)
      ensures unchanged(this)
    {
    }

    method SeekPercentage(percent: real)
      ensures unchanged(this)
    {
    }

    method SetVolume(volume: real)
      ensures unchanged(this)
    {
    }

    method SetDynamicRangeCompression(drc: int)
      ensures unchanged(this)
    {
    }

    method ToFFRW(speed: int)
      ensures unchanged(this)
    {
    }

    function HasVideo(): (hasVideo: bool)
      ensures !hasVideo
    {
      false
    }

    function HasAudio(): (hasAudio: bool)
      ensures hasAudio
    {
      true
    }

    function CanSeek(): (canSeek: bool)
      ensures !canSeek
    {
      false
    }

    function SkipNext(): (skipped: bool)
      ensures !skipped
    {
      false
    }

    function IsPassthrough(): (passthrough: bool)
      ensures passthrough
    {
      true
    }

    /** The player accepts every file type. */
    static function HandlesType(fileType: string): (handles: bool)
      ensures handles
    {
      true
    }
  }

  /** Builds the playlist sent when the track count changes: `numberOfTracks` items, each the session path. */
  method BuildPlaylist(path: string, numberOfTracks: int) returns (items: seq<string>)
    ensures |items| == if numberOfTracks > 0 then numberOfTracks else 0
    ensures forall i :: 0 <= i < |items| ==> items[i] == path
  {
    items := [];
    var count := 0;
    while count < numberOfTracks
      invariant 0 <= count <= if numberOfTracks > 0 then numberOfTracks else 0
      invariant |items| == count
      invariant forall i :: 0 <= i < |items| ==> items[i] == path
    {
      items := items + [path];
      count := count + 1;
    }
  }

  /** Two pauses restore the flag, with one paused and one resumed callback. */
  method PauseTwice(p: BTPlayer)
    modifies p`isPaused, p`events
    ensures p.isPaused == old(p.isPaused)
    ensures p.events == old(p.events) + (if old(p.isPaused) then [PlaybackResumed, PlaybackPaused]
                                         else [PlaybackPaused, PlaybackResumed])
  {
    p.Pause();
    p.Pause();
  }

  /** Stop is never lowered: once a session is closed, reopening does not restart the poll loop. */
  method CloseThenReopen(p: BTPlayer, path: string) returns (ok: bool)
    requires p.Valid()
    modifies p
    ensures ok && p.Valid() && p.isPlaying && p.dbusPath == path && p.dbusErrors == 0
    ensures !p.Polling()
  {
    var closed := p.CloseFile(false, 0);
    ok := p.OpenFile(path);
  }

  /**
   * Once the error counter has taken stop up, the next session does not poll
   * either: OpenFile zeroes the counter but keeps stop.
   */
  method ErrorsOutlastReopen(p: BTPlayer, path: string, newPath: string)
    requires p.Valid() && p.sessionOpened && p.dbusErrors == MaxDBusErrors
    modifies p
    ensures p.bStop && p.dbusErrors == 0 && !p.Polling()
  {
    p.UpdateA2DPInfo(path, None, None, None);
    var ok := p.OpenFile(newPath);
  }

  /**
   * No job is ever submitted, so nothing calls `OnJobComplete` on its own:
   * a queued file followed by a close, with no completion from outside,
   * leaves the close blocked in its wait and the audio engine suspended.
   */
  method QueueThenCloseBlocks(p: BTPlayer, path: string) returns (returned: bool)
    requires p.Valid() && p.jobCounter >= 0
    modifies p
    ensures !returned && p.jobCounter > 0
    ensures p.events == old(p.events)
  {
    var queued := p.QueueNextFile(path);
    returned := p.CloseFile(false, 0);
  }

  /** A close with two pending jobs returns once two completions arrive, and resumes the engine once. */
  method CloseAfterTwoCompletions(p: BTPlayer) returns (returned: bool)
    requires p.Valid() && p.jobCounter == 2
    modifies p
    ensures returned && p.jobCounter == 0
    ensures p.events == old(p.events) + [EngineResumeRequested]
  {
    returned := p.CloseFile(false, 2);
  }
}
