/**
 * The per-poll metadata update of the Bluetooth player: `updateA2DPInfo`
 * together with its comparator `haveTrackDetailsChanged` and the error
 * counter of `logDBusError`, stated on values.
 *
 * Each property query to the Bluetooth daemon (the Track, Status and
 * Position properties of org.bluez.MediaPlayer1) is an `Option` input:
 * `None` stands for a query that failed.  What the step sends to the host
 * (playlist and now-playing messages, the audio-info signal) and which
 * queries it makes are returned as a list of events, in order.
 */
module A2dpPoll {
  import opened Wrappers

  /** The error that takes the counter above this value raises the stop flag. */
  const MaxDBusErrors := 50

  /** The only transport status for which the position is queried. */
  const Playing := "playing"

  /** The parts of the stored music tag the player reads and writes. */
  datatype MusicTag = MusicTag(artists: seq<string>, title: string, album: string, trackNumber: int)

  /** A freshly constructed tag: no artist, empty strings, track 0. */
  const EmptyTag := MusicTag([], "", "", 0)

  /**
   * The Track property as the player reads it.  A key missing from the
   * daemon's answer reads as "" or 0, which is what the variant accessors
   * return for it.
   */
  datatype TrackInfo = TrackInfo(
    artist: string,
    title: string,
    album: string,
    trackNumber: int,
    numberOfTracks: int,
    duration: nat)

  /** The player's GUI record (`m_playerGUIData`) without its codec name buffer. */
  datatype GuiData = GuiData(
    time: int,
    totalTime: int,
    channelCount: int,
    bitsPerSample: int,
    sampleRate: int,
    audioBitrate: int,
    cacheLevel: int,
    canSeek: bool)

  /** The record as the constructor leaves it: every field zero. */
  const ZeroGuiData := GuiData(0, 0, 0, 0, 0, 0, 0, false)

  datatype Property = TrackProperty | StatusProperty | PositionProperty

  /** What the player does towards the outside world, in the order it does it. */
  datatype Event =
    | Queried(property: Property)          // a property query to the daemon
    | PlaylistCleared                      // "clear playlist" message (sent)
    | PlaylistAdded(items: seq<string>)    // "add to playlist" message (sent)
    | AudioInfoChanged                     // data-cache audio-info signal
    | CurrentItemUpdated(tag: MusicTag)    // "update current item" message (posted)
    | SongNumberSet(trackNumber: int)      // "set song number" message (posted)
    | EngineSuspendRequested               // audio engine asked to suspend
    | EngineResumeRequested                // audio engine asked to resume
    | PlaybackPaused                       // player callback
    | PlaybackResumed                      // player callback

  /** The player state one poll step reads and writes. */
  datatype PollState = PollState(
    tag: MusicTag,
    gui: GuiData,
    numberOfTracks: int,
    dbusErrors: nat,
    stop: bool)

  datatype PollResult = PollResult(state: PollState, events: seq<Event>)

  /**
   * The comparator: written, as in the player, as a flag that each
   * differing field sets.  The artist is only compared when a stored
   * artist exists.
   */
  function TrackDetailsChanged(tag: MusicTag, track: TrackInfo): (changed: bool)
    ensures changed <==>
      || (tag.artists != [] && tag.artists[0] != track.artist)
      || tag.title != track.title
      || tag.album != track.album
      || tag.trackNumber != track.trackNumber
  {
    var byArtist := if tag.artists != [] && tag.artists[0] != track.artist then true else false;
    var byTitle := if tag.title != track.title then true else byArtist;
    var byAlbum := if tag.album != track.album then true else byTitle;
    if tag.trackNumber != track.trackNumber then true else byAlbum
  }

  /** One failed query: the counter grows by one, and the 51st error raises stop. */
  function LogError(s: PollState): (r: PollState)
    ensures r.dbusErrors == s.dbusErrors + 1
    ensures r.stop <==> s.stop || s.dbusErrors >= MaxDBusErrors
    ensures r.(dbusErrors := s.dbusErrors, stop := s.stop) == s
  {
    var errors := s.dbusErrors + 1;
    s.(dbusErrors := errors, stop := if errors > MaxDBusErrors then true else s.stop)
  }

  /** The tag after a changed track is stored; `splitArtist` is how the tag files an artist string. */
  function StoredTag(track: TrackInfo, splitArtist: string -> seq<string>): MusicTag
  {
    MusicTag(splitArtist(track.artist), track.title, track.album, track.trackNumber)
  }

  /** True when the Track query answered and the comparator reported a change. */
  predicate Changed(s: PollState, track: Option<TrackInfo>)
  {
    track.Some? && TrackDetailsChanged(s.tag, track.value)
  }

  /** The playlist the step sends: one item per track, each the session path. */
  function Playlist(path: string, numberOfTracks: int): seq<string>
  {
    seq(if numberOfTracks > 0 then numberOfTracks else 0, _ => path)
  }

  /** The number of queries the step makes that come back absent. */
  function Misses(track: Option<TrackInfo>, status: Option<string>, position: Option<nat>): nat
  {
    (if track.None? then 1 else 0) + StatusMisses(status, position)
  }

  /** The absent answers among the Status query and the Position query it may lead to. */
  function StatusMisses(status: Option<string>, position: Option<nat>): nat
  {
    (if status.None? then 1 else 0) + (if status == Some(Playing) && position.None? then 1 else 0)
  }

  /** The queries the step makes: Position only after a "playing" status. */
  function Queries(status: Option<string>): seq<Event>
  {
    [Queried(TrackProperty), Queried(StatusProperty)]
    + (if status == Some(Playing) then [Queried(PositionProperty)] else [])
  }

  /** The Track stage: the tag and the total time. */
  function TrackStage(s: PollState, track: Option<TrackInfo>, splitArtist: string -> seq<string>): (r: PollState)
    ensures r.tag == (if Changed(s, track) then StoredTag(track.value, splitArtist) else s.tag)
    ensures r.gui == (if track.Some? then s.gui.(totalTime := track.value.duration) else s.gui)
    ensures r.numberOfTracks == s.numberOfTracks
    ensures r.dbusErrors == s.dbusErrors + (if track.None? then 1 else 0)
    ensures r.stop <==> s.stop || (track.None? && s.dbusErrors >= MaxDBusErrors)
  {
    match track
    case None => LogError(s)
    case Some(t) =>
      s.(tag := if TrackDetailsChanged(s.tag, t) then StoredTag(t, splitArtist) else s.tag,
         gui := s.gui.(totalTime := t.duration))
  }

  /** The Status stage: the position, read only while playing. */
  function StatusStage(s: PollState, status: Option<string>, position: Option<nat>): (r: PollState)
    ensures r.tag == s.tag && r.numberOfTracks == s.numberOfTracks
    ensures r.gui == (if status == Some(Playing) && position.Some? then s.gui.(time := position.value) else s.gui)
    ensures r.dbusErrors == s.dbusErrors + StatusMisses(status, position)
    ensures r.stop <==> s.stop || (r.dbusErrors > s.dbusErrors && r.dbusErrors > MaxDBusErrors)
  {
    match status
    case None => LogError(s)
    case Some(st) =>
      if st != Playing then s
      else match position
        case None => LogError(s)
        case Some(p) => s.(gui := s.gui.(time := p))
  }

  /**
   * The end of a poll step: the stored track count and the messages, given
   * the comparator's verdict and the count and track number the Track query
   * produced.
   */
  function Announce(s: PollState, path: string, changed: bool, count: int, trackNumber: int): (r: PollResult)
    ensures r.state.numberOfTracks == count
    ensures r.state.(numberOfTracks := s.numberOfTracks) == s
  {
    var resized := s.numberOfTracks != count;
    var state := if resized then s.(numberOfTracks := count) else s;
    var notify := changed || resized;
    PollResult(state,
      (if resized then [PlaylistCleared, PlaylistAdded(Playlist(path, count))] else [])
      + [AudioInfoChanged]
      + (if notify then [CurrentItemUpdated(state.tag), SongNumberSet(trackNumber)] else []))
  }

  /**
   * The playlist is rebuilt exactly when the stored count moves, and the
   * song number goes out exactly when the track changed or the count moved.
   */
  lemma AnnounceMessages(s: PollState, path: string, changed: bool, count: int, trackNumber: int)
    ensures var r := Announce(s, path, changed, count, trackNumber);
      && (PlaylistCleared in r.events <==> s.numberOfTracks != count)
      && (SongNumberSet(trackNumber) in r.events <==> changed || s.numberOfTracks != count)
      && (CurrentItemUpdated(s.tag) in r.events <==> changed || s.numberOfTracks != count)
      && AudioInfoChanged in r.events
      && Queried(PositionProperty) !in r.events
      && (!changed && s.numberOfTracks == count ==> r.events == [AudioInfoChanged])
      && (changed && s.numberOfTracks == count ==>
            r.events == [AudioInfoChanged, CurrentItemUpdated(s.tag), SongNumberSet(trackNumber)])
      && (s.numberOfTracks != count ==>
            r.events == [PlaylistCleared, PlaylistAdded(Playlist(path, count)), AudioInfoChanged,
                         CurrentItemUpdated(s.tag), SongNumberSet(trackNumber)])
  {
  }

  /**
   * One poll step.  `path` is the session's object path, `track`, `status`
   * and `position` the daemon's answers (`position` is only consulted when
   * the status is "playing", since only then is it asked for).
   */
  function Poll(s: PollState, path: string, track: Option<TrackInfo>, status: Option<string>,
                position: Option<nat>, splitArtist: string -> seq<string>): (r: PollResult)
    ensures s.stop ==> r.state.stop
    ensures s.dbusErrors <= r.state.dbusErrors <= s.dbusErrors + 3
    ensures r.state.tag == s.tag || Changed(s, track)
  {
    var changed := Changed(s, track);
    var count := if changed then track.value.numberOfTracks else s.numberOfTracks;
    var trackNumber := if changed then track.value.trackNumber else 0;
    var rest := Announce(StatusStage(TrackStage(s, track, splitArtist), status, position),
                         path, changed, count, trackNumber);
    PollResult(rest.state, Queries(status) + rest.events)
  }

  /**
   * The state after one poll step: which fields move, under which guards,
   * and how far the error counter and the stop flag go.
   */
  lemma PollStateChange(s: PollState, path: string, track: Option<TrackInfo>, status: Option<string>,
                        position: Option<nat>, splitArtist: string -> seq<string>)
    ensures var r := Poll(s, path, track, status, position, splitArtist);
      // The total time follows every answered Track query; the tag only a changed one.
      && (track.Some? ==> r.state.gui.totalTime == track.value.duration)
      && (track.None? ==> r.state.gui.totalTime == s.gui.totalTime && r.state.tag == s.tag)
      && (r.state.tag != s.tag ==> Changed(s, track))
      && (Changed(s, track) ==> r.state.tag == StoredTag(track.value, splitArtist))
      // The position is stored only on a "playing" status with an answered Position query.
      && r.state.gui.time == (if status == Some(Playing) && position.Some? then position.value else s.gui.time)
      && r.state.gui.(time := s.gui.time, totalTime := s.gui.totalTime) == s.gui
      // One error per absent answer, so at most three per step.
      && r.state.dbusErrors == s.dbusErrors + Misses(track, status, position) <= s.dbusErrors + 3
      // Stop is raised by an error that takes the counter above 50, and never lowered.
      && (r.state.stop <==> s.stop || (r.state.dbusErrors > s.dbusErrors && r.state.dbusErrors > MaxDBusErrors))
      // The stored track count moves only with a changed track whose count differs.
      && (r.state.numberOfTracks != s.numberOfTracks <==>
            Changed(s, track) && track.value.numberOfTracks != s.numberOfTracks)
      && (r.state.numberOfTracks != s.numberOfTracks ==> r.state.numberOfTracks == track.value.numberOfTracks)
  {
  }

  /** The queries of one poll step: Track, then Status, then Position only while playing. */
  lemma PollQueries(s: PollState, path: string, track: Option<TrackInfo>, status: Option<string>,
                    position: Option<nat>, splitArtist: string -> seq<string>)
    ensures var r := Poll(s, path, track, status, position, splitArtist);
      && |r.events| >= 3 && r.events[..2] == [Queried(TrackProperty), Queried(StatusProperty)]
      && (Queried(PositionProperty) in r.events <==> status == Some(Playing))
  {
  }

  /**
   * The messages of one poll step, after the queries: the playlist messages
   * if the stored count moved, the audio-info signal, and the now-playing
   * messages if the track changed.
   */
  lemma PollEvents(s: PollState, path: string, track: Option<TrackInfo>, status: Option<string>,
                   position: Option<nat>, splitArtist: string -> seq<string>)
    ensures var r := Poll(s, path, track, status, position, splitArtist);
      // Without a change no message goes out, only the audio-info signal.
      && (!Changed(s, track) ==> r.events == Queries(status) + [AudioInfoChanged])
      // A change ends with the now-playing and song-number messages.
      && (Changed(s, track) ==>
            && |r.events| >= 2
            && r.events[|r.events| - 2..] == [CurrentItemUpdated(r.state.tag), SongNumberSet(track.value.trackNumber)])
      // A new track count: clear, then add the new playlist, before the now-playing messages.
      && (r.state.numberOfTracks != s.numberOfTracks ==>
            && |r.events| >= 5
            && r.events[|r.events| - 5..] ==
                 [PlaylistCleared, PlaylistAdded(Playlist(path, r.state.numberOfTracks)), AudioInfoChanged,
                  CurrentItemUpdated(r.state.tag), SongNumberSet(track.value.trackNumber)])
      && (r.state.numberOfTracks == s.numberOfTracks ==> PlaylistCleared !in r.events)
  {
  }

  /** The Position answer is irrelevant unless the status is "playing". */
  lemma PositionIgnoredUnlessPlaying(s: PollState, path: string, track: Option<TrackInfo>, status: Option<string>,
                                     p1: Option<nat>, p2: Option<nat>, splitArtist: string -> seq<string>)
    requires status != Some(Playing)
    ensures Poll(s, path, track, status, p1, splitArtist) == Poll(s, path, track, status, p2, splitArtist)
  {
  }

  /** With no stored artist, the response's artist has no say in the comparison. */
  lemma ArtistIgnoredWithoutStoredArtist(tag: MusicTag, track: TrackInfo, artist: string)
    requires tag.artists == []
    ensures TrackDetailsChanged(tag, track) == TrackDetailsChanged(tag, track.(artist := artist))
    ensures (tag.title == track.title && tag.album == track.album && tag.trackNumber == track.trackNumber)
              ==> !TrackDetailsChanged(tag, track.(artist := artist))
  {
  }

  /**
   * Polling the same track twice: the second poll reports a change exactly
   * when the first one did and the tag does not keep the artist string as
   * its first artist (it files it as no artist, or as a different first one).
   */
  lemma RepeatedPoll(s: PollState, path: string, t: TrackInfo, status: Option<string>, position: Option<nat>,
                     status2: Option<string>, position2: Option<nat>, splitArtist: string -> seq<string>)
    ensures
      var first := Poll(s, path, Some(t), status, position, splitArtist);
      var second := Poll(first.state, path, Some(t), status2, position2, splitArtist);
      && (Changed(first.state, Some(t)) <==>
            Changed(s, Some(t)) && splitArtist(t.artist) != [] && splitArtist(t.artist)[0] != t.artist)
      && ((exists tag :: CurrentItemUpdated(tag) in second.events) <==> Changed(first.state, Some(t)))
  {
  }

  /** `k` poll steps in which every query fails. */
  function PollFailing(s: PollState, path: string, splitArtist: string -> seq<string>, k: nat): PollState
  {
    if k == 0 then s
    else Poll(PollFailing(s, path, splitArtist, k - 1), path, None, None, None, splitArtist).state
  }

  /**
   * Each failing step counts two errors (Track and Status; Position is not
   * asked for), so stop is raised in the first step whose count exceeds 50.
   */
  lemma {:induction false} FailingPollsCountErrors(s: PollState, path: string, splitArtist: string -> seq<string>, k: nat)
    ensures PollFailing(s, path, splitArtist, k).dbusErrors == s.dbusErrors + 2 * k
    ensures PollFailing(s, path, splitArtist, k).stop <==> s.stop || (k > 0 && s.dbusErrors + 2 * k > MaxDBusErrors)
    ensures PollFailing(s, path, splitArtist, k).tag == s.tag
  {
    if k > 0 {
      FailingPollsCountErrors(s, path, splitArtist, k - 1);
    }
  }

  /** From a freshly opened session, 25 failing steps (50 errors) do not stop polling; 26 (52 errors) do. */
  lemma FailingPollsStopAtThreshold(s: PollState, path: string, splitArtist: string -> seq<string>)
    requires s.dbusErrors == 0 && !s.stop
    ensures !PollFailing(s, path, splitArtist, 25).stop
    ensures PollFailing(s, path, splitArtist, 26).stop
  {
    FailingPollsCountErrors(s, path, splitArtist, 25);
    FailingPollsCountErrors(s, path, splitArtist, 26);
  }

  /** The stored count starts at 0, so the first changed poll with tracks rebuilds the playlist. */
  lemma FirstChangedPollRebuildsPlaylist(s: PollState, path: string, t: TrackInfo, status: Option<string>,
                                          position: Option<nat>, splitArtist: string -> seq<string>)
    requires s.numberOfTracks == 0 && t.numberOfTracks > 0 && Changed(s, Some(t))
    ensures
      var r := Poll(s, path, Some(t), status, position, splitArtist);
      && r.state.numberOfTracks == t.numberOfTracks
      && PlaylistCleared in r.events
      && exists items :: PlaylistAdded(items) in r.events && |items| == t.numberOfTracks
  {
  }

  /**
   * The first poll of a session that reports artist "A", title "T1", track 1
   * of 5 (no album, status query failed): one playlist of five items, one
   * now-playing message, song number 1.
   */
  lemma FirstTrackScenario(path: string, splitArtist: string -> seq<string>)
    ensures
      var s := PollState(EmptyTag, ZeroGuiData, 0, 0, false);
      var t := TrackInfo("A", "T1", "", 1, 5, 0);
      var r := Poll(s, path, Some(t), None, None, splitArtist);
      r.events == [Queried(TrackProperty), Queried(StatusProperty), PlaylistCleared,
                   PlaylistAdded([path, path, path, path, path]), AudioInfoChanged,
                   CurrentItemUpdated(MusicTag(splitArtist("A"), "T1", "", 1)), SongNumberSet(1)]
      && r.state.dbusErrors == 1 && !r.state.stop
  {
    var t := TrackInfo("A", "T1", "", 1, 5, 0);
    assert Playlist(path, 5) == [path, path, path, path, path];
  }
}
