/**
 * The playback-queue reducer of the web player.
 *
 * The state is the queue of decorated entries, the descriptor of the track
 * being played, a `clear` flag for the rendering widget, the volume and the
 * position of the current track in the queue. Every command produces the next
 * state from the previous one. The random uuid generator, the URL builders and
 * the cover-art configuration flag are supplied from outside: the k-th uuid a
 * command asks for (counting from 0) is `uuids(k)`.
 */
module PlayerReducer {
  import opened Wrappers

  type Uuid = string
  type Url = string

  /** A track record as the data providers deliver it (a song or a playlist track). */
  datatype Track = Track(
    id: string,
    mediaFileId: Option<string>,  // set only on tracks that come from a playlist
    title: string,
    artist: string,
    duration: real,
    albumId: string,
    updatedAt: string)

  /**
   * The value handed to decoration: a track record, or the number 0, whose
   * properties all read as undefined.
   */
  datatype Item = TrackItem(track: Track) | ZeroLiteral

  /** A decorated queue entry. Fields read from a non-record are `None`. */
  datatype Entry = Entry(
    trackId: Option<string>,
    uuid: Uuid,
    song: Item,
    name: Option<string>,
    singer: Option<string>,
    duration: Option<real>,
    musicSrc: Url,
    cover: Url)

  /** The first argument of the cover-art URL builder. */
  datatype CoverArtRequest = CoverArtRequest(coverArtId: Option<string>, updatedAt: Option<string>)

  /** The collaborators decoration consults: the two URL builders and the configuration flag. */
  datatype Env = Env(
    streamUrl: Option<string> -> Url,
    coverArtUrl: (CoverArtRequest, nat) -> Url,
    devFastAccessCoverArt: bool)

  /** The thumbnail size every cover URL is built with. */
  const CoverArtSize: nat := 300

  /** What the player reports about the track it is playing. */
  datatype CurrentTrack = CurrentTrack(idx: int, trackId: Option<string>, paused: bool, uuid: Uuid, song: Item)

  /** `current == None` is the empty descriptor `{}`; `playIndex == None` is an absent index. */
  datatype State = State(
    queue: seq<Entry>,
    current: Option<CurrentTrack>,
    clear: bool,
    volume: real,
    playIndex: Option<int>)

  const InitialState: State := State([], None, false, 1.0, None)

  /** The keys of a payload object with their track records, in iteration order. */
  type Payload = seq<(string, Track)>

  /** The payload of the Current command, as reported by the audio player. */
  datatype PlaybackInfo = PlaybackInfo(
    ended: bool,
    idx: int,
    trackId: Option<string>,
    paused: bool,
    uuid: Uuid,
    song: Item,
    volume: real)

  datatype Command =
    | ClearQueue
    | PlayTracks(tracks: Payload, id: Option<string>)
    | SetTrack(track: Track)
    | AddTracks(tracks: Payload)
    | PlayNext(tracks: Payload)
    | SyncQueue(entries: seq<Entry>)
    | SetVolume(volume: real)
    | Current(info: PlaybackInfo)
    | Unrecognised(kind: string)

  // ---------------------------------------------------------------------------
  // Decoration

  /** The track id of an item: its media-file id, falling back to its id when that is missing or empty. */
  function TrackIdOf(item: Item): (r: Option<string>)
    ensures item.ZeroLiteral? ==> r == None
    ensures item.TrackItem? && item.track.mediaFileId.Some? && item.track.mediaFileId.value != ""
            ==> r == item.track.mediaFileId
    ensures item.TrackItem? && (item.track.mediaFileId == None || item.track.mediaFileId == Some(""))
            ==> r == Some(item.track.id)
  {
    match item
    case ZeroLiteral => None
    case TrackItem(t) =>
      if t.mediaFileId.Some? && t.mediaFileId.value != "" then t.mediaFileId else Some(t.id)
  }

  /**
   * Builds a queue entry from an item and a freshly generated uuid: the
   * record is kept as `song`, its title, artist and duration are copied, the
   * stream URL is built from the track id and the cover URL from the album id
   * or the track id, as the configuration flag says.
   */
  function Decorate(env: Env, item: Item, uuid: Uuid): (e: Entry)
    ensures e.uuid == uuid && e.song == item && e.trackId == TrackIdOf(item)
  {
    var trackId := TrackIdOf(item);
    match item
    case ZeroLiteral =>
      Entry(trackId, uuid, item, None, None, None,
            env.streamUrl(trackId),
            env.coverArtUrl(CoverArtRequest(None, None), CoverArtSize))
    case TrackItem(t) =>
      var coverArtId := if env.devFastAccessCoverArt then Some(t.albumId) else trackId;
      Entry(trackId, uuid, item, Some(t.title), Some(t.artist), Some(t.duration),
            env.streamUrl(trackId),
            env.coverArtUrl(CoverArtRequest(coverArtId, Some(t.updatedAt)), CoverArtSize))
  }

  /**
   * The entries one pass over a payload pushes, in key order, the i-th of
   * them drawing uuid number `from + i`.
   */
  function DecorateAll(env: Env, tracks: Payload, uuids: nat -> Uuid, from: nat): (r: seq<Entry>)
    ensures |r| == |tracks|
  {
    seq(|tracks|, i requires 0 <= i < |tracks| => Decorate(env, TrackItem(tracks[i].1), uuids(from + i)))
  }

  /** Pushes the decorated payload entries, in key order, onto the end of a queue. */
  method PushDecorated(queue: seq<Entry>, env: Env, tracks: Payload, uuids: nat -> Uuid, from: nat)
    returns (r: seq<Entry>)
    ensures r == queue + DecorateAll(env, tracks, uuids, from)
  {
    r := queue;
    var k := 0;
    while k < |tracks|
      invariant 0 <= k <= |tracks|
      invariant r == queue + DecorateAll(env, tracks[..k], uuids, from)
    {
      assert tracks[..k + 1][..k] == tracks[..k];
      r := r + [Decorate(env, TrackItem(tracks[k].1), uuids(from + k))];
      k := k + 1;
    }
    assert tracks[..k] == tracks;
  }

  // ---------------------------------------------------------------------------
  // Searching the queue

  /** An entry carries the current uuid; the empty descriptor has no uuid and matches nothing. */
  predicate SameUuid(e: Entry, current: Option<CurrentTrack>)
  {
    current.Some? && e.uuid == current.value.uuid
  }

  /** The first position of the queue that carries the current uuid, or -1 when there is none. */
  function FindIndex(queue: seq<Entry>, current: Option<CurrentTrack>): (r: int)
    ensures -1 <= r < |queue|
    ensures r == -1 <==> forall j :: 0 <= j < |queue| ==> !SameUuid(queue[j], current)
    ensures 0 <= r ==> SameUuid(queue[r], current)
    ensures 0 <= r ==> forall j :: 0 <= j < r ==> !SameUuid(queue[j], current)
  {
    if queue == [] then -1
    else if SameUuid(queue[0], current) then 0
    else
      var k := FindIndex(queue[1..], current);
      if k == -1 then -1 else k + 1
  }

  /** How many entries of the queue carry the current uuid. */
  function CountMatches(queue: seq<Entry>, current: Option<CurrentTrack>): (n: nat)
    ensures n <= |queue|
    decreases |queue|
  {
    if queue == [] then 0
    else
      var m := |queue| - 1;
      CountMatches(queue[..m], current) + (if SameUuid(queue[m], current) then 1 else 0)
  }

  // ---------------------------------------------------------------------------
  // The command handlers

  /** Reset to the initial state, with `clear` raised. */
  function ReduceClearQueue(): (r: State)
    ensures r.queue == [] && r.current == None && r.volume == 1.0 && r.playIndex == None
    ensures r.clear
    ensures r == InitialState.(clear := true)
  {
    InitialState.(clear := true)
  }

  /**
   * The position PlayTracks starts at: the last key equal to `id` (the loop
   * overwrites it at every equal key), or 0 when no key equals `id`.
   */
  function StartIndex(tracks: Payload, id: Option<string>): (r: nat)
    ensures r == 0 || r < |tracks|
    decreases |tracks|
  {
    if tracks == [] then 0
    else
      var n := |tracks| - 1;
      if Some(tracks[n].0) == id then n else StartIndex(tracks[..n], id)
  }

  /** The state PlayTracks produces. */
  function PlayTracksSpec(s: State, tracks: Payload, id: Option<string>, env: Env, uuids: nat -> Uuid): (r: State)
    ensures |r.queue| == |tracks|
    ensures r.playIndex == Some(StartIndex(tracks, id))
    ensures r.clear && r.current == s.current && r.volume == s.volume
  {
    s.(queue := DecorateAll(env, tracks, uuids, 0), playIndex := Some(StartIndex(tracks, id)), clear := true)
  }

  /** PlayTracks: rebuild the queue from the payload, remembering where `id` sits. */
  method ReducePlayTracks(s: State, tracks: Payload, id: Option<string>, env: Env, uuids: nat -> Uuid)
    returns (r: State)
    ensures r == PlayTracksSpec(s, tracks, id, env, uuids)
  {
    var playIndex: nat := 0;
    var queue: seq<Entry> := [];
    var idx := 0;
    while idx < |tracks|
      invariant 0 <= idx <= |tracks|
      invariant queue == DecorateAll(env, tracks[..idx], uuids, 0)
      invariant playIndex == StartIndex(tracks[..idx], id)
    {
      assert tracks[..idx + 1][..idx] == tracks[..idx];
      if Some(tracks[idx].0) == id {
        playIndex := idx;
      }
      queue := queue + [Decorate(env, TrackItem(tracks[idx].1), uuids(idx))];
      idx := idx + 1;
    }
    assert tracks[..idx] == tracks;
    r := s.(queue := queue, playIndex := Some(playIndex), clear := true);
  }

  /** SyncQueue: take the player's queue; an empty one also forgets the current track. */
  function ReduceSyncQueue(s: State, entries: seq<Entry>): (r: State)
    ensures r.queue == entries
    ensures |entries| > 0 ==> r.current == s.current
    ensures entries == [] ==> r.current == None
    ensures r.clear == s.clear && r.volume == s.volume && r.playIndex == s.playIndex
  {
    var current := if |entries| > 0 then s.current else None;
    s.(current := current, queue := entries)
  }

  /**
   * SetTrack: a one-entry queue. The entry is decorated from the literal 0,
   * not from the track, so it carries no track id and no record.
   */
  function ReduceSetTrack(s: State, track: Track, env: Env, uuids: nat -> Uuid): (r: State)
    ensures |r.queue| == 1 && r.playIndex == Some(0) && r.clear
    ensures r.queue[0].uuid == uuids(0)
    ensures r.queue[0].song == ZeroLiteral && r.queue[0].trackId == None
    ensures r.current == s.current && r.volume == s.volume
  {
    s.(queue := [Decorate(env, ZeroLiteral, uuids(0))], playIndex := Some(0), clear := true)
  }

  /** The state AddTracks produces. */
  function AddTracksSpec(s: State, tracks: Payload, env: Env, uuids: nat -> Uuid): (r: State)
    ensures |r.queue| == |s.queue| + |tracks|
    ensures !r.clear
    ensures r.current == s.current && r.volume == s.volume && r.playIndex == s.playIndex
  {
    s.(queue := s.queue + DecorateAll(env, tracks, uuids, 0), clear := false)
  }

  /** AddTracks: push the decorated payload onto the queue. */
  method ReduceAddTracks(s: State, tracks: Payload, env: Env, uuids: nat -> Uuid) returns (r: State)
    ensures r == AddTracksSpec(s, tracks, env, uuids)
  {
    var queue := s.queue;
    queue := PushDecorated(queue, env, tracks, uuids, 0);
    r := s.(queue := queue, clear := false);
  }

  /**
   * How many uuids PlayNext draws while copying the queue: one batch of
   * `batch` for every entry that carries the current uuid.
   */
  function Drawn(queue: seq<Entry>, current: Option<CurrentTrack>, batch: nat): (d: nat)
    ensures CountMatches(queue, current) == 0 ==> d == 0
    decreases |queue|
  {
    if queue == [] then 0
    else
      var m := |queue| - 1;
      Drawn(queue[..m], current, batch) + (if SameUuid(queue[m], current) then batch else 0)
  }

  /**
   * The queue with the decorated payload pushed after every entry that
   * carries the current uuid. Each batch draws fresh uuids, continuing the
   * count where the previous batch stopped.
   */
  function InsertAfterMatches(queue: seq<Entry>, current: Option<CurrentTrack>, env: Env, tracks: Payload,
                              uuids: nat -> Uuid): (r: seq<Entry>)
    ensures |r| == |queue| + Drawn(queue, current, |tracks|)
    decreases |queue|
  {
    if queue == [] then []
    else
      var n := |queue| - 1;
      var batch :=
        if SameUuid(queue[n], current) then DecorateAll(env, tracks, uuids, Drawn(queue[..n], current, |tracks|))
        else [];
      InsertAfterMatches(queue[..n], current, env, tracks, uuids) + [queue[n]] + batch
  }

  /** The state PlayNext produces. */
  function PlayNextSpec(s: State, tracks: Payload, env: Env, uuids: nat -> Uuid): (r: State)
    ensures r.clear && r.current == s.current && r.volume == s.volume
    ensures r.playIndex == Some(FindIndex(s.queue, s.current))
  {
    var spliced := InsertAfterMatches(s.queue, s.current, env, tracks, uuids);
    var queue := if CountMatches(s.queue, s.current) > 0 then spliced else spliced + DecorateAll(env, tracks, uuids, 0);
    s.(queue := queue, playIndex := Some(FindIndex(s.queue, s.current)), clear := true)
  }

  /** PlayNext: copy the queue, pushing the payload after the current entry, or at the end. */
  method ReducePlayNext(s: State, tracks: Payload, env: Env, uuids: nat -> Uuid) returns (r: State)
    ensures r == PlayNextSpec(s, tracks, env, uuids)
  {
    var newQueue: seq<Entry> := [];
    var current := s.current;
    var foundPos := false;
    var drawn: nat := 0;  // uuids generated so far
    var i := 0;
    while i < |s.queue|
      invariant 0 <= i <= |s.queue|
      invariant newQueue == InsertAfterMatches(s.queue[..i], current, env, tracks, uuids)
      invariant drawn == Drawn(s.queue[..i], current, |tracks|)
      invariant foundPos <==> CountMatches(s.queue[..i], current) > 0
    {
      var item := s.queue[i];
      assert s.queue[..i + 1][..i] == s.queue[..i];
      newQueue := newQueue + [item];
      if SameUuid(item, current) {
        foundPos := true;
        newQueue := PushDecorated(newQueue, env, tracks, uuids, drawn);
        drawn := drawn + |tracks|;
      }
      i := i + 1;
    }
    assert s.queue[..i] == s.queue;
    if !foundPos {
      newQueue := PushDecorated(newQueue, env, tracks, uuids, drawn);
    }
    var playIndex := FindIndex(s.queue, current);
    r := s.(queue := newQueue, playIndex := Some(playIndex), clear := true);
  }

  /** SetVolume: only the volume changes. */
  function ReduceSetVolume(s: State, volume: real): (r: State)
    ensures r.volume == volume
    ensures r.queue == s.queue && r.current == s.current && r.clear == s.clear && r.playIndex == s.playIndex
  {
    s.(volume := volume)
  }

  /**
   * Current: store what the player reports (nothing once the track ended),
   * locate it in the queue and take over the player's volume.
   */
  function ReduceCurrent(s: State, info: PlaybackInfo): (r: State)
    ensures r.queue == s.queue && r.clear == s.clear && r.volume == info.volume
    ensures info.ended <==> r.current == None
    ensures !info.ended ==> r.current == Some(CurrentTrack(info.idx, info.trackId, info.paused, info.uuid, info.song))
    ensures r.playIndex.None? <==> info.ended || forall j :: 0 <= j < |s.queue| ==> s.queue[j].uuid != info.uuid
    ensures r.playIndex.Some? ==>
              0 <= r.playIndex.value < |s.queue| && s.queue[r.playIndex.value].uuid == info.uuid &&
              forall j :: 0 <= j < r.playIndex.value ==> s.queue[j].uuid != info.uuid
  {
    var current :=
      if info.ended then None
      else Some(CurrentTrack(info.idx, info.trackId, info.paused, info.uuid, info.song));
    var playIndex := FindIndex(s.queue, current);
    s.(current := current, playIndex := if playIndex > -1 then Some(playIndex) else None, volume := info.volume)
  }

  // ---------------------------------------------------------------------------
  // Dispatch

  /** The next state, for every command. */
  function Reduce(prev: State, cmd: Command, env: Env, uuids: nat -> Uuid): (next: State)
    ensures cmd.Unrecognised? ==> next == prev
  {
    match cmd
    case ClearQueue => ReduceClearQueue()
    case PlayTracks(tracks, id) => PlayTracksSpec(prev, tracks, id, env, uuids)
    case SetTrack(track) => ReduceSetTrack(prev, track, env, uuids)
    case AddTracks(tracks) => AddTracksSpec(prev, tracks, env, uuids)
    case PlayNext(tracks) => PlayNextSpec(prev, tracks, env, uuids)
    case SyncQueue(entries) => ReduceSyncQueue(prev, entries)
    case SetVolume(volume) => ReduceSetVolume(prev, volume)
    case Current(info) => ReduceCurrent(prev, info)
    case Unrecognised(_) => prev
  }

  /** The reducer itself, running the loop-based handlers. */
  method PlayerReducer(prev: State, cmd: Command, env: Env, uuids: nat -> Uuid) returns (next: State)
    ensures next == Reduce(prev, cmd, env, uuids)
  {
    match cmd
    case ClearQueue => next := ReduceClearQueue();
    case PlayTracks(tracks, id) => next := ReducePlayTracks(prev, tracks, id, env, uuids);
    case SetTrack(track) => next := ReduceSetTrack(prev, track, env, uuids);
    case AddTracks(tracks) => next := ReduceAddTracks(prev, tracks, env, uuids);
    case PlayNext(tracks) => next := ReducePlayNext(prev, tracks, env, uuids);
    case SyncQueue(entries) => next := ReduceSyncQueue(prev, entries);
    case SetVolume(volume) => next := ReduceSetVolume(prev, volume);
    case Current(info) => next := ReduceCurrent(prev, info);
    case Unrecognised(_) => next := prev;
  }
}
