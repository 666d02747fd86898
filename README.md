# Navidrome web player: the playback-queue reducer

This project models the reducer that keeps the play queue of the Navidrome
web player (`ui/src/reducers/playerReducer.js`). The reducer takes the previous
player state and a command and returns the next state. The state holds:

- `queue`: the decorated queue entries
- `current`: a descriptor of the track being played
- `clear`: a flag for the audio widget
- `volume`
- `playIndex`: the position of the current track in the queue

There are eight commands:

- **ClearQueue** resets the state.
- **PlayTracks** rebuilds the queue from a payload and picks the start position.
- **SetTrack** installs a one-entry queue.
- **AddTracks** appends to the queue.
- **PlayNext** splices the payload in after the current entry.
- **SyncQueue** takes over the player's own queue.
- **SetVolume** sets the volume.
- **Current** records what the player reports and locates it in the queue.

Files:

- `wrappers.dfy`: the `Option` type. It stands for a JavaScript field that may
  be `undefined`, or for the empty descriptor `{}`.
- `player_reducer.dfy` (module `PlayerReducer`):
  - the data model
  - decoration of track records into queue entries (`mapToAudioLists`)
  - the eight handlers
  - the dispatch
  The handlers that the source writes as loops over mutable variables are
  methods with loop invariants, each proved equal to a specification
  function:
  - PlayTracks: a mutable start index inside a `map`
  - AddTracks: `push` in a `forEach`
  - PlayNext: `push` in a `forEach`, with a `foundPos` flag
  The `Reduce` function dispatches on the specification functions. The
  `PlayerReducer` method dispatches to the methods and is proved to agree
  with `Reduce`.
- `player_reducer_properties.dfy` (module `PlayerReducerProperties`): the
  lemmas. They cover:
  - reset to the initial state
  - what decoration copies
  - where PlayTracks starts
  - AddTracks of two payloads in a row
  - the three PlayNext splice cases, and that every old entry survives in order
  - that the stored PlayNext index still names the current entry
  - uuid uniqueness under a fresh uuid supply
  - which command may change which field

Collaborators outside the file are parameters:

- **Uuid generator.** `uuids: nat -> Uuid` is the stream of values the k-th
  `uuidv4()` call of one command returns, counting from 0. PlayNext draws one
  batch per matching entry and continues the count from one batch to the next
  (`Drawn`).
- **URL builders and the cover-art flag.** `subsonic.streamUrl`,
  `subsonic.getCoverArtUrl` and `config.devFastAccessCoverArt` form an `Env`
  value.

Behaviour of the code that a reader might not expect, and that the model
keeps as written:

- **SetTrack** (line 73) calls `mapToAudioLists(0, data)`. The function takes
  one argument, so it decorates the literal `0` and never reads `data`. The
  entry therefore has no track id, no record and no display fields
  (`ZeroLiteral`, `SetTrackIgnoresTrack`).
- **The play index.** A reader might expect a present `playIndex` always to
  name the entry of the current uuid. Only Current (lines 134-138)
  establishes that (`CurrentLocatesTrack`). The other handlers behave as
  follows:
  - PlayTracks (line 56) and SetTrack (line 74) store a position without
    looking at `current`.
  - PlayNext (line 112) stores `-1` when nothing matches.
  - SyncQueue (lines 63-67) keeps the old index.
- **In-place update.** A reader might expect every handler to build a fresh
  state. AddTracks (lines 80-82) pushes onto the previous state's queue array
  instead. The model returns the same queue value. The aliasing, and what it
  does to ClearQueue and to the initial state, is listed under "Left out".
- **PlayNext's index.** The comment at lines 110-111 calls the PlayNext index
  a workaround, computed on the old queue. Batches only ever go after a match,
  so the first match keeps its position. When some entry matches, the stored
  index names the same old entry in the new queue
  (`PlayNextPlayIndexStillCurrent`).
- **PlayTracks with repeated keys.** The start position is the last key equal
  to `id`, because the loop at lines 47-50 overwrites it at every equal key.
  The keys of an object are distinct, so the position is the one key equal to
  `id` (`StartIndexIsLastKey`, `PlayTracksStartsAtKey`).

## Model

| member | source | states |
|---|---|---|
| PlayerReducer.TrackIdOf | ui/src/reducers/playerReducer.js:23-24 | The track id is the media-file id when that is present and non-empty, otherwise the record's id. The literal 0 has none. |
| PlayerReducer.Decorate | ui/src/reducers/playerReducer.js:22-41 | A decorated entry carries the drawn uuid, keeps the decorated item as `song`, and takes the item's track id. |
| PlayerReducerProperties.DecorateRecord | ui/src/reducers/playerReducer.js:22-41 | A decorated record copies its title, artist and duration. Its stream URL is built from its track id. Its cover URL is built at size 300 from the album id (fast cover-art flag) or the track id, together with the record's update time. |
| PlayerReducer.DecorateAll | ui/src/reducers/playerReducer.js:47-52 | One pass over a payload gives exactly one entry per key. |
| PlayerReducer.PushDecorated | ui/src/reducers/playerReducer.js:81-83 | The push loop leaves the old queue followed by the decorated payload, in key order. |
| PlayerReducer.FindIndex | ui/src/reducers/playerReducer.js:106 | `findIndex` on uuids: -1 exactly when no entry carries the current uuid; otherwise an in-range index of a matching entry with no match before it. |
| PlayerReducer.CountMatches | ui/src/reducers/playerReducer.js:91-94 | The number of queue entries that carry the current uuid is at most the queue length. |
| PlayerReducerProperties.CountMatchesZero | ui/src/reducers/playerReducer.js:90-100 | `foundPos` stays false exactly when no entry matches the current uuid. |
| PlayerReducer.ReduceClearQueue | ui/src/reducers/playerReducer.js:15-43 | ClearQueue gives an empty queue, an empty `current`, volume 1, no play index and `clear` raised: the initial state with `clear` set. This holds for the initial state taken as a value; for the shared array, see the aliasing line under Left out. |
| PlayerReducerProperties.ClearQueueIdempotent | ui/src/reducers/playerReducer.js:43 | Clearing gives the same state from any previous state, and clearing twice equals clearing once. This holds with value semantics; for the shared array, see the aliasing line under Left out. |
| PlayerReducer.StartIndex | ui/src/reducers/playerReducer.js:46-50 | The start position is 0 or a position of the payload. |
| PlayerReducerProperties.StartIndexIsLastKey | ui/src/reducers/playerReducer.js:46-50 | When some key equals `id`, the start position holds such a key and no later key equals `id`. When none does, it is 0. |
| PlayerReducer.PlayTracksSpec | ui/src/reducers/playerReducer.js:45-58 | PlayTracks gives one entry per payload key, stores the start position as the play index and raises `clear`. It keeps `current` and `volume`. |
| PlayerReducerProperties.PlayTracksQueue | ui/src/reducers/playerReducer.js:47-52 | Entry i of the new queue is record i of the payload, decorated with uuid number i. |
| PlayerReducerProperties.PlayTracksStartsAtKey | ui/src/reducers/playerReducer.js:46-50 | With distinct keys, the play index is the position of the key equal to `id`. |
| PlayerReducerProperties.PlayTracksMissingKey | ui/src/reducers/playerReducer.js:46 | When no key equals `id`, the play index is 0. |
| PlayerReducer.ReducePlayTracks | ui/src/reducers/playerReducer.js:45-58 | The loop with its mutable start index produces exactly the PlayTracks state. |
| PlayerReducerProperties.PlayTracksUniqueUuids | ui/src/reducers/playerReducer.js:47-52 | With pairwise-distinct uuids drawn, the new queue has unique uuids. |
| PlayerReducer.ReduceSyncQueue | ui/src/reducers/playerReducer.js:61-68 | The queue becomes the payload. `current` is kept when the payload is non-empty and emptied otherwise. `clear`, `volume` and the play index are untouched. |
| PlayerReducerProperties.SyncQueueIdempotent | ui/src/reducers/playerReducer.js:61-68 | Syncing the same queue twice equals syncing it once. |
| PlayerReducer.ReduceSetTrack | ui/src/reducers/playerReducer.js:70-76 | SetTrack gives a one-entry queue, play index 0 and `clear` raised. The entry carries the first uuid drawn, the literal 0 as its song and no track id. `current` and `volume` are kept. |
| PlayerReducerProperties.SetTrackIgnoresTrack | ui/src/reducers/playerReducer.js:73 | The state SetTrack produces does not depend on the track it is given. |
| PlayerReducer.AddTracksSpec | ui/src/reducers/playerReducer.js:79-85 | AddTracks grows the queue by one entry per key and lowers `clear`. It keeps `current`, `volume` and the play index. |
| PlayerReducerProperties.AddTracksAppends | ui/src/reducers/playerReducer.js:79-85 | The old queue is a prefix of the new one, and the entry after it at offset i is record i decorated with uuid number i. |
| PlayerReducer.ReduceAddTracks | ui/src/reducers/playerReducer.js:79-85 | The push loop produces exactly the AddTracks state. |
| PlayerReducerProperties.DecorateAllAppend | ui/src/reducers/playerReducer.js:81-83 | Decorating a concatenated payload equals decorating the first part and then the second, with the uuid count continuing. |
| PlayerReducerProperties.DecorateAllShift | ui/src/reducers/playerReducer.js:27 | Decorating from a uuid stream shifted by k equals decorating from uuid number k on. |
| PlayerReducerProperties.AddTracksTwice | ui/src/reducers/playerReducer.js:79-85 | Two AddTracks in a row, the second drawing the uuids after the first's, equal one AddTracks of both payloads. |
| PlayerReducerProperties.FreshBatch | ui/src/reducers/playerReducer.js:27 | A payload decorated with fresh uuids has unique uuids, disjoint from the queue's. |
| PlayerReducerProperties.AddTracksKeepsUuidsUnique | ui/src/reducers/playerReducer.js:79-85 | With fresh uuids, AddTracks keeps the queue's uuids unique. |
| PlayerReducer.Drawn | ui/src/reducers/playerReducer.js:91-98 | Copying a queue with no matching entry draws no uuid. |
| PlayerReducerProperties.DrawnIsBatchPerMatch | ui/src/reducers/playerReducer.js:93-97 | Copying the queue draws one whole batch of uuids per matching entry. |
| PlayerReducer.InsertAfterMatches | ui/src/reducers/playerReducer.js:88-99 | The copied queue is as long as the old one plus the uuids drawn. |
| PlayerReducerProperties.InsertAfterNoMatch | ui/src/reducers/playerReducer.js:91-99 | Without a matching entry, the copy loop reproduces the queue unchanged. |
| PlayerReducerProperties.InsertAfterPrefix | ui/src/reducers/playerReducer.js:91-99 | Copying a prefix of the queue gives a prefix of copying the whole queue. |
| PlayerReducerProperties.InsertAfterUnmatchedLast | ui/src/reducers/playerReducer.js:92-93 | A last entry that does not match is copied with nothing after it. |
| PlayerReducerProperties.InsertAfterMatchedLast | ui/src/reducers/playerReducer.js:92-97 | A last entry that matches is copied and followed by a batch that continues the uuid count. |
| PlayerReducerProperties.InsertAfterNoMatchTail | ui/src/reducers/playerReducer.js:91-99 | When no entry from position k on matches, copying is copying the first k entries followed by the unchanged rest. |
| PlayerReducerProperties.InsertAfterLastPosition | ui/src/reducers/playerReducer.js:91-99 | Copying entries 0..i puts entry i at its old position plus the uuids drawn before it. |
| PlayerReducerProperties.InsertAfterKeepsEntry | ui/src/reducers/playerReducer.js:91-99 | Every old entry appears unchanged in the copy, at its old position plus the uuids drawn before it. |
| PlayerReducerProperties.OldEntryPositionIncreasing | ui/src/reducers/playerReducer.js:91-99 | Old entries keep their relative order in the copy. |
| PlayerReducerProperties.InsertAfterFirstMatch | ui/src/reducers/playerReducer.js:91-98 | Up to and including the first match, the copy is the old prefix followed by one batch with uuids from number 0. |
| PlayerReducerProperties.InsertAfterSingleMatch | ui/src/reducers/playerReducer.js:91-99 | With a single match at p, the copy is the old queue up to p, then the batch, then the old rest. |
| PlayerReducer.PlayNextSpec | ui/src/reducers/playerReducer.js:87-115 | PlayNext raises `clear`, keeps `current` and `volume`, and stores the first index of the current uuid in the old queue (-1 when none). |
| PlayerReducer.ReducePlayNext | ui/src/reducers/playerReducer.js:87-115 | The copy loop, with its `foundPos` flag and trailing append, produces exactly the PlayNext state. |
| PlayerReducerProperties.PlayNextNoMatch | ui/src/reducers/playerReducer.js:100-106 | When no entry is current, the batch is appended at the end and the stored index is -1. |
| PlayerReducerProperties.PlayNextSingleMatch | ui/src/reducers/playerReducer.js:91-106 | When exactly one entry at p is current, the new queue is old[..p+1] ++ batch ++ old[p+1..] and the stored index is p. |
| PlayerReducerProperties.PlayNextKeepsOldEntries | ui/src/reducers/playerReducer.js:88-104 | The queue grows by the payload size times the number of matches (times 1 when none), and every old entry survives unchanged and in order. |
| PlayerReducerProperties.PlayNextPlayIndexStillCurrent | ui/src/reducers/playerReducer.js:106-112 | When some entry is current, the stored index names that same old entry in the new queue, and it carries the current uuid. |
| PlayerReducerProperties.OnlyMatch | ui/src/reducers/playerReducer.js:93 | In a queue with unique uuids, at most one entry carries the current uuid. |
| PlayerReducerProperties.PlayNextKeepsUuidsUnique | ui/src/reducers/playerReducer.js:87-104 | With fresh uuids, PlayNext keeps the queue's uuids unique. |
| PlayerReducer.ReduceSetVolume | ui/src/reducers/playerReducer.js:117-122 | SetVolume sets the volume and changes nothing else. |
| PlayerReducerProperties.SetVolumeLastWins | ui/src/reducers/playerReducer.js:117-122 | Of two SetVolume commands in a row, the second wins. |
| PlayerReducer.ReduceCurrent | ui/src/reducers/playerReducer.js:124-141 | `current` is empty exactly when the track ended, and otherwise is the descriptor of the report's index, track id, paused flag, uuid and song. The play index is absent exactly when the track ended or no entry has the reported uuid; otherwise it is the first such entry. The volume comes from the report, and the queue and `clear` are kept. |
| PlayerReducerProperties.CurrentLocatesTrack | ui/src/reducers/playerReducer.js:134-138 | After Current, a present play index names an entry with the current uuid. It is present exactly when the track has not ended and the queue holds its uuid. |
| PlayerReducer.Reduce | ui/src/reducers/playerReducer.js:143-165 | An unrecognised command returns the previous state unchanged. |
| PlayerReducer.PlayerReducer | ui/src/reducers/playerReducer.js:143-165 | The reducer, running the loop-based handlers, agrees with `Reduce` on every command. |
| PlayerReducerProperties.FieldsChangedOnlyBy | ui/src/reducers/playerReducer.js:143-165 | Which commands may change which field: queue, `current`, volume and `clear`. |

## Left out

- Random uuids: `uuidv4()` is a parameter stream. The uniqueness lemmas assume that the uuids drawn are pairwise distinct and absent from the queue (`FreshUuids`).
- URL building and configuration: `subsonic.streamUrl`, `subsonic.getCoverArtUrl` and `config.devFastAccessCoverArt` are defined in files that are not part of this model. They are opaque members of `Env`.
- Volume: a JavaScript number, modelled as an opaque `real` that is only copied or set to 1. No arithmetic is done on it.
- Action constants, Redux wiring and the default argument `previousState = initialState`: dispatch is a `match` over a `Command` datatype. Any other action type is `Unrecognised`.
- `Object.keys` ordering: a payload is taken as an already ordered sequence of (key, record) pairs. JavaScript's ordering of integer-like keys is not modelled.
- Aliasing: AddTracks (lines 80-82) pushes onto the previous state's queue array in place, and the model works on values. It does not capture three effects of that push:
  - The previous state observes the new entries too.
  - ClearQueue (line 43) copies the reference to the initial state's `queue` array, not the array. So ClearQueue, then AddTracks of a non-empty payload, then ClearQueue again yields a queue that still holds the added entries. The model yields `[]`.
  - The default `previousState = initialState` (line 143) shares the same array, so a first AddTracks fills the initial state's queue as well.
- PlayerReducer.ReduceClearQueue: the empty queue it promises holds for value semantics only. In the code it is the initial state's shared array, which an earlier AddTracks may have filled (see Aliasing).
- PlayerReducerProperties.ClearQueueIdempotent: holds for value semantics only, for the same reason.
- Loose JavaScript values: entries handed to SyncQueue are taken as well-formed entries with a string uuid, and payload fields of Current as typed values. An entry without a uuid, which `undefined === undefined` would match against an empty `current`, is not modelled.
- PlayerReducer.CountMatches: states only the bound on the count. Its link to the matching entries is the separate lemma CountMatchesZero.
- PlayerReducer.DecorateAll: states only the length. The entry at each position is stated by PlayTracksQueue and AddTracksAppends.
