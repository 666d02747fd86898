/**
 * What the reducer promises across commands: reset to the initial state,
 * what decoration copies, where PlayTracks starts, how AddTracks composes,
 * where PlayNext splices its entries and that it keeps every old entry in
 * order, that the play index it stores still names the current entry, that
 * fresh uuids keep the queue's uuids unique, and which fields each command
 * may change.
 */
module PlayerReducerProperties {
  import opened Wrappers
  import opened PlayerReducer

  // ---------------------------------------------------------------------------
  // Sequences

  lemma AppendAssoc<T>(a: seq<T>, b: seq<T>, c: seq<T>)
    ensures (a + b) + c == a + (b + c)
  {
  }

  /** Taking `k` elements of the first `n` takes the first `k`. */
  lemma TakeTake<T>(q: seq<T>, k: nat, n: nat)
    requires k <= n <= |q|
    ensures q[..n][..k] == q[..k]
  {
  }

  /** A suffix of the front, followed by the last element, is the suffix of the whole. */
  lemma SuffixThenLast<T>(q: seq<T>, k: nat)
    requires k < |q|
    ensures q[..|q| - 1][k..] + [q[|q| - 1]] == q[k..]
  {
  }

  /** The first `p` elements followed by element `p` are the first `p + 1`. */
  lemma TakeThenNext<T>(q: seq<T>, p: nat)
    requires p < |q|
    ensures q[..p] + [q[p]] == q[..p + 1]
  {
  }

  // ---------------------------------------------------------------------------
  // Decoration

  /**
   * A record is decorated with its own display fields, a stream URL for its
   * track id and a 300-pixel cover URL for its album (under the fast cover
   * art flag) or its track id.
   */
  lemma DecorateRecord(env: Env, t: Track, uuid: Uuid)
    ensures var e := Decorate(env, TrackItem(t), uuid);
            && e.name == Some(t.title) && e.singer == Some(t.artist) && e.duration == Some(t.duration)
            && e.musicSrc == env.streamUrl(e.trackId)
            && e.cover == env.coverArtUrl(
                 CoverArtRequest(if env.devFastAccessCoverArt then Some(t.albumId) else e.trackId, Some(t.updatedAt)),
                 300)
  {
  }

  // ---------------------------------------------------------------------------
  // Clear

  /** Clearing forgets everything about the previous state, and clearing twice is clearing once. */
  lemma ClearQueueIdempotent(s: State, env: Env, uuids: nat -> Uuid)
    ensures Reduce(s, ClearQueue, env, uuids) == State([], None, true, 1.0, None)
    ensures Reduce(Reduce(s, ClearQueue, env, uuids), ClearQueue, env, uuids) == Reduce(s, ClearQueue, env, uuids)
  {
  }

  // ---------------------------------------------------------------------------
  // PlayTracks

  /** No key occurs twice, as in the key list of an object. */
  predicate DistinctKeys(tracks: Payload)
  {
    forall i, j :: 0 <= i < j < |tracks| ==> tracks[i].0 != tracks[j].0
  }

  /**
   * PlayTracks starts at the last key equal to `id`, and at 0 when no key is
   * `id`.
   */
  lemma {:induction false} StartIndexIsLastKey(tracks: Payload, id: Option<string>)
    ensures (exists j :: 0 <= j < |tracks| && Some(tracks[j].0) == id) ==>
              StartIndex(tracks, id) < |tracks| && Some(tracks[StartIndex(tracks, id)].0) == id &&
              forall j :: StartIndex(tracks, id) < j < |tracks| ==> Some(tracks[j].0) != id
    ensures (forall j :: 0 <= j < |tracks| ==> Some(tracks[j].0) != id) ==> StartIndex(tracks, id) == 0
    decreases |tracks|
  {
    if tracks != [] {
      var n := |tracks| - 1;
      StartIndexIsLastKey(tracks[..n], id);
      assert forall j :: 0 <= j < n ==> tracks[..n][j] == tracks[j];
      if Some(tracks[n].0) != id && exists j :: 0 <= j < |tracks| && Some(tracks[j].0) == id {
        var j :| 0 <= j < |tracks| && Some(tracks[j].0) == id;
        assert Some(tracks[..n][j].0) == id;
      }
    }
  }

  /**
   * PlayTracks replaces the queue by the payload's records, in key order,
   * each decorated with the uuid drawn at its position.
   */
  lemma PlayTracksQueue(s: State, tracks: Payload, id: Option<string>, env: Env, uuids: nat -> Uuid)
    ensures var r := PlayTracksSpec(s, tracks, id, env, uuids);
            forall i :: 0 <= i < |tracks| ==> r.queue[i] == Decorate(env, TrackItem(tracks[i].1), uuids(i))
  {
  }

  /**
   * With the keys of an object, PlayTracks starts at the one position whose
   * key is `id`, and at 0 when no key is `id`.
   */
  lemma PlayTracksStartsAtKey(s: State, tracks: Payload, id: Option<string>, env: Env, uuids: nat -> Uuid, p: nat)
    requires DistinctKeys(tracks)
    requires p < |tracks| && Some(tracks[p].0) == id
    ensures Reduce(s, PlayTracks(tracks, id), env, uuids).playIndex == Some(p)
  {
    StartIndexIsLastKey(tracks, id);
  }

  /** No key is `id`: PlayTracks starts at the first position. */
  lemma PlayTracksMissingKey(s: State, tracks: Payload, id: Option<string>, env: Env, uuids: nat -> Uuid)
    requires forall j :: 0 <= j < |tracks| ==> Some(tracks[j].0) != id
    ensures Reduce(s, PlayTracks(tracks, id), env, uuids).playIndex == Some(0)
  {
    StartIndexIsLastKey(tracks, id);
  }

  // ---------------------------------------------------------------------------
  // AddTracks

  /** The uuid stream that starts `k` draws later. */
  function Shift(uuids: nat -> Uuid, k: nat): (shifted: nat -> Uuid)
  {
    (j: nat) => uuids(k + j)
  }

  /** Decorating two payloads one after the other decorates their concatenation. */
  lemma DecorateAllAppend(env: Env, d1: Payload, d2: Payload, uuids: nat -> Uuid, from: nat)
    ensures DecorateAll(env, d1 + d2, uuids, from) ==
            DecorateAll(env, d1, uuids, from) + DecorateAll(env, d2, uuids, from + |d1|)
  {
    var whole := DecorateAll(env, d1 + d2, uuids, from);
    var parts := DecorateAll(env, d1, uuids, from) + DecorateAll(env, d2, uuids, from + |d1|);
    forall i | |d1| <= i < |whole| ensures whole[i] == parts[i] {
      assert (d1 + d2)[i] == d2[i - |d1|];
      assert from + i == from + |d1| + (i - |d1|);
    }
  }

  /**
   * AddTracks keeps the old queue as it is and appends the payload's
   * records, in key order, each decorated with the uuid drawn at its position.
   */
  lemma AddTracksAppends(s: State, tracks: Payload, env: Env, uuids: nat -> Uuid)
    ensures var r := AddTracksSpec(s, tracks, env, uuids);
            && r.queue[..|s.queue|] == s.queue
            && (forall i :: 0 <= i < |tracks| ==>
                  r.queue[|s.queue| + i] == Decorate(env, TrackItem(tracks[i].1), uuids(i)))
  {
    var added := DecorateAll(env, tracks, uuids, 0);
    var q := s.queue + added;
    assert q[..|s.queue|] == s.queue;
    forall i | 0 <= i < |tracks|
      ensures q[|s.queue| + i] == Decorate(env, TrackItem(tracks[i].1), uuids(i))
    {
      assert q[|s.queue| + i] == added[i];
    }
  }

  /** Drawing from the stream shifted by `k` is drawing from uuid number `k` on. */
  lemma DecorateAllShift(env: Env, tracks: Payload, uuids: nat -> Uuid, k: nat)
    ensures DecorateAll(env, tracks, Shift(uuids, k), 0) == DecorateAll(env, tracks, uuids, k)
  {
    var viaShift := DecorateAll(env, tracks, Shift(uuids, k), 0);
    var direct := DecorateAll(env, tracks, uuids, k);
    forall i | 0 <= i < |tracks| ensures viaShift[i] == direct[i] {
      assert Shift(uuids, k)(0 + i) == uuids(k + i);
    }
  }

  /**
   * Two AddTracks in a row, the second drawing the uuids after the first's,
   * leave the same state as one AddTracks of both payloads.
   */
  lemma AddTracksTwice(s: State, d1: Payload, d2: Payload, env: Env, uuids: nat -> Uuid)
    ensures AddTracksSpec(AddTracksSpec(s, d1, env, uuids), d2, env, Shift(uuids, |d1|)) ==
            AddTracksSpec(s, d1 + d2, env, uuids)
  {
    var first := DecorateAll(env, d1, uuids, 0);
    var second := DecorateAll(env, d2, uuids, |d1|);
    DecorateAllShift(env, d2, uuids, |d1|);
    DecorateAllAppend(env, d1, d2, uuids, 0);
    AppendAssoc(s.queue, first, second);
  }

  /** No two entries of the queue share a uuid. */
  predicate UniqueUuids(queue: seq<Entry>)
  {
    forall i, j :: 0 <= i < j < |queue| ==> queue[i].uuid != queue[j].uuid
  }

  /** No entry of `a` shares a uuid with an entry of `b`. */
  predicate DisjointUuids(a: seq<Entry>, b: seq<Entry>)
  {
    forall i, j :: 0 <= i < |a| && 0 <= j < |b| ==> a[i].uuid != b[j].uuid
  }

  /** The first `n` uuids of the stream differ from each other and from every uuid in the queue. */
  predicate FreshUuids(uuids: nat -> Uuid, n: nat, queue: seq<Entry>)
  {
    && (forall a: nat, b: nat :: a < b < n ==> uuids(a) != uuids(b))
    && (forall a: nat, i :: a < n && 0 <= i < |queue| ==> uuids(a) != queue[i].uuid)
  }

  /** A payload decorated with fresh uuids has unique uuids, none of them already in the queue. */
  lemma FreshBatch(env: Env, tracks: Payload, uuids: nat -> Uuid, queue: seq<Entry>)
    requires FreshUuids(uuids, |tracks|, queue)
    ensures UniqueUuids(DecorateAll(env, tracks, uuids, 0))
    ensures DisjointUuids(queue, DecorateAll(env, tracks, uuids, 0))
  {
    var added := DecorateAll(env, tracks, uuids, 0);
    forall i, j | 0 <= i < j < |added| ensures added[i].uuid != added[j].uuid {
      assert added[i].uuid == uuids(0 + i) && added[j].uuid == uuids(0 + j);
    }
    forall i, j | 0 <= i < |queue| && 0 <= j < |added| ensures queue[i].uuid != added[j].uuid {
      assert added[j].uuid == uuids(0 + j);
    }
  }

  /** Putting a batch of new uuids between two parts of a queue keeps its uuids unique. */
  lemma UniqueSplice(a: seq<Entry>, b: seq<Entry>, c: seq<Entry>)
    requires UniqueUuids(a + c) && UniqueUuids(b) && DisjointUuids(a + c, b)
    ensures UniqueUuids(a + b + c)
  {
    var q := a + b + c;
    var outer := a + c;
    forall i, j | 0 <= i < j < |q| ensures q[i].uuid != q[j].uuid {
      var la, lb := |a|, |a| + |b|;
      if j < la {
        assert q[i] == outer[i] && q[j] == outer[j];
      } else if j < lb {
        if i < la {
          assert q[i] == outer[i] && q[j] == b[j - la];
        } else {
          assert q[i] == b[i - la] && q[j] == b[j - la];
        }
      } else if i < la {
        assert q[i] == outer[i] && q[j] == outer[j - |b|];
      } else if i < lb {
        assert q[i] == b[i - la] && q[j] == outer[j - |b|];
      } else {
        assert q[i] == outer[i - |b|] && q[j] == outer[j - |b|];
      }
    }
  }

  /** Inserting a batch of new uuids at any position keeps the uuids of a queue unique. */
  lemma UniqueInsert(q: seq<Entry>, k: nat, added: seq<Entry>)
    requires k <= |q|
    requires UniqueUuids(q) && UniqueUuids(added) && DisjointUuids(q, added)
    ensures UniqueUuids(q[..k] + added + q[k..])
  {
    assert q[..k] + q[k..] == q;
    UniqueSplice(q[..k], added, q[k..]);
  }

  /** With fresh uuids, PlayTracks builds a queue whose uuids are unique. */
  lemma PlayTracksUniqueUuids(s: State, tracks: Payload, id: Option<string>, env: Env, uuids: nat -> Uuid)
    requires FreshUuids(uuids, |tracks|, [])
    ensures UniqueUuids(PlayTracksSpec(s, tracks, id, env, uuids).queue)
  {
    FreshBatch(env, tracks, uuids, []);
  }

  /** With fresh uuids, AddTracks keeps the uuids of the queue unique. */
  lemma AddTracksKeepsUuidsUnique(s: State, tracks: Payload, env: Env, uuids: nat -> Uuid)
    requires UniqueUuids(s.queue)
    requires FreshUuids(uuids, |tracks|, s.queue)
    ensures UniqueUuids(AddTracksSpec(s, tracks, env, uuids).queue)
  {
    var q := s.queue;
    var added := DecorateAll(env, tracks, uuids, 0);
    FreshBatch(env, tracks, uuids, q);
    UniqueInsert(q, |q|, added);
    assert q[..|q|] + added + q[|q|..] == q + added;
  }

  // ---------------------------------------------------------------------------
  // PlayNext

  /** No entry matches exactly when the count of matches is zero. */
  lemma {:induction false} CountMatchesZero(queue: seq<Entry>, current: Option<CurrentTrack>)
    ensures CountMatches(queue, current) == 0 <==> forall j :: 0 <= j < |queue| ==> !SameUuid(queue[j], current)
    decreases |queue|
  {
    if queue != [] {
      var n := |queue| - 1;
      CountMatchesZero(queue[..n], current);
      assert forall j :: 0 <= j < n ==> queue[..n][j] == queue[j];
    }
  }

  /** Where the i-th old entry stands once PlayNext has spliced in its batches. */
  function OldEntryPosition(queue: seq<Entry>, current: Option<CurrentTrack>, tracks: Payload, i: nat): nat
    requires i <= |queue|
  {
    i + Drawn(queue[..i], current, |tracks|)
  }

  /** Every matching entry draws one whole batch. */
  lemma {:induction false} DrawnIsBatchPerMatch(queue: seq<Entry>, current: Option<CurrentTrack>, batch: nat)
    ensures Drawn(queue, current, batch) == batch * CountMatches(queue, current)
    decreases |queue|
  {
    if queue != [] {
      var n := |queue| - 1;
      DrawnIsBatchPerMatch(queue[..n], current, batch);
      if SameUuid(queue[n], current) {
        assert batch * (CountMatches(queue[..n], current) + 1) == batch * CountMatches(queue[..n], current) + batch;
      }
    }
  }

  /** Without a matching entry nothing is spliced in. */
  lemma {:induction false} InsertAfterNoMatch(queue: seq<Entry>, current: Option<CurrentTrack>, env: Env,
                                              tracks: Payload, uuids: nat -> Uuid)
    requires CountMatches(queue, current) == 0
    ensures InsertAfterMatches(queue, current, env, tracks, uuids) == queue
    decreases |queue|
  {
    if queue != [] {
      var n := |queue| - 1;
      assert !SameUuid(queue[n], current);
      assert InsertAfterMatches(queue, current, env, tracks, uuids) ==
             InsertAfterMatches(queue[..n], current, env, tracks, uuids) + [queue[n]];
      InsertAfterNoMatch(queue[..n], current, env, tracks, uuids);
      assert queue[..n] + [queue[n]] == queue;
    }
  }

  /** Splicing a prefix of the queue gives a prefix of splicing the whole queue. */
  lemma {:induction false} InsertAfterPrefix(queue: seq<Entry>, current: Option<CurrentTrack>, env: Env,
                                             tracks: Payload, uuids: nat -> Uuid, i: nat)
    requires i <= |queue|
    ensures |InsertAfterMatches(queue[..i], current, env, tracks, uuids)| <=
            |InsertAfterMatches(queue, current, env, tracks, uuids)|
    ensures InsertAfterMatches(queue, current, env, tracks, uuids)[..|InsertAfterMatches(queue[..i], current, env, tracks, uuids)|] ==
            InsertAfterMatches(queue[..i], current, env, tracks, uuids)
    decreases |queue|
  {
    if i == |queue| {
      assert queue[..i] == queue;
    } else {
      var n := |queue| - 1;
      assert queue[..n][..i] == queue[..i];
      InsertAfterPrefix(queue[..n], current, env, tracks, uuids, i);
    }
  }

  /** A last entry that does not match is copied and nothing follows it. */
  lemma InsertAfterUnmatchedLast(queue: seq<Entry>, current: Option<CurrentTrack>, env: Env,
                                 tracks: Payload, uuids: nat -> Uuid)
    requires |queue| > 0 && !SameUuid(queue[|queue| - 1], current)
    ensures InsertAfterMatches(queue, current, env, tracks, uuids) ==
            InsertAfterMatches(queue[..|queue| - 1], current, env, tracks, uuids) + [queue[|queue| - 1]]
  {
  }

  /** Splicing a queue whose tail holds no match splices the head and copies the tail. */
  lemma {:induction false} InsertAfterNoMatchTail(queue: seq<Entry>, current: Option<CurrentTrack>, env: Env,
                                                  tracks: Payload, uuids: nat -> Uuid, k: nat)
    requires k <= |queue|
    requires forall j :: k <= j < |queue| ==> !SameUuid(queue[j], current)
    ensures InsertAfterMatches(queue, current, env, tracks, uuids) ==
            InsertAfterMatches(queue[..k], current, env, tracks, uuids) + queue[k..]
    decreases |queue|
  {
    if k == |queue| {
      assert queue[..k] == queue;
    } else {
      var n := |queue| - 1;
      var front := queue[..n];
      var head := InsertAfterMatches(queue[..k], current, env, tracks, uuids);
      TakeTake(queue, k, n);
      assert forall j :: k <= j < n ==> front[j] == queue[j];
      calc {
        InsertAfterMatches(queue, current, env, tracks, uuids);
        { InsertAfterUnmatchedLast(queue, current, env, tracks, uuids); }
        InsertAfterMatches(front, current, env, tracks, uuids) + [queue[n]];
        { InsertAfterNoMatchTail(front, current, env, tracks, uuids, k); }
        (head + front[k..]) + [queue[n]];
        { AppendAssoc(head, front[k..], [queue[n]]); SuffixThenLast(queue, k); }
        head + queue[k..];
      }
    }
  }

  /** Splicing the first `i + 1` entries puts entry `i` right after the splice of the first `i`. */
  lemma InsertAfterLastPosition(queue: seq<Entry>, current: Option<CurrentTrack>, env: Env,
                                tracks: Payload, uuids: nat -> Uuid, i: nat)
    requires i < |queue|
    ensures var spliced := InsertAfterMatches(queue[..i + 1], current, env, tracks, uuids);
            OldEntryPosition(queue, current, tracks, i) < |spliced| &&
            spliced[OldEntryPosition(queue, current, tracks, i)] == queue[i]
  {
    var front := InsertAfterMatches(queue[..i], current, env, tracks, uuids);
    var batch :=
      if SameUuid(queue[i], current) then DecorateAll(env, tracks, uuids, Drawn(queue[..i], current, |tracks|))
      else [];
    TakeTake(queue, i, i + 1);
    assert InsertAfterMatches(queue[..i + 1], current, env, tracks, uuids) == front + [queue[i]] + batch;
    assert (front + [queue[i]] + batch)[|front|] == queue[i];
  }

  /** The i-th old entry is found, unchanged, where OldEntryPosition says. */
  lemma InsertAfterKeepsEntry(queue: seq<Entry>, current: Option<CurrentTrack>, env: Env,
                              tracks: Payload, uuids: nat -> Uuid, i: nat)
    requires i < |queue|
    ensures OldEntryPosition(queue, current, tracks, i) < |InsertAfterMatches(queue, current, env, tracks, uuids)|
    ensures InsertAfterMatches(queue, current, env, tracks, uuids)[OldEntryPosition(queue, current, tracks, i)] == queue[i]
  {
    var pos := OldEntryPosition(queue, current, tracks, i);
    var upTo := InsertAfterMatches(queue[..i + 1], current, env, tracks, uuids);
    var whole := InsertAfterMatches(queue, current, env, tracks, uuids);
    InsertAfterLastPosition(queue, current, env, tracks, uuids, i);
    InsertAfterPrefix(queue, current, env, tracks, uuids, i + 1);
    assert whole[pos] == whole[..|upTo|][pos];
  }

  /** Old entries keep their relative order. */
  lemma OldEntryPositionIncreasing(queue: seq<Entry>, current: Option<CurrentTrack>, env: Env,
                                   tracks: Payload, uuids: nat -> Uuid, i: nat, j: nat)
    requires i < j <= |queue|
    ensures OldEntryPosition(queue, current, tracks, i) < OldEntryPosition(queue, current, tracks, j)
  {
    assert queue[..j][..i + 1] == queue[..i + 1];
    assert queue[..i + 1][..i] == queue[..i];
    InsertAfterPrefix(queue[..j], current, env, tracks, uuids, i + 1);
  }

  /** A last entry that matches is copied and followed by a batch that continues the uuid count. */
  lemma InsertAfterMatchedLast(queue: seq<Entry>, current: Option<CurrentTrack>, env: Env,
                               tracks: Payload, uuids: nat -> Uuid)
    requires |queue| > 0 && SameUuid(queue[|queue| - 1], current)
    ensures var n := |queue| - 1;
            InsertAfterMatches(queue, current, env, tracks, uuids) ==
            InsertAfterMatches(queue[..n], current, env, tracks, uuids) + [queue[n]] +
            DecorateAll(env, tracks, uuids, Drawn(queue[..n], current, |tracks|))
  {
  }

  /** Nothing in the queue is current: the decorated payload goes to the end. */
  lemma PlayNextNoMatch(s: State, tracks: Payload, env: Env, uuids: nat -> Uuid)
    requires forall j :: 0 <= j < |s.queue| ==> !SameUuid(s.queue[j], s.current)
    ensures PlayNextSpec(s, tracks, env, uuids).queue == s.queue + DecorateAll(env, tracks, uuids, 0)
    ensures PlayNextSpec(s, tracks, env, uuids).playIndex == Some(-1)
  {
    CountMatchesZero(s.queue, s.current);
    InsertAfterNoMatch(s.queue, s.current, env, tracks, uuids);
  }

  /** Up to and including the first match, the queue is copied and one batch follows the match. */
  lemma InsertAfterFirstMatch(q: seq<Entry>, current: Option<CurrentTrack>, env: Env,
                              tracks: Payload, uuids: nat -> Uuid, p: nat)
    requires p < |q| && SameUuid(q[p], current)
    requires forall j :: 0 <= j < p ==> !SameUuid(q[j], current)
    ensures InsertAfterMatches(q[..p + 1], current, env, tracks, uuids) == q[..p + 1] + DecorateAll(env, tracks, uuids, 0)
  {
    var upTo := q[..p + 1];
    TakeTake(q, p, p + 1);
    assert forall j :: 0 <= j < p ==> q[..p][j] == q[j];
    CountMatchesZero(q[..p], current);
    calc {
      InsertAfterMatches(upTo, current, env, tracks, uuids);
      { InsertAfterMatchedLast(upTo, current, env, tracks, uuids); }
      InsertAfterMatches(q[..p], current, env, tracks, uuids) + [q[p]] +
        DecorateAll(env, tracks, uuids, Drawn(q[..p], current, |tracks|));
      { InsertAfterNoMatch(q[..p], current, env, tracks, uuids); TakeThenNext(q, p); }
      upTo + DecorateAll(env, tracks, uuids, 0);
    }
  }

  /** With a single match, one batch is spliced in right after it. */
  lemma InsertAfterSingleMatch(q: seq<Entry>, current: Option<CurrentTrack>, env: Env,
                               tracks: Payload, uuids: nat -> Uuid, p: nat)
    requires p < |q| && SameUuid(q[p], current)
    requires forall j :: 0 <= j < |q| && j != p ==> !SameUuid(q[j], current)
    ensures InsertAfterMatches(q, current, env, tracks, uuids) ==
            q[..p + 1] + DecorateAll(env, tracks, uuids, 0) + q[p + 1..]
  {
    InsertAfterNoMatchTail(q, current, env, tracks, uuids, p + 1);
    InsertAfterFirstMatch(q, current, env, tracks, uuids, p);
  }

  /** Exactly one entry is current: the decorated payload goes right after it. */
  lemma PlayNextSingleMatch(s: State, tracks: Payload, env: Env, uuids: nat -> Uuid, p: nat)
    requires p < |s.queue| && SameUuid(s.queue[p], s.current)
    requires forall j :: 0 <= j < |s.queue| && j != p ==> !SameUuid(s.queue[j], s.current)
    ensures PlayNextSpec(s, tracks, env, uuids).queue ==
            s.queue[..p + 1] + DecorateAll(env, tracks, uuids, 0) + s.queue[p + 1..]
    ensures PlayNextSpec(s, tracks, env, uuids).playIndex == Some(p)
  {
    CountMatchesZero(s.queue, s.current);
    InsertAfterSingleMatch(s.queue, s.current, env, tracks, uuids, p);
  }

  /**
   * Whatever the matches, the queue grows by one batch per matching entry
   * (one batch when none matches), and every old entry survives, unchanged
   * and in its old order.
   */
  lemma PlayNextKeepsOldEntries(s: State, tracks: Payload, env: Env, uuids: nat -> Uuid)
    ensures var count := CountMatches(s.queue, s.current);
            |PlayNextSpec(s, tracks, env, uuids).queue| ==
            |s.queue| + |tracks| * (if count == 0 then 1 else count)
    ensures forall i :: 0 <= i < |s.queue| ==>
              OldEntryPosition(s.queue, s.current, tracks, i) < |PlayNextSpec(s, tracks, env, uuids).queue| &&
              PlayNextSpec(s, tracks, env, uuids).queue[OldEntryPosition(s.queue, s.current, tracks, i)] == s.queue[i]
    ensures forall i, j :: 0 <= i < j < |s.queue| ==>
              OldEntryPosition(s.queue, s.current, tracks, i) < OldEntryPosition(s.queue, s.current, tracks, j)
  {
    var q := s.queue;
    var cur := s.current;
    var r := PlayNextSpec(s, tracks, env, uuids).queue;
    var spliced := InsertAfterMatches(q, cur, env, tracks, uuids);
    assert r[..|spliced|] == spliced;
    DrawnIsBatchPerMatch(q, cur, |tracks|);
    forall i | 0 <= i < |q|
      ensures OldEntryPosition(q, cur, tracks, i) < |r| && r[OldEntryPosition(q, cur, tracks, i)] == q[i]
    {
      InsertAfterKeepsEntry(q, cur, env, tracks, uuids, i);
      assert r[OldEntryPosition(q, cur, tracks, i)] == r[..|spliced|][OldEntryPosition(q, cur, tracks, i)];
    }
    forall i, j | 0 <= i < j < |q|
      ensures OldEntryPosition(q, cur, tracks, i) < OldEntryPosition(q, cur, tracks, j)
    {
      OldEntryPositionIncreasing(q, cur, env, tracks, uuids, i, j);
    }
  }

  /**
   * PlayNext stores the first position of the current uuid in the old
   * queue; batches go only after matches, so the new queue holds that same
   * entry there.
   */
  lemma PlayNextPlayIndexStillCurrent(s: State, tracks: Payload, env: Env, uuids: nat -> Uuid)
    requires exists j :: 0 <= j < |s.queue| && SameUuid(s.queue[j], s.current)
    ensures var r := PlayNextSpec(s, tracks, env, uuids);
            r.playIndex.Some? && 0 <= r.playIndex.value < |r.queue| &&
            r.queue[r.playIndex.value] == s.queue[r.playIndex.value] &&
            SameUuid(r.queue[r.playIndex.value], r.current)
  {
    var q := s.queue;
    var cur := s.current;
    var p := FindIndex(q, cur);
    assert 0 <= p;
    CountMatchesZero(q, cur);
    assert forall j :: 0 <= j < p ==> q[..p][j] == q[j];
    CountMatchesZero(q[..p], cur);
    assert OldEntryPosition(q, cur, tracks, p) == p;
    InsertAfterKeepsEntry(q, cur, env, tracks, uuids, p);
    assert PlayNextSpec(s, tracks, env, uuids).queue == InsertAfterMatches(q, cur, env, tracks, uuids);
  }

  /** In a queue with unique uuids, an entry that carries the current uuid is the only one. */
  lemma OnlyMatch(q: seq<Entry>, current: Option<CurrentTrack>, p: nat)
    requires UniqueUuids(q) && p < |q| && SameUuid(q[p], current)
    ensures forall j :: 0 <= j < |q| && j != p ==> !SameUuid(q[j], current)
  {
    forall j | 0 <= j < |q| && j != p ensures !SameUuid(q[j], current) {
      if j < p {
        assert q[j].uuid != q[p].uuid;
      } else {
        assert q[p].uuid != q[j].uuid;
      }
    }
  }

  /**
   * With fresh uuids, PlayNext keeps the uuids of the queue unique: a queue
   * with unique uuids holds at most one current entry, so one batch is
   * spliced in, right after it or at the end.
   */
  lemma PlayNextKeepsUuidsUnique(s: State, tracks: Payload, env: Env, uuids: nat -> Uuid)
    requires UniqueUuids(s.queue)
    requires FreshUuids(uuids, |tracks|, s.queue)
    ensures UniqueUuids(PlayNextSpec(s, tracks, env, uuids).queue)
  {
    var q := s.queue;
    var added := DecorateAll(env, tracks, uuids, 0);
    FreshBatch(env, tracks, uuids, q);
    var p := FindIndex(q, s.current);
    if p == -1 {
      PlayNextNoMatch(s, tracks, env, uuids);
      UniqueInsert(q, |q|, added);
      assert q[..|q|] + added + q[|q|..] == q + added;
    } else {
      OnlyMatch(q, s.current, p);
      PlayNextSingleMatch(s, tracks, env, uuids, p);
      UniqueInsert(q, p + 1, added);
    }
  }

  // ---------------------------------------------------------------------------
  // SetTrack, SyncQueue, SetVolume

  /** SetTrack's entry does not depend on the track it is given. */
  lemma SetTrackIgnoresTrack(s: State, t1: Track, t2: Track, env: Env, uuids: nat -> Uuid)
    ensures Reduce(s, SetTrack(t1), env, uuids) == Reduce(s, SetTrack(t2), env, uuids)
  {
  }

  lemma SyncQueueIdempotent(s: State, entries: seq<Entry>, env: Env, uuids: nat -> Uuid)
    ensures Reduce(Reduce(s, SyncQueue(entries), env, uuids), SyncQueue(entries), env, uuids) ==
            Reduce(s, SyncQueue(entries), env, uuids)
  {
  }

  lemma SetVolumeLastWins(s: State, v1: real, v2: real, env: Env, uuids: nat -> Uuid)
    ensures Reduce(Reduce(s, SetVolume(v1), env, uuids), SetVolume(v2), env, uuids) ==
            Reduce(s, SetVolume(v2), env, uuids)
  {
  }

  // ---------------------------------------------------------------------------
  // Current and the play index

  /** The play index is present, lies in the queue and names the entry of the current uuid. */
  predicate PlayIndexOnCurrent(s: State)
  {
    s.playIndex.Some? && 0 <= s.playIndex.value < |s.queue| && SameUuid(s.queue[s.playIndex.value], s.current)
  }

  /**
   * After Current, the play index is present exactly when the reported track
   * is in the queue, and then names its first entry.
   */
  lemma CurrentLocatesTrack(s: State, info: PlaybackInfo, env: Env, uuids: nat -> Uuid)
    ensures var r := Reduce(s, Current(info), env, uuids);
            r.playIndex.Some? <==> PlayIndexOnCurrent(r)
    ensures var r := Reduce(s, Current(info), env, uuids);
            PlayIndexOnCurrent(r) <==> !info.ended && exists j :: 0 <= j < |s.queue| && s.queue[j].uuid == info.uuid
    ensures info.ended ==> Reduce(s, Current(info), env, uuids).playIndex == None
  {
  }

  // ---------------------------------------------------------------------------
  // Dispatch

  /**
   * Which commands may change which field: the queue changes only under the
   * queue commands, the current track only under ClearQueue, SyncQueue and
   * Current, and the volume only under ClearQueue, SetVolume and Current.
   */
  lemma FieldsChangedOnlyBy(s: State, cmd: Command, env: Env, uuids: nat -> Uuid)
    ensures var r := Reduce(s, cmd, env, uuids);
            r.queue != s.queue ==> !cmd.SetVolume? && !cmd.Current? && !cmd.Unrecognised?
    ensures var r := Reduce(s, cmd, env, uuids);
            r.current != s.current ==> cmd.ClearQueue? || cmd.SyncQueue? || cmd.Current?
    ensures var r := Reduce(s, cmd, env, uuids);
            r.volume != s.volume ==> cmd.ClearQueue? || cmd.SetVolume? || cmd.Current?
    ensures var r := Reduce(s, cmd, env, uuids);
            r.clear != s.clear ==> cmd.ClearQueue? || cmd.PlayTracks? || cmd.SetTrack? || cmd.AddTracks? || cmd.PlayNext?
  {
  }
}
