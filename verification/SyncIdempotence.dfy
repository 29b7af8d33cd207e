/**
 Repeating a pass. With distinct identities and no failures, a second identical pass at the same instant changes
 nothing and counts every channel as unchanged, exactly when the first pass does not adopt a legacy row that one of
 its own earlier snapshots observed under the legacy source.
 */
module SyncIdempotence {
  import opened Wrappers
  import opened CategoryHistory
  import opened ChannelSync
  import opened SyncPass
  import opened ChannelLife
  import opened ActiveSet
  import opened TrackedRows
  import opened ObservedRows

  predicate NoFailures(p: Pass) {
    p.failedItems == {} && p.failedSources == {}
  }

  /** No two snapshots of the pass name the same channel. */
  ghost predicate DistinctIdentities(p: Pass) {
    forall i, j :: 0 <= i < j < |p.snapshots| ==>
                     SourceAt(p, i) != SourceAt(p, j) || p.snapshots[i].externalId != p.snapshots[j].externalId
  }

  /** Snapshot `i` observes a legacy row that the later snapshot `j` of another, still unknown, channel will adopt. */
  predicate Adopts(p: Pass, t: Tables, i: nat, j: nat)
    requires i < j < |p.snapshots|
  {
    && SourceAt(p, i) == LEGACY && SourceAt(p, j) != LEGACY
    && p.snapshots[i].externalId == p.snapshots[j].externalId
    && FindChannel(t.channels, SourceAt(p, j), p.snapshots[j].externalId).None?
  }

  ghost predicate AdoptionConflict(p: Pass, t: Tables) {
    exists i, j :: 0 <= i < j < |p.snapshots| && Adopts(p, t, i, j)
  }

  /** The counters of a pass in which nothing happened. */
  function NothingNew(n: nat): Tally {
    Tally(n, 0, 0, 0, 0, n, 0, 0)
  }

  /** The second run of the pass ends in the tables it started with and reports every channel as unchanged. */
  ghost predicate Idempotent(p: Pass, t: Tables)
    requires t.Shaped()
  {
    var once := FullPass(p, t).tables;
    once.Shaped() && FullPass(p, once) == PassState(once, NothingNew(|p.snapshots|))
  }

  // ----- What the first pass leaves at the rows it observed -----

  /** A later snapshot that writes the row of an earlier one adopts it. */
  lemma {:induction false} CollisionIsAdoption(p: Pass, t: Tables, log: seq<seq<Observation>>, i: nat, j: nat)
    requires Sound(t, log, p.at) && DistinctIdentities(p)
    requires i < j < |p.snapshots| && StillHeld(p, t, i, j)
    requires WrittenAt(p, t, j) == WrittenAt(p, t, i)
    ensures Adopts(p, t, i, j)
  {
    ItemsSound(p, t, log, j);
    var rows, source, ext := AfterItems(p, t, j).tables.channels, SourceAt(p, j), p.snapshots[j].externalId;
    assert FindChannel(rows, source, ext).None?;
    assert SourceAt(p, i) == LEGACY && p.snapshots[i].externalId == ext;
    assert source != LEGACY;
    forall k | 0 <= k < |t.channels|
      ensures !HasIdentity(t.channels[k], source, ext)
    {
      assert !HasIdentity(rows[k], source, ext);
    }
  }

  /** Just before snapshot `j`, the row that snapshot `i` wrote still has the identity of snapshot `i`. */
  predicate StillHeld(p: Pass, t: Tables, i: nat, j: nat)
    requires t.Shaped() && i < j < |p.snapshots|
  {
    var rows, id := AfterItems(p, t, j).tables.channels, WrittenAt(p, t, i);
    id < |rows| && HasIdentity(rows[id], SourceAt(p, i), p.snapshots[i].externalId)
  }

  /** No snapshot writes a row that an earlier one holds. */
  ghost predicate Apart(p: Pass, t: Tables)
    requires t.Shaped()
  {
    forall i, j :: 0 <= i < j < |p.snapshots| && StillHeld(p, t, i, j) ==> WrittenAt(p, t, j) != WrittenAt(p, t, i)
  }

  lemma {:induction false} NoConflictKeepsApart(p: Pass, t: Tables, log: seq<seq<Observation>>)
    requires Sound(t, log, p.at) && DistinctIdentities(p) && !AdoptionConflict(p, t)
    ensures Apart(p, t)
  {
    forall i, j | 0 <= i < j < |p.snapshots| && StillHeld(p, t, i, j)
      ensures WrittenAt(p, t, j) != WrittenAt(p, t, i)
    {
      if WrittenAt(p, t, j) == WrittenAt(p, t, i) {
        CollisionIsAdoption(p, t, log, i, j);
      }
    }
  }

  /** The row and the category rows that snapshot `i` writes stay as they are for the rest of the item loop. */
  lemma {:induction false} WrittenRowStays(p: Pass, t: Tables, i: nat, n: nat)
    requires t.Shaped() && NoFailures(p) && Apart(p, t)
    requires i < n <= |p.snapshots|
    ensures
      var id, after, now := WrittenAt(p, t, i), AfterItems(p, t, i + 1).tables, AfterItems(p, t, n).tables;
      && id < |after.channels| && id < |now.channels|
      && now.channels[id] == after.channels[id] && now.history[id] == after.history[id]
    decreases n
  {
    hide NoFailures, ItemStep, ObservedRow, TrackedId, ServerOf, UpsertOutcome, SourceOf;
    StepWrites(p, AfterItems(p, t, i), i);
    if i + 1 < n {
      WrittenRowStays(p, t, i, n - 1);
      assert StillHeld(p, t, i, n - 1);
      StepElsewhere(p, AfterItems(p, t, n - 1), n - 1, WrittenAt(p, t, i));
    }
  }

  lemma {:induction false} StepElsewhere(p: Pass, st: PassState, i: nat, id: nat)
    requires st.tables.Shaped() && i < |p.snapshots|
    requires id < |st.tables.channels| && id != OutcomeAt(p, st.tables, i).channelId
    ensures
      var t, t' := st.tables, ItemStep(p, st, i).tables;
      id < |t'.channels| && t'.channels[id] == t.channels[id] && t'.history[id] == t.history[id]
  {
  }

  /** What one upsert puts at its own id. */
  lemma {:induction false} StepWrites(p: Pass, st: PassState, i: nat)
    requires st.tables.Shaped() && i < |p.snapshots| && NoFailures(p)
    ensures
      var s, t := p.snapshots[i], st.tables;
      var id, t' := OutcomeAt(p, t, i).channelId, ItemStep(p, st, i).tables;
      && id < |t'.channels|
      && HasIdentity(t'.channels[id], SourceAt(p, i), s.externalId)
      && t'.channels[id] == ObservedRow(s, SourceAt(p, i), t'.channels[id].firstSeenAt, ServerOf(p, s),
                                        TrackedId(t.events, SourceAt(p, i), s.eventExternalId),
                                        TrackedId(t.streams, SourceAt(p, i), s.streamExternalId), p.at)
      && t'.history[id] != []
  {
  }

  /** The tables hold exactly what another upsert of snapshot `i` at this instant would write at row `id`. */
  ghost predicate UpToDate(p: Pass, t: Tables, i: nat, id: nat)
    requires i < |p.snapshots| && t.Shaped()
  {
    var s, source := p.snapshots[i], SourceAt(p, i);
    && id < |t.channels|
    && t.channels[id] == ObservedRow(s, source, t.channels[id].firstSeenAt, ServerOf(p, s),
                                     TrackedId(t.events, source, s.eventExternalId),
                                     TrackedId(t.streams, source, s.streamExternalId), p.at)
    && (s.eventExternalId.Some? ==> FindTracked(t.events, source, s.eventExternalId.value).Some?)
    && (s.streamExternalId.Some? ==> FindTracked(t.streams, source, s.streamExternalId.value).Some?)
    && Tiles(t.history[id]) && t.history[id] != []
    && t.history[id][|t.history[id]| - 1].category == s.category
  }

  lemma {:induction false} ItemIsUpToDate(p: Pass, t: Tables, log: seq<seq<Observation>>, i: nat)
    requires Sound(t, log, p.at) && NoFailures(p) && DistinctIdentities(p) && !AdoptionConflict(p, t)
    requires i < |p.snapshots|
    ensures UpToDate(p, ItemsDone(p, t).tables, i, WrittenAt(p, t, i))
  {
    var n, id := |p.snapshots|, WrittenAt(p, t, i);
    NoConflictKeepsApart(p, t, log);
    WrittenRowStays(p, t, i, n);
    StepWrites(p, AfterItems(p, t, i), i);
    TrackingSettles(p, t, i);
    ItemsSound(p, t, log, n);
    var done, log' := ItemsDone(p, t).tables, LogAfter(p, t, log, n);
    assert Recorded(done.history[id], log'[id], done.channels[id], p.at);
    HistoryIndexesLog(log'[id]);
    hide ItemStep, LogAfter, Sound, HistoryOf, DistinctIdentities, AdoptionConflict, TrackedId, Nondecreasing;
  }

  /** At the end of the item loop, event and stream lookups find the rows that snapshot `i` wrote. */
  lemma {:induction false} TrackingSettles(p: Pass, t: Tables, i: nat)
    requires t.Shaped() && NoFailures(p) && i < |p.snapshots|
    ensures
      var s, source := p.snapshots[i], SourceAt(p, i);
      var before, done := AfterItems(p, t, i).tables, ItemsDone(p, t).tables;
      && TrackedId(done.events, source, s.eventExternalId) == TrackedId(before.events, source, s.eventExternalId)
      && TrackedId(done.streams, source, s.streamExternalId) == TrackedId(before.streams, source, s.streamExternalId)
      && (s.eventExternalId.Some? ==> FindTracked(done.events, source, s.eventExternalId.value).Some?)
      && (s.streamExternalId.Some? ==> FindTracked(done.streams, source, s.streamExternalId.value).Some?)
  {
    hide AfterItems, ItemStep, EventOf, StreamOf, TrackAll, FindTracked;
    var n, s := |p.snapshots|, p.snapshots[i];
    ItemsTrack(p, t, i);
    ItemsTrack(p, t, n);
    if s.eventExternalId.Some? {
      WrittenIsFound(t.events, EventWrites(p), p.at, i, n);
    }
    if s.streamExternalId.Some? {
      WrittenIsFound(t.streams, StreamWrites(p), p.at, i, n);
    }
  }

  // ----- The second pass -----

  /** Upserting again what is already there changes nothing. */
  lemma {:induction false} UpsertAgain(p: Pass, t: Tables, now: Tables, i: nat, id: nat)
    requires t.Shaped() && i < |p.snapshots| && UpToDate(p, t, i, id) && UniqueIdentities(t.channels)
    requires now.channels == t.channels && now.history == t.history
    requires Grows(t.events, now.events) && Grows(t.streams, now.streams)
    ensures UpsertAt(p, now, i).channels == t.channels
    ensures UpsertAt(p, now, i).history == t.history
    ensures OutcomeAt(p, now, i).action == Unchanged
  {
    var s, source := p.snapshots[i], SourceAt(p, i);
    var rows := t.channels;
    assert HasIdentity(rows[id], source, s.externalId);
    forall k | 0 <= k < id
      ensures !HasIdentity(rows[k], source, s.externalId)
    {
      assert !HasIdentity(rows[id], rows[k].sourceId, rows[k].externalId);
    }
    assert FindChannel(rows, source, s.externalId) == Some(id);
    if s.eventExternalId.Some? {
      FindSurvives(t.events, now.events, source, s.eventExternalId.value);
    }
    if s.streamExternalId.Some? {
      FindSurvives(t.streams, now.streams, source, s.streamExternalId.value);
    }
    LatestIsLast(t.history[id]);
    var o := Observation(source, s.category, p.at);
    assert Record(t.history[id], o) == t.history[id];
    assert WrittenRow(now, s, ServerOf(p, s), p.adapter, p.at) == rows[id];
  }

  lemma {:induction false} ItemsGrow(p: Pass, t: Tables, n: nat)
    requires t.Shaped() && n <= |p.snapshots| && NoFailures(p)
    ensures Grows(t.events, AfterItems(p, t, n).tables.events)
    ensures Grows(t.streams, AfterItems(p, t, n).tables.streams)
  {
    ItemsTrack(p, t, n);
    TrackAllGrows(t.events, EventWrites(p), p.at, 0, n);
    TrackAllGrows(t.streams, StreamWrites(p), p.at, 0, n);
  }

  lemma {:induction false} SecondStep(p: Pass, t: Tables, st: PassState, i: nat, id: nat)
    requires t.Shaped() && i < |p.snapshots| && NoFailures(p) && UniqueIdentities(t.channels) && UpToDate(p, t, i, id)
    requires st.tables.channels == t.channels && st.tables.history == t.history && st.tally == NothingNew(i)
    requires Grows(t.events, st.tables.events) && Grows(t.streams, st.tables.streams)
    ensures
      var st' := ItemStep(p, st, i);
      st'.tables.channels == t.channels && st'.tables.history == t.history && st'.tally == NothingNew(i + 1)
  {
    UpsertAgain(p, t, st.tables, i, id);
    hide UpsertAt, OutcomeAt, UpToDate, UniqueIdentities, Grows;
  }

  /** The item loop of the second pass leaves channels and history alone and counts every snapshot as unchanged. */
  lemma {:induction false} SecondItems(p: Pass, t: Tables, ids: seq<nat>, n: nat)
    requires t.Shaped() && n <= |p.snapshots| == |ids| && NoFailures(p) && UniqueIdentities(t.channels)
    requires forall i :: 0 <= i < |ids| ==> UpToDate(p, t, i, ids[i])
    ensures
      var st := AfterItems(p, t, n);
      st.tables.channels == t.channels && st.tables.history == t.history && st.tally == NothingNew(n)
  {
    hide NoFailures, UniqueIdentities, UpToDate, ItemStep, Grows;
    if n > 0 {
      SecondItems(p, t, ids, n - 1);
      ItemsGrow(p, t, n - 1);
      SecondStep(p, t, AfterItems(p, t, n - 1), n - 1, ids[n - 1]);
    }
  }

  /** Reconciling the row's source at this instant would find nothing to do. */
  predicate AtRest(p: Pass, row: Channel) {
    Reconciles(p, row.sourceId) ==>
      && !Deactivates(row, row.sourceId, Seen(p, row.sourceId))
      && !Archives(row, row.sourceId, p.at, p.retention)
  }

  lemma {:induction false} SettledRowsRest(p: Pass, row: Channel)
    ensures AtRest(p, Settled(p, row))
  {
  }

  lemma {:induction false} NothingToDeactivate(rows: seq<Channel>, source: string, seen: set<string>, at: int)
    requires forall k :: 0 <= k < |rows| ==> !Deactivates(rows[k], source, seen)
    ensures CountDeactivated(rows, source, seen) == 0 && Deactivated(rows, source, seen, at) == rows
  {
    if rows != [] {
      NothingToDeactivate(rows[..|rows| - 1], source, seen, at);
    }
  }

  lemma {:induction false} NothingToArchive(rows: seq<Channel>, source: string, at: int, r: Retention)
    requires forall k :: 0 <= k < |rows| ==> !Archives(rows[k], source, at, r)
    ensures CountArchives(rows, source, at, r) == 0 && ArchivedRows(rows, source, at, r) == rows
  {
    if rows != [] {
      NothingToArchive(rows[..|rows| - 1], source, at, r);
    }
  }

  lemma {:induction false} QuietSource(p: Pass, st: PassState, source: string)
    requires st.tables.Shaped() && NoFailures(p) && source in Sources(p)
    requires forall j :: 0 <= j < |st.tables.channels| ==> AtRest(p, st.tables.channels[j])
    ensures SourceStep(p, st, source) == st
  {
    var rows := st.tables.channels;
    forall j | 0 <= j < |rows|
      ensures !Deactivates(rows[j], source, Seen(p, source)) && !Archives(rows[j], source, p.at, p.retention)
    {
      assert AtRest(p, rows[j]);
    }
    NothingToDeactivate(rows, source, Seen(p, source), p.at);
    NothingToArchive(rows, source, p.at, p.retention);
  }

  /** The source loop of the second pass does nothing at all. */
  lemma {:induction false} SecondSources(p: Pass, st: PassState, k: nat)
    requires st.tables.Shaped() && k <= |Sources(p)| && NoFailures(p)
    requires forall j :: 0 <= j < |st.tables.channels| ==> AtRest(p, st.tables.channels[j])
    ensures AfterSources(p, st, k) == st
  {
    hide SourceStep, AtRest, NoFailures;
    if k > 0 {
      SecondSources(p, st, k - 1);
      QuietSource(p, st, Sources(p)[k - 1]);
    }
  }

  /** The reconciliation half of the first pass leaves the observed rows up to date. */
  lemma {:induction false} OnceIsUpToDate(p: Pass, t: Tables, log: seq<seq<Observation>>, i: nat)
    requires Sound(t, log, p.at) && NoFailures(p) && DistinctIdentities(p) && !AdoptionConflict(p, t)
    requires i < |p.snapshots|
    ensures UpToDate(p, FullPass(p, t).tables, i, WrittenAt(p, t, i))
  {
    ItemIsUpToDate(p, t, log, i);
    WrittenIdsExist(p, t, |p.snapshots|, i);
    WrittenRowSettles(p, t, i);
  }

  lemma {:induction false} WrittenRowSettles(p: Pass, t: Tables, i: nat)
    requires t.Shaped() && NoFailures(p) && i < |p.snapshots|
    requires WrittenAt(p, t, i) < |ItemsDone(p, t).tables.channels|
    ensures FullPass(p, t).tables.channels[WrittenAt(p, t, i)] == ItemsDone(p, t).tables.channels[WrittenAt(p, t, i)]
  {
    var n, id := |p.snapshots|, WrittenAt(p, t, i);
    ObservedIsSomeSuccess(p, t, n, i);
    ItemsOnRow(p, t, n, id);
    PassOnRow(p, t, id);
    FreshRowsSettle(p, ItemsDone(p, t).tables.channels[id]);
  }

  /** A repeated pass without an adoption conflict is quiet. */
  lemma {:induction false} RepeatIsQuiet(p: Pass, t: Tables, log: seq<seq<Observation>>)
    requires Sound(t, log, p.at) && NoFailures(p) && DistinctIdentities(p) && !AdoptionConflict(p, t)
    ensures Idempotent(p, t)
  {
    hide NoFailures, Settled, AdoptionConflict, DistinctIdentities, UpToDate, AtRest;
    var n, once := |p.snapshots|, FullPass(p, t).tables;
    PassSound(p, t, log, p.at);
    var ids := seq(n, i requires 0 <= i < n => WrittenAt(p, t, i));
    forall i | 0 <= i < n
      ensures UpToDate(p, once, i, ids[i])
    {
      OnceIsUpToDate(p, t, log, i);
    }
    forall j | 0 <= j < |once.channels|
      ensures AtRest(p, once.channels[j])
    {
      PassOnRow(p, t, j);
      SettledRowsRest(p, ItemsDone(p, t).tables.channels[j]);
    }
    assert UniqueIdentities(once.channels);
    SecondItems(p, once, ids, n);
    ItemsRepeat(p, t);
    hide Sound, UniqueIdentities;
    assert ItemsDone(p, once) == PassState(once, NothingNew(n));
    SecondSources(p, ItemsDone(p, once), |Sources(p)|);
  }

  lemma {:induction false} ItemsRepeat(p: Pass, t: Tables)
    requires t.Shaped() && NoFailures(p)
    ensures
      var once, n := FullPass(p, t).tables, |p.snapshots|;
      && AfterItems(p, once, n).tables.events == once.events
      && AfterItems(p, once, n).tables.streams == once.streams
  {
    var once, n := FullPass(p, t).tables, |p.snapshots|;
    ItemsTrack(p, t, n);
    ItemsTrack(p, once, n);
    TrackAllTwice(t.events, EventWrites(p), p.at);
    TrackAllTwice(t.streams, StreamWrites(p), p.at);
  }

  // ----- Why a conflict breaks it -----

  predicate Known(rows: seq<Channel>, source: string, ext: string) {
    FindChannel(rows, source, ext).Some?
  }

  predicate Names(p: Pass, i: nat, source: string, ext: string)
    requires i < |p.snapshots|
  {
    SourceAt(p, i) == source && p.snapshots[i].externalId == ext
  }

  /** An upsert makes no identity known but its own. */
  lemma {:induction false} StepKnows(p: Pass, st: PassState, i: nat, source: string, ext: string)
    requires st.tables.Shaped() && i < |p.snapshots|
    requires !Known(st.tables.channels, source, ext) && !Names(p, i, source, ext)
    ensures !Known(ItemStep(p, st, i).tables.channels, source, ext)
  {
  }

  /** Adoption takes the legacy identity away. */
  lemma {:induction false} StepAdopts(p: Pass, st: PassState, i: nat)
    requires st.tables.Shaped() && i < |p.snapshots| && NoFailures(p) && UniqueIdentities(st.tables.channels)
    requires SourceAt(p, i) != LEGACY && !Known(st.tables.channels, SourceAt(p, i), p.snapshots[i].externalId)
    ensures !Known(ItemStep(p, st, i).tables.channels, LEGACY, p.snapshots[i].externalId)
  {
  }

  lemma {:induction false} StaysUnknown(p: Pass, t: Tables, m: nat, n: nat, source: string, ext: string)
    requires t.Shaped() && m <= n <= |p.snapshots| && !Known(AfterItems(p, t, m).tables.channels, source, ext)
    requires forall k :: m <= k < n ==> !Names(p, k, source, ext)
    ensures !Known(AfterItems(p, t, n).tables.channels, source, ext)
    decreases n
  {
    hide ItemStep, Known;
    if m < n {
      StaysUnknown(p, t, m, n - 1, source, ext);
      StepKnows(p, AfterItems(p, t, n - 1), n - 1, source, ext);
    }
  }

  lemma {:induction false} OnlyNamedOnce(p: Pass, i: nat, m: nat, n: nat)
    requires DistinctIdentities(p) && i < |p.snapshots| && m <= n <= |p.snapshots| && !(m <= i < n)
    ensures forall k :: m <= k < n ==> !Names(p, k, SourceAt(p, i), p.snapshots[i].externalId)
  {
  }

  /** Right after the adopting snapshot the legacy identity is gone. */
  lemma {:induction false} AdoptionForgetsLegacy(p: Pass, t: Tables, log: seq<seq<Observation>>, j: nat)
    requires Sound(t, log, p.at) && NoFailures(p) && j < |p.snapshots| && SourceAt(p, j) != LEGACY
    requires !Known(AfterItems(p, t, j).tables.channels, SourceAt(p, j), p.snapshots[j].externalId)
    ensures !Known(AfterItems(p, t, j + 1).tables.channels, LEGACY, p.snapshots[j].externalId)
  {
    hide NoFailures, ItemStep, Known, UniqueIdentities, Continues, Extends, Faithful, LifeCycle;
    ItemsSound(p, t, log, j);
    StepAdopts(p, AfterItems(p, t, j), j);
  }

  /** An identity that only snapshot `j` names is unknown until then. */
  lemma {:induction false} UnknownUntilNamed(p: Pass, t: Tables, j: nat)
    requires t.Shaped() && DistinctIdentities(p) && j < |p.snapshots|
    requires !Known(t.channels, SourceAt(p, j), p.snapshots[j].externalId)
    ensures !Known(AfterItems(p, t, j).tables.channels, SourceAt(p, j), p.snapshots[j].externalId)
  {
    hide DistinctIdentities, Names, ItemStep, Known;
    OnlyNamedOnce(p, j, 0, j);
    StaysUnknown(p, t, 0, j, SourceAt(p, j), p.snapshots[j].externalId);
  }

  /** After a pass with an adoption conflict the legacy identity is gone. */
  lemma {:induction false} ConflictForgetsLegacy(p: Pass, t: Tables, log: seq<seq<Observation>>, i: nat, j: nat)
    requires Sound(t, log, p.at) && NoFailures(p) && DistinctIdentities(p)
    requires i < j < |p.snapshots| && Adopts(p, t, i, j)
    ensures !Known(ItemsDone(p, t).tables.channels, LEGACY, p.snapshots[i].externalId)
  {
    hide NoFailures, DistinctIdentities, Names, AfterItems, UniqueIdentities, Faithful, LifeCycle;
    UnknownUntilNamed(p, t, j);
    hide Known;
    AdoptionForgetsLegacy(p, t, log, j);
    OnlyNamedOnce(p, i, j + 1, |p.snapshots|);
    StaysUnknown(p, t, j + 1, |p.snapshots|, LEGACY, p.snapshots[i].externalId);
  }

  lemma {:induction false} SettlingKnows(p: Pass, t: Tables, source: string, ext: string)
    requires t.Shaped() && !Known(ItemsDone(p, t).tables.channels, source, ext)
    ensures |FullPass(p, t).tables.channels| == |ItemsDone(p, t).tables.channels|
    ensures !Known(FullPass(p, t).tables.channels, source, ext)
  {
    var rows, rows' := ItemsDone(p, t).tables.channels, FullPass(p, t).tables.channels;
    forall k | 0 <= k < |rows'|
      ensures !HasIdentity(rows'[k], source, ext)
    {
      PassOnRow(p, t, k);
      SettledKeepsIdentity(p, rows[k]);
      assert !HasIdentity(rows[k], source, ext);
    }
  }

  lemma {:induction false} CreatedGrows(p: Pass, t: Tables, m: nat, n: nat)
    requires t.Shaped() && m <= n <= |p.snapshots|
    ensures AfterItems(p, t, m).tally.created <= AfterItems(p, t, n).tally.created
    decreases n
  {
    if m < n {
      CreatedGrows(p, t, m, n - 1);
    }
  }

  /** With a conflict the second pass creates a row anew. */
  lemma {:induction false} ConflictRepeatsCreation(p: Pass, t: Tables, log: seq<seq<Observation>>, i: nat, j: nat)
    requires Sound(t, log, p.at) && NoFailures(p) && DistinctIdentities(p)
    requires i < j < |p.snapshots| && Adopts(p, t, i, j)
    ensures !Idempotent(p, t)
  {
    ConflictForgetsLegacy(p, t, log, i, j);
    SettlingKnows(p, t, LEGACY, p.snapshots[i].externalId);
    PassSound(p, t, log, p.at);
    UnknownLegacyIsCreated(p, FullPass(p, t).tables, i);
    hide Sound, NoFailures, DistinctIdentities, Known, AfterItems, AfterSources, Kept;
  }

  lemma {:induction false} UnknownLegacyIsCreated(p: Pass, t: Tables, i: nat)
    requires t.Shaped() && NoFailures(p) && DistinctIdentities(p)
    requires i < |p.snapshots| && SourceAt(p, i) == LEGACY && !Known(t.channels, LEGACY, p.snapshots[i].externalId)
    ensures FullPass(p, t).tally.created > 0
  {
    hide DistinctIdentities, NoFailures, ItemStep, Known, AfterSources, Sources;
    UnknownUntilNamed(p, t, i);
    LegacyUnknownCreates(p, AfterItems(p, t, i), i);
    CreatedGrows(p, t, i + 1, |p.snapshots|);
    SourcesKeepCreated(p, ItemsDone(p, t), |Sources(p)|);
  }

  lemma {:induction false} LegacyUnknownCreates(p: Pass, st: PassState, i: nat)
    requires st.tables.Shaped() && i < |p.snapshots| && NoFailures(p)
    requires SourceAt(p, i) == LEGACY && !Known(st.tables.channels, LEGACY, p.snapshots[i].externalId)
    ensures ItemStep(p, st, i).tally.created == st.tally.created + 1
  {
  }

  lemma {:induction false} SourcesKeepCreated(p: Pass, st: PassState, k: nat)
    requires st.tables.Shaped() && k <= |Sources(p)|
    ensures AfterSources(p, st, k).tally.created == st.tally.created
  {
    if k > 0 {
      SourcesKeepCreated(p, st, k - 1);
    }
  }

  /**
   Exact idempotence: with distinct identities and no failures, repeating a pass at the same instant leaves channels,
   events, streams and history equal and counts every channel as unchanged iff the pass has no adoption conflict.
   */
  lemma {:induction false} IdempotentIffNoConflict(p: Pass, t: Tables, log: seq<seq<Observation>>, now: int)
    requires Sound(t, log, now) && now <= p.at && NoFailures(p) && DistinctIdentities(p)
    ensures Idempotent(p, t) <==> !AdoptionConflict(p, t)
  {
    LaterIsSound(t, log, now, p.at);
    if AdoptionConflict(p, t) {
      var i, j :| 0 <= i < j < |p.snapshots| && Adopts(p, t, i, j);
      ConflictRepeatsCreation(p, t, log, i, j);
    } else {
      RepeatIsQuiet(p, t, log);
    }
  }

  lemma {:induction false} LaterIsSound(t: Tables, log: seq<seq<Observation>>, now: int, later: int)
    requires Sound(t, log, now) && now <= later
    ensures Sound(t, log, later)
  {
  }

  /** The conflict is real: one empty table, one snapshot under the legacy source, one that adopts its row. */
  lemma {:induction false} ConflictExists()
    ensures
      var p := Pass("a", [SampleSnapshot("x", LEGACY), SampleSnapshot("x", "a")], map[], 5, Retention(6, 7, 30), {}, {});
      var t := Tables([], [], [], []);
      t.Shaped() && NoFailures(p) && DistinctIdentities(p) && !Idempotent(p, t)
  {
    var p := Pass("a", [SampleSnapshot("x", LEGACY), SampleSnapshot("x", "a")], map[], 5, Retention(6, 7, 30), {}, {});
    var t := Tables([], [], [], []);
    assert SourceAt(p, 0) == LEGACY && SourceAt(p, 1) == "a";
    assert Sound(t, [], 5);
    ConflictRepeatsCreation(p, t, [], 0, 1);
  }
}
