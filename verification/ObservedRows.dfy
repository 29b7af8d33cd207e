/** What an observed channel row and its event and stream rows hold when the pass ends, read from the snapshots alone. */
module ObservedRows {
  import opened Wrappers
  import opened ChannelSync
  import opened SyncPass
  import opened ActiveSet
  import ChannelLife
  import opened TrackedRows

  // ----- Events and streams over a pass -----

  /** The event write of each snapshot; a failed one writes nothing. */
  function EventWrites(p: Pass): (writes: seq<Write<EventDetails>>)
    ensures |writes| == |p.snapshots|
  {
    seq(|p.snapshots|, i requires 0 <= i < |p.snapshots| =>
      Write(SourceAt(p, i), if i in p.failedItems then None else p.snapshots[i].eventExternalId, EventOf(p.snapshots[i])))
  }

  function StreamWrites(p: Pass): (writes: seq<Write<StreamDetails>>)
    ensures |writes| == |p.snapshots|
  {
    seq(|p.snapshots|, i requires 0 <= i < |p.snapshots| =>
      Write(SourceAt(p, i), if i in p.failedItems then None else p.snapshots[i].streamExternalId, StreamOf(p.snapshots[i])))
  }

  lemma {:induction false} StepTracks(p: Pass, st: PassState, i: nat)
    requires st.tables.Shaped() && i < |p.snapshots|
    ensures
      var w, t, t' := EventWrites(p)[i], st.tables, ItemStep(p, st, i).tables;
      t'.events == Track(t.events, w.source, w.ext, w.details, p.at)
    ensures
      var w, t, t' := StreamWrites(p)[i], st.tables, ItemStep(p, st, i).tables;
      t'.streams == Track(t.streams, w.source, w.ext, w.details, p.at)
  {
  }

  lemma {:induction false} ItemsTrack(p: Pass, t: Tables, n: nat)
    requires t.Shaped() && n <= |p.snapshots|
    ensures AfterItems(p, t, n).tables.events == TrackAll(t.events, EventWrites(p), p.at, n)
    ensures AfterItems(p, t, n).tables.streams == TrackAll(t.streams, StreamWrites(p), p.at, n)
  {
    hide ItemStep, Track, EventWrites, StreamWrites;
    if n > 0 {
      ItemsTrack(p, t, n - 1);
      StepTracks(p, AfterItems(p, t, n - 1), n - 1);
    }
  }

  // ----- Channels -----

  /** Snapshot `i` is the last one that writes its channel with success. */
  predicate LastWriter(p: Pass, t: Tables, i: nat)
    requires t.Shaped() && i < |p.snapshots|
  {
    i !in p.failedItems
    && forall j :: i < j < |p.snapshots| && j !in p.failedItems ==> WrittenAt(p, t, j) != WrittenAt(p, t, i)
  }

  /** Until another snapshot writes its channel, the row of snapshot `i` stays as that snapshot wrote it. */
  lemma {:induction false} RowStays(p: Pass, t: Tables, i: nat, n: nat)
    requires t.Shaped() && i < n <= |p.snapshots| && LastWriter(p, t, i)
    ensures
      var id, st := WrittenAt(p, t, i), AfterItems(p, t, i);
      && id < |AfterItems(p, t, n).tables.channels|
      && id < |UpsertAt(p, st.tables, i).channels|
      && AfterItems(p, t, n).tables.channels[id] == UpsertAt(p, st.tables, i).channels[id]
  {
    hide ItemStep, UpsertAt, OutcomeAt;
    WrittenIdsExist(p, t, n, i);
    if i < n - 1 {
      RowStays(p, t, i, n - 1);
      StepOnRow(p, AfterItems(p, t, n - 1), n - 1, WrittenAt(p, t, i));
    } else {
      StepIsUpsert(p, AfterItems(p, t, i), i);
    }
  }

  lemma StepIsUpsert(p: Pass, st: PassState, i: nat)
    requires st.tables.Shaped() && i < |p.snapshots| && i !in p.failedItems
    ensures ItemStep(p, st, i).tables == UpsertAt(p, st.tables, i)
  {
  }

  /** The source a snapshot belongs to: its own, or the adapter's if it names none. */
  predicate BelongsTo(p: Pass, s: ChannelSnapshot, source: string) {
    if s.sourceId.Some? && s.sourceId.value != "" then source == s.sourceId.value else source == p.adapter
  }

  /** The row shows what the snapshot says, column by column. */
  predicate Shows(p: Pass, s: ChannelSnapshot, row: Channel) {
    && BelongsTo(p, s, row.sourceId) && row.externalId == s.externalId
    && row.name == s.name && row.category == s.category && row.channelType == s.channelType
    && row.eventStartAt == s.eventStartAt && row.eventEndAt == s.eventEndAt
    && row.enabled == s.enabled && row.sourceUpdatedAt == s.sourceUpdatedAt
    && row.active && row.inactiveSinceAt.None? && row.archivedAt.None? && row.lastSeenAt == p.at
    && (if s.serverExternalId.Some? && s.serverExternalId.value != "" && s.serverExternalId.value in p.serverIds
        then row.currentServerId == Some(p.serverIds[s.serverExternalId.value]) else row.currentServerId.None?)
  }

  lemma {:induction false} UpsertShows(p: Pass, t: Tables, i: nat)
    requires t.Shaped() && i < |p.snapshots|
    ensures OutcomeAt(p, t, i).channelId < |UpsertAt(p, t, i).channels|
    ensures
      var s, id := p.snapshots[i], OutcomeAt(p, t, i).channelId;
      var row := UpsertAt(p, t, i).channels[id];
      && Shows(p, s, row)
      && row.firstSeenAt == (if id < |t.channels| then t.channels[id].firstSeenAt else p.at)
      && row.eventId == TrackedId(t.events, SourceAt(p, i), s.eventExternalId)
      && row.streamId == TrackedId(t.streams, SourceAt(p, i), s.streamExternalId)
      && BelongsTo(p, s, SourceAt(p, i))
  {
  }

  /** First instants of channels survive the item loop; a channel that it adds begins now. */
  lemma {:induction false} FirstInstants(p: Pass, t: Tables, n: nat, id: nat)
    requires t.Shaped() && n <= |p.snapshots| && id < |AfterItems(p, t, n).tables.channels|
    ensures
      AfterItems(p, t, n).tables.channels[id].firstSeenAt ==
      if id < |t.channels| then t.channels[id].firstSeenAt else p.at
  {
    hide ItemStep, UpsertAt, OutcomeAt;
    if n > 0 {
      var st := AfterItems(p, t, n - 1);
      ItemsKeepRows(p, t, n - 1);
      StepOnRow(p, st, n - 1, id);
      if n - 1 !in p.failedItems && id == WrittenAt(p, t, n - 1) {
        StepIsUpsert(p, st, n - 1);
        UpsertShows(p, st.tables, n - 1);
      }
      if id < |st.tables.channels| {
        FirstInstants(p, t, n - 1, id);
      }
    }
  }

  // ----- The whole pass -----

  lemma {:induction false} PassKeepsTracked(p: Pass, t: Tables)
    requires t.Shaped()
    ensures FullPass(p, t).tables.events == ItemsDone(p, t).tables.events
    ensures FullPass(p, t).tables.streams == ItemsDone(p, t).tables.streams
  {
  }

  /** A row that a pass observed shows the last snapshot that wrote it, and keeps its first instant. */
  lemma {:induction false} ObservedRowShowsSnapshot(p: Pass, t: Tables, i: nat)
    requires t.Shaped() && i < |p.snapshots| && LastWriter(p, t, i)
    ensures WrittenAt(p, t, i) < |FullPass(p, t).tables.channels|
    ensures
      var id := WrittenAt(p, t, i);
      var row := FullPass(p, t).tables.channels[id];
      Shows(p, p.snapshots[i], row) && row.firstSeenAt == if id < |t.channels| then t.channels[id].firstSeenAt else p.at
  {
    var id, st := WrittenAt(p, t, i), AfterItems(p, t, i);
    ObservedSettles(p, t, i);
    UpsertShows(p, st.tables, i);
    FirstInstants(p, t, |p.snapshots|, id);
    hide ItemStep, UpsertAt, OutcomeAt, Shows;
  }

  /** Settling does not touch the row of snapshot `i`. */
  lemma {:induction false} ObservedSettles(p: Pass, t: Tables, i: nat)
    requires t.Shaped() && i < |p.snapshots| && LastWriter(p, t, i)
    ensures
      var id, st := WrittenAt(p, t, i), AfterItems(p, t, i);
      && id < |FullPass(p, t).tables.channels| && id < |UpsertAt(p, st.tables, i).channels|
      && id < |ItemsDone(p, t).tables.channels|
      && FullPass(p, t).tables.channels[id] == ItemsDone(p, t).tables.channels[id]
      && FullPass(p, t).tables.channels[id] == UpsertAt(p, st.tables, i).channels[id]
  {
    hide ItemStep, UpsertAt, OutcomeAt, SourceStep;
    var id := WrittenAt(p, t, i);
    RowStays(p, t, i, |p.snapshots|);
    ObservedIsSomeSuccess(p, t, |p.snapshots|, i);
    ChannelLife.PassOnRow(p, t, id);
    ItemsOnRow(p, t, |p.snapshots|, id);
    FreshRowsSettle(p, ItemsDone(p, t).tables.channels[id]);
  }

  // ----- The event and the stream of an observed channel -----

  /** Rows that were there keep their first instant; rows that the writes add begin now. */
  lemma {:induction false} TrackedFirstInstants<D>(rows: seq<Tracked<D>>, writes: seq<Write<D>>, at: int, n: nat, k: nat)
    requires n <= |writes| && k < |TrackAll(rows, writes, at, n)|
    ensures TrackAll(rows, writes, at, n)[k].firstSeenAt == if k < |rows| then rows[k].firstSeenAt else at
  {
    if n > 0 {
      TrackAllGrows(rows, writes, at, 0, n - 1);
      if k < |TrackAll(rows, writes, at, n - 1)| {
        TrackedFirstInstants(rows, writes, at, n - 1, k);
      }
    }
  }

  /** A row written once was last seen now, whoever writes it again. */
  lemma {:induction false} TrackedLastInstants<D>(rows: seq<Tracked<D>>, writes: seq<Write<D>>, at: int, i: nat, n: nat)
    requires i < n <= |writes| && writes[i].ext.Some?
    ensures
      var k, now := TrackedId(TrackAll(rows, writes, at, i), writes[i].source, writes[i].ext).value, TrackAll(rows, writes, at, n);
      k < |now| && now[k].lastSeenAt == at
  {
    if i < n - 1 {
      TrackedLastInstants(rows, writes, at, i, n - 1);
    }
  }

  /** The row that a write ends up in: its identity, its instants, and its details unless it is written again. */
  lemma {:induction false} WriteLands<D>(rows: seq<Tracked<D>>, writes: seq<Write<D>>, at: int, i: nat)
    requires i < |writes| && writes[i].ext.Some?
    ensures
      var w, end := writes[i], TrackAll(rows, writes, at, |writes|);
      var k := TrackedId(TrackAll(rows, writes, at, i), w.source, w.ext).value;
      && k < |end|
      && end[k].sourceId == w.source && end[k].externalId == w.ext.value
      && end[k].lastSeenAt == at && end[k].firstSeenAt == (if k < |rows| then rows[k].firstSeenAt else at)
      && ((forall j :: i < j < |writes| ==> writes[j].source != w.source || writes[j].ext != w.ext) ==>
            end[k].details == w.details)
  {
    var w, end := writes[i], TrackAll(rows, writes, at, |writes|);
    var k := TrackedId(TrackAll(rows, writes, at, i), w.source, w.ext).value;
    WrittenIsFound(rows, writes, at, i, |writes|);
    TrackedLastInstants(rows, writes, at, i, |writes|);
    TrackedFirstInstants(rows, writes, at, |writes|, k);
    hide TrackAll;
    if forall j :: i < j < |writes| ==> writes[j].source != w.source || writes[j].ext != w.ext {
      forall j | i < j < |writes|
        ensures !Hits(end, writes[j], k)
      {
      }
      LastWriterWins(rows, writes, at, i, |writes|, k);
    }
  }

  /** No later snapshot that succeeds names the same event. */
  predicate LastOfEvent(p: Pass, i: nat)
    requires i < |p.snapshots|
  {
    forall j :: i < j < |p.snapshots| && j !in p.failedItems ==>
                  SourceAt(p, j) != SourceAt(p, i) || p.snapshots[j].eventExternalId != p.snapshots[i].eventExternalId
  }

  predicate LastOfStream(p: Pass, i: nat)
    requires i < |p.snapshots|
  {
    forall j :: i < j < |p.snapshots| && j !in p.failedItems ==>
                  SourceAt(p, j) != SourceAt(p, i) || p.snapshots[j].streamExternalId != p.snapshots[i].streamExternalId
  }

  /** The row has the identity the snapshot gives it, was seen now, and keeps its first instant if it had one. */
  predicate Points<D>(p: Pass, s: ChannelSnapshot, ext: string, rows: seq<Tracked<D>>, rows': seq<Tracked<D>>, k: nat) {
    && k < |rows'| && BelongsTo(p, s, rows'[k].sourceId) && rows'[k].externalId == ext
    && rows'[k].lastSeenAt == p.at
    && rows'[k].firstSeenAt == if k < |rows| then rows[k].firstSeenAt else p.at
  }

  /** What the snapshot says about its event. */
  predicate EventShows(s: ChannelSnapshot, e: EventDetails) {
    && e.name == (if s.eventName.Some? && s.eventName.value != "" then s.eventName.value else s.name)
    && e.category == s.category && e.startAt == s.eventStartAt && e.endAt == s.eventEndAt
    && e.active && e.archivedAt.None?
  }

  /** The channel points at the event that the snapshot names, if it names one, and the event shows what it says. */
  lemma {:induction false} ObservedRowPointsAtEvent(p: Pass, t: Tables, i: nat)
    requires t.Shaped() && i < |p.snapshots| && LastWriter(p, t, i)
    ensures WrittenAt(p, t, i) < |FullPass(p, t).tables.channels|
    ensures
      var s, row, events := p.snapshots[i], FullPass(p, t).tables.channels[WrittenAt(p, t, i)], FullPass(p, t).tables.events;
      if s.eventExternalId.None? then row.eventId.None?
      else
        && row.eventId.Some? && Points(p, s, s.eventExternalId.value, t.events, events, row.eventId.value)
        && (LastOfEvent(p, i) ==> EventShows(s, events[row.eventId.value].details))
  {
    ObservedSettles(p, t, i);
    UpsertShows(p, AfterItems(p, t, i).tables, i);
    PassKeepsTracked(p, t);
    ItemsTrack(p, t, i);
    ItemsTrack(p, t, |p.snapshots|);
    hide ItemStep, UpsertAt, OutcomeAt, Shows, FullPass, ItemsDone;
    if p.snapshots[i].eventExternalId.Some? {
      assert EventWrites(p)[i].ext == p.snapshots[i].eventExternalId;
      WriteLands(t.events, EventWrites(p), p.at, i);
    }
  }

  /** And likewise at the technical stream. */
  lemma {:induction false} ObservedRowPointsAtStream(p: Pass, t: Tables, i: nat)
    requires t.Shaped() && i < |p.snapshots| && LastWriter(p, t, i)
    ensures WrittenAt(p, t, i) < |FullPass(p, t).tables.channels|
    ensures
      var s, row, streams := p.snapshots[i], FullPass(p, t).tables.channels[WrittenAt(p, t, i)], FullPass(p, t).tables.streams;
      if s.streamExternalId.None? then row.streamId.None?
      else
        && row.streamId.Some? && Points(p, s, s.streamExternalId.value, t.streams, streams, row.streamId.value)
        && (LastOfStream(p, i) ==>
              streams[row.streamId.value].details.name == s.streamName && streams[row.streamId.value].details.active)
  {
    ObservedSettles(p, t, i);
    UpsertShows(p, AfterItems(p, t, i).tables, i);
    PassKeepsTracked(p, t);
    ItemsTrack(p, t, i);
    ItemsTrack(p, t, |p.snapshots|);
    hide ItemStep, UpsertAt, OutcomeAt, Shows, FullPass, ItemsDone;
    if p.snapshots[i].streamExternalId.Some? {
      assert StreamWrites(p)[i].ext == p.snapshots[i].streamExternalId;
      WriteLands(t.streams, StreamWrites(p), p.at, i);
    }
  }

  // ----- The action -----

  /** The columns of a row that make a repeated observation count as an update. */
  predicate SameData(before: Channel, after: Channel) {
    && before.sourceId == after.sourceId && before.name == after.name && before.category == after.category
    && before.channelType == after.channelType
    && before.eventStartAt == after.eventStartAt && before.eventEndAt == after.eventEndAt
    && before.currentServerId == after.currentServerId
    && before.eventId == after.eventId && before.streamId == after.streamId
    && before.enabled == after.enabled && before.archivedAt == after.archivedAt
    && before.sourceUpdatedAt == after.sourceUpdatedAt
  }

  /** The action that an upsert reports, read from the row before and after it. */
  lemma {:induction false} ActionTellsTheChange(p: Pass, t: Tables, i: nat)
    requires t.Shaped() && i < |p.snapshots|
    ensures OutcomeAt(p, t, i).channelId < |UpsertAt(p, t, i).channels|
    ensures
      var id, action := OutcomeAt(p, t, i).channelId, OutcomeAt(p, t, i).action;
      var after := UpsertAt(p, t, i).channels[id];
      && (action.Created? <==> id >= |t.channels|)
      && (id < |t.channels| ==>
            var before := t.channels[id];
            && (action.Reactivated? <==> !before.active)
            && (action.Unchanged? <==> before.active && SameData(before, after))
            && (action.Updated? <==> before.active && !SameData(before, after)))
  {
  }
}
