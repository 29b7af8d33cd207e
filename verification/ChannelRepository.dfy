/**
 The repository object of app/repositories/channel_repository.py. Its fields are the tables of the session;
 every method is proved against the functions of `ChannelSync`.
 */
module ChannelRepository {
  import opened Wrappers
  import opened CategoryHistory
  import opened ChannelSync

  class ChannelRepository {
    var channels: seq<Channel>
    var events: seq<Tracked<EventDetails>>
    var streams: seq<Tracked<StreamDetails>>
    var history: seq<seq<Interval>>

    ghost function State(): Tables
      reads this
    {
      Tables(channels, events, streams, history)
    }

    constructor (t: Tables)
      ensures State() == t
    {
      channels, events, streams, history := t.channels, t.events, t.streams, t.history;
    }

    /** `upsert_from_snapshot`. */
    method UpsertFromSnapshot(s: ChannelSnapshot, server: Option<nat>, sourceId: string, seenAt: int)
      returns (outcome: Outcome)
      requires State().Shaped()
      modifies this
      ensures State().Shaped()
      ensures State() == Upserted(old(State()), s, server, sourceId, seenAt)
      ensures outcome == UpsertOutcome(old(State()), s, server, sourceId, seenAt)
    {
      var source := SourceOf(s, sourceId);
      var found := FindChannel(channels, source, s.externalId);
      var adoptedLegacy := false;
      if found.None? {
        found := FindChannel(channels, LEGACY, s.externalId);
        adoptedLegacy := found.Some?;
      }
      var isNew := found.None?;
      var wasInactive := found.Some? && !channels[found.value].active;
      var row: Channel;
      if found.Some? {
        row := channels[found.value];
      } else {
        row := ObservedRow(s, source, seenAt, None, None, None, seenAt);
      }
      var before := SyncedValues(row);
      if adoptedLegacy {
        row := row.(sourceId := source);
      }
      row := row.(name := s.name, category := s.category, channelType := s.channelType);
      row := row.(eventStartAt := s.eventStartAt, eventEndAt := s.eventEndAt);
      row := row.(currentServerId := server, enabled := s.enabled);
      row := row.(active := true, inactiveSinceAt := None, archivedAt := None);
      row := row.(lastSeenAt := seenAt, sourceUpdatedAt := s.sourceUpdatedAt);
      var eventId := UpsertEvent(s, source, seenAt);
      var streamId := UpsertStream(s, source, seenAt);
      row := row.(eventId := eventId, streamId := streamId);
      var channelId := if found.Some? then found.value else |channels|;
      if found.Some? {
        channels := channels[channelId := row];
      } else {
        channels, history := channels + [row], history + [[]];
      }
      RecordCategoryChange(channelId, source, seenAt);

      var action;
      if isNew {
        action := Created;
      } else if wasInactive {
        action := Reactivated;
      } else if before != SyncedValues(row) || adoptedLegacy {
        action := Updated;
      } else {
        action := Unchanged;
      }
      outcome := Outcome(channelId, action);
    }

    /** `_upsert_event`. */
    method UpsertEvent(s: ChannelSnapshot, source: string, seenAt: int) returns (id: Option<nat>)
      modifies `events
      ensures events == Track(old(events), source, s.eventExternalId, EventOf(s), seenAt)
      ensures id == TrackedId(old(events), source, s.eventExternalId)
    {
      if s.eventExternalId.None? {
        return None;
      }
      id := FindTracked(events, source, s.eventExternalId.value);
      if id.None? {
        id := Some(|events|);
        events := events + [Tracked(source, s.eventExternalId.value, seenAt, seenAt, EventOf(s))];
      }
      events := events[id.value := events[id.value].(details := EventOf(s), lastSeenAt := seenAt)];
    }

    /** `_upsert_stream`. */
    method UpsertStream(s: ChannelSnapshot, source: string, seenAt: int) returns (id: Option<nat>)
      modifies `streams
      ensures streams == Track(old(streams), source, s.streamExternalId, StreamOf(s), seenAt)
      ensures id == TrackedId(old(streams), source, s.streamExternalId)
    {
      if s.streamExternalId.None? {
        return None;
      }
      id := FindTracked(streams, source, s.streamExternalId.value);
      if id.None? {
        id := Some(|streams|);
        streams := streams + [Tracked(source, s.streamExternalId.value, seenAt, seenAt, StreamOf(s))];
      }
      streams := streams[id.value := streams[id.value].(details := StreamOf(s), lastSeenAt := seenAt)];
    }

    /** `_record_category_change`. */
    method RecordCategoryChange(channelId: nat, source: string, seenAt: int)
      requires channelId < |channels| == |history|
      modifies `history
      ensures history == old(history)[channelId :=
                Record(old(history)[channelId], Observation(source, channels[channelId].category, seenAt))]
    {
      var rows := history[channelId];
      var current := channels[channelId].category;
      var latest := Latest(rows);
      if latest.Some? && rows[latest.value].category == current {
        history := history[channelId := rows[latest.value := rows[latest.value].(validTo := None)]];
        return;
      }
      if latest.Some? && rows[latest.value].validTo.None? {
        rows := rows[latest.value := rows[latest.value].(validTo := Some(seenAt))];
      }
      assert latest.None? ==> rows + [Interval(source, current, seenAt, None)] == [Interval(source, current, seenAt, None)];
      history := history[channelId := rows + [Interval(source, current, seenAt, None)]];
    }

    /** `reconcile_missing`. */
    method ReconcileMissing(source: string, seen: set<string>, observedAt: int, r: Retention)
      returns (deactivated: nat, archived: nat)
      modifies `channels
      ensures channels == Reconciled(old(channels), source, seen, observedAt, r)
      ensures deactivated == CountDeactivated(old(channels), source, seen)
      ensures archived == CountNewlyArchived(old(channels), source, seen, observedAt, r)
    {
      deactivated := DeactivateMissing(source, seen, observedAt);
      archived := ArchiveExpired(source, observedAt, r);
    }

    /** Its first loop. */
    method DeactivateMissing(source: string, seen: set<string>, observedAt: int) returns (deactivated: nat)
      modifies `channels
      ensures channels == Deactivated(old(channels), source, seen, observedAt)
      ensures deactivated == CountDeactivated(old(channels), source, seen)
    {
      ghost var before := channels;
      deactivated := 0;
      for i := 0 to |channels|
        invariant |channels| == |before|
        invariant forall j :: i <= j < |before| ==> channels[j] == before[j]
        invariant forall j :: 0 <= j < i ==> channels[j] == DeactivatedRow(before[j], source, seen, observedAt)
        invariant deactivated == CountDeactivated(before[..i], source, seen)
      {
        assert before[..i + 1][..i] == before[..i];
        if channels[i].sourceId == source && channels[i].externalId !in seen && channels[i].active {
          var row := channels[i].(active := false);
          row := row.(enabled := false, currentServerId := None, inactiveSinceAt := Some(observedAt));
          channels := channels[i := row];
          deactivated := deactivated + 1;
        }
      }
      assert before[..|before|] == before;
    }

    /** Its second loop. */
    method ArchiveExpired(source: string, observedAt: int, r: Retention) returns (archived: nat)
      modifies `channels
      ensures channels == ArchivedRows(old(channels), source, observedAt, r)
      ensures archived == CountArchives(old(channels), source, observedAt, r)
    {
      ghost var before := channels;
      archived := 0;
      for i := 0 to |channels|
        invariant |channels| == |before|
        invariant forall j :: i <= j < |before| ==> channels[j] == before[j]
        invariant forall j :: 0 <= j < i ==> channels[j] == ArchivedRow(before[j], source, observedAt, r)
        invariant archived == CountArchives(before[..i], source, observedAt, r)
      {
        assert before[..i + 1][..i] == before[..i];
        var row := channels[i];
        if row.sourceId == source && !row.active && row.archivedAt.None? && Expired(row, observedAt, r) {
          channels := channels[i := row.(channelType := Archived, archivedAt := Some(observedAt))];
          archived := archived + 1;
        }
      }
      assert before[..|before|] == before;
    }
  }
}
