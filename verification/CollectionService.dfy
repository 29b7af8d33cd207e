/**
 The service object of app/collectors/collection.py: `_sync_channels` driving a repository and a result object.
 */
module CollectionService {
  import opened Wrappers
  import opened ChannelSync
  import opened SyncPass
  import opened PassReport
  import Repository = ChannelRepository

  /** The channel part of `CollectionResult`. */
  class CollectionResult {
    var channelsSynced: nat
    var channelsFailed: nat
    var channelsCreated: nat
    var channelsUpdated: nat
    var channelsReactivated: nat
    var channelsUnchanged: nat
    var channelsDeactivated: nat
    var channelsArchived: nat
    var errors: seq<SyncError>

    ghost function Counters(): Tally
      reads this
    {
      Tally(channelsSynced, channelsFailed, channelsCreated, channelsUpdated, channelsReactivated, channelsUnchanged,
            channelsDeactivated, channelsArchived)
    }

    constructor ()
      ensures Counters() == ZERO && errors == []
    {
      channelsSynced, channelsFailed, channelsCreated, channelsUpdated := 0, 0, 0, 0;
      channelsReactivated, channelsUnchanged, channelsDeactivated, channelsArchived := 0, 0, 0, 0;
      errors := [];
    }

    /** `channels_synced += 1` and the counter named after the action. */
    method CountAction(action: Action)
      modifies this
      ensures Counters() == Counted(old(Counters()), action) && errors == old(errors)
    {
      channelsSynced := channelsSynced + 1;
      match action {
        case Created => channelsCreated := channelsCreated + 1;
        case Updated => channelsUpdated := channelsUpdated + 1;
        case Reactivated => channelsReactivated := channelsReactivated + 1;
        case Unchanged => channelsUnchanged := channelsUnchanged + 1;
      }
    }

    method RecordFailure(error: SyncError)
      modifies this
      ensures Counters() == old(Counters()).(failed := old(channelsFailed) + 1) && errors == old(errors) + [error]
    {
      channelsFailed, errors := channelsFailed + 1, errors + [error];
    }
  }

  class CollectionService {
    const channels: Repository.ChannelRepository

    constructor (channels: Repository.ChannelRepository)
      ensures this.channels == channels
    {
      this.channels := channels;
    }

    /** A savepoint around one upsert: when it fails, every table goes back to what it was. */
    method UpsertInSavepoint(s: ChannelSnapshot, server: Option<nat>, source: string, seenAt: int, fails: bool)
      returns (outcome: Option<Outcome>)
      requires channels.State().Shaped()
      modifies channels
      ensures fails ==> outcome == None && channels.State() == old(channels.State())
      ensures !fails ==>
                && outcome == Some(UpsertOutcome(old(channels.State()), s, server, source, seenAt))
                && channels.State() == Upserted(old(channels.State()), s, server, source, seenAt)
    {
      var savedChannels, savedHistory := channels.channels, channels.history;
      var savedEvents, savedStreams := channels.events, channels.streams;
      var done := channels.UpsertFromSnapshot(s, server, source, seenAt);
      if fails {
        channels.channels, channels.history := savedChannels, savedHistory;
        channels.events, channels.streams := savedEvents, savedStreams;
        outcome := None;
      } else {
        outcome := Some(done);
      }
    }

    /** `_sync_channels`. */
    method SyncChannels(p: Pass, result: CollectionResult)
      requires channels.State().Shaped() && result.Counters() == ZERO && result.errors == []
      modifies channels, result
      ensures channels.State() == FullPass(p, old(channels.State())).tables
      ensures result.Counters() == FullPass(p, old(channels.State())).tally
      ensures result.errors == ItemErrors(p, |p.snapshots|) + SourceErrors(p, |Sources(p)|)
      ensures |result.errors| == result.channelsFailed
      ensures
        var t, n := old(channels.State()), |p.snapshots|;
        && result.channelsCreated == Successes(p, t, n, Created) && result.channelsUpdated == Successes(p, t, n, Updated)
        && result.channelsReactivated == Successes(p, t, n, Reactivated)
        && result.channelsUnchanged == Successes(p, t, n, Unchanged)
        && result.channelsSynced + |ItemErrors(p, n)| == n
        && Count(channels.channels, IsActive) + result.channelsDeactivated ==
           Count(t.channels, IsActive) + result.channelsCreated + result.channelsReactivated
        && Count(channels.channels, IsArchived) + Reobserved(p, t, n) ==
           Count(t.channels, IsArchived) + result.channelsArchived
    {
      hide SourceStep, AfterItems, Counted, Successes, ItemErrors, Count, Reobserved, FailedAmong;
      ghost var t := channels.State();
      var order, seen := SyncItems(p, result);
      ghost var items, itemErrors := ItemsDone(p, t), result.errors;
      for k := 0 to |order|
        invariant channels.State() == AfterSources(p, items, k).tables
        invariant result.Counters() == AfterSources(p, items, k).tally
        invariant result.errors == itemErrors + SourceErrors(p, k)
      {
        ReconcileInSavepoint(p, order[k], seen[order[k]], result);
      }
      ReportIsRight(p, t);
    }

    /** The first loop of `_sync_channels`; it also fills `seen_by_source`, here the map `seen` with its key order. */
    method SyncItems(p: Pass, result: CollectionResult) returns (order: seq<string>, seen: map<string, set<string>>)
      requires channels.State().Shaped() && result.Counters() == ZERO && result.errors == []
      modifies channels, result
      ensures channels.State() == ItemsDone(p, old(channels.State())).tables
      ensures result.Counters() == ItemsDone(p, old(channels.State())).tally
      ensures result.errors == ItemErrors(p, |p.snapshots|)
      ensures order == Sources(p)
      ensures forall source :: source in order ==> source in seen && seen[source] == Seen(p, source)
    {
      hide ItemsSynced, AfterItems, ItemErrors, SeenOrder, SeenIds;
      ghost var t := channels.State();
      order, seen := [p.adapter], map[p.adapter := {}];
      NothingSynced(p, t);
      for i := 0 to |p.snapshots|
        invariant ItemsSynced(p, t, i, channels.State(), result.Counters(), result.errors, order, seen)
      {
        order, seen := SyncRound(p, t, i, order, seen, result);
      }
      SyncedAtEnd(p, t, channels.State(), result.Counters(), result.errors, order, seen);
    }

    /** One round of that loop. */
    method SyncRound(p: Pass, ghost t: Tables, i: nat, order: seq<string>, seen: map<string, set<string>>,
                     result: CollectionResult)
      returns (order': seq<string>, seen': map<string, set<string>>)
      requires i < |p.snapshots| && t.Shaped()
      requires ItemsSynced(p, t, i, channels.State(), result.Counters(), result.errors, order, seen)
      modifies channels, result
      ensures ItemsSynced(p, t, i + 1, channels.State(), result.Counters(), result.errors, order', seen')
    {
      hide ItemStep, SeenUpTo, SourceAt;
      order', seen' := NoteSeen(p, i, order, seen);
      SyncItem(p, i, result);
    }

    /** Its savepoint and its counters. */
    method SyncItem(p: Pass, i: nat, result: CollectionResult)
      requires i < |p.snapshots| && channels.State().Shaped()
      modifies channels, result
      ensures
        var st' := ItemStep(p, PassState(old(channels.State()), old(result.Counters())), i);
        channels.State() == st'.tables && result.Counters() == st'.tally
      ensures
        result.errors == old(result.errors) + if i in p.failedItems then [ItemError(p.snapshots[i].externalId)] else []
    {
      hide Upserted, UpsertOutcome, Counted;
      var s := p.snapshots[i];
      var outcome := UpsertInSavepoint(s, ServerOf(p, s), p.adapter, p.at, i in p.failedItems);
      if outcome.Some? {
        result.CountAction(outcome.value.action);
      } else {
        result.RecordFailure(ItemError(s.externalId));
      }
    }

    /** `seen_by_source[source_id].add(external_id)` on a dictionary that makes missing keys. */
    method NoteSeen(p: Pass, i: nat, order: seq<string>, seen: map<string, set<string>>)
      returns (order': seq<string>, seen': map<string, set<string>>)
      requires i < |p.snapshots| && SeenUpTo(p, i, order, seen)
      ensures SeenUpTo(p, i + 1, order', seen')
    {
      hide SeenUpTo;
      var source := SourceOf(p.snapshots[i], p.adapter);
      order', seen' := order, seen;
      if source !in seen' {
        order', seen' := order' + [source], seen'[source := {}];
      }
      seen' := seen'[source := seen'[source] + {p.snapshots[i].externalId}];
      assert seen' == seen[source := (if source in seen then seen[source] else {}) + {p.snapshots[i].externalId}];
      NotingKeeps(p, i, order, seen);
    }

    /** One round of the second loop: a savepoint around one reconciliation. */
    method ReconcileInSavepoint(p: Pass, source: string, seen: set<string>, result: CollectionResult)
      requires channels.State().Shaped() && seen == Seen(p, source)
      modifies channels, result
      ensures
        var st' := SourceStep(p, PassState(old(channels.State()), old(result.Counters())), source);
        channels.State() == st'.tables && result.Counters() == st'.tally
      ensures result.errors == old(result.errors) + if source in p.failedSources then [SourceError(source)] else []
    {
      var saved := channels.channels;
      var deactivated, archived := channels.ReconcileMissing(source, seen, p.at, p.retention);
      if source in p.failedSources {
        channels.channels := saved;
        result.RecordFailure(SourceError(source));
      } else {
        result.channelsDeactivated := result.channelsDeactivated + deactivated;
        result.channelsArchived := result.channelsArchived + archived;
      }
    }
  }

  /** The final counters, one by one. */
  lemma {:induction false} ReportIsRight(p: Pass, t: Tables)
    requires t.Shaped()
    ensures
      var end, n := FullPass(p, t), |p.snapshots|;
      var c := end.tally;
      && c.failed == |ItemErrors(p, n)| + |SourceErrors(p, |Sources(p)|)|
      && c.created == Successes(p, t, n, Created) && c.updated == Successes(p, t, n, Updated)
      && c.reactivated == Successes(p, t, n, Reactivated) && c.noChange == Successes(p, t, n, Unchanged)
      && c.synced + |ItemErrors(p, n)| == n
      && Count(end.tables.channels, IsActive) + c.deactivated == Count(t.channels, IsActive) + c.created + c.reactivated
      && Count(end.tables.channels, IsArchived) + Reobserved(p, t, n) == Count(t.channels, IsArchived) + c.archived
  {
    PassConserves(p, t);
    ItemErrorsTellFailures(p, t, |p.snapshots|, ItemError(""));
    SourceErrorsTellFailures(p, |Sources(p)|, SourceError(""));
    CountersTellActions(p, t, |p.snapshots|);
    ItemsTally(p, t, |p.snapshots|);
    SourcesConserve(p, ItemsDone(p, t), |Sources(p)|);
  }

  /** The keys of `seen_by_source` after `n` snapshots. */
  function SeenKeys(p: Pass, n: nat): set<string>
    requires n <= |p.snapshots|
  {
    if n == 0 then {p.adapter} else SeenKeys(p, n - 1) + {SourceAt(p, n - 1)}
  }

  lemma {:induction false} KeysOfOrder(p: Pass, n: nat, source: string)
    requires n <= |p.snapshots|
    ensures source in SeenKeys(p, n) <==> source in SeenOrder(p, n)
  {
    if n > 0 {
      KeysOfOrder(p, n - 1, source);
    }
  }

  /** The dictionary agrees with the snapshots read so far. */
  ghost predicate SeenUpTo(p: Pass, n: nat, order: seq<string>, seen: map<string, set<string>>)
    requires n <= |p.snapshots|
  {
    && order == SeenOrder(p, n)
    && seen.Keys == SeenKeys(p, n)
    && (forall source :: source in seen ==> seen[source] == SeenIds(p, n, source))
  }

  /** What the first loop has done after `n` snapshots. */
  ghost predicate ItemsSynced(p: Pass, t: Tables, n: nat, now: Tables, counters: Tally, errors: seq<SyncError>,
                              order: seq<string>, seen: map<string, set<string>>)
    requires t.Shaped() && n <= |p.snapshots|
  {
    && PassState(now, counters) == AfterItems(p, t, n)
    && errors == ItemErrors(p, n)
    && SeenUpTo(p, n, order, seen)
  }

  lemma {:induction false} NothingSynced(p: Pass, t: Tables)
    requires t.Shaped()
    ensures ItemsSynced(p, t, 0, t, ZERO, [], [p.adapter], map[p.adapter := {}])
  {
    FirstKey(p);
  }

  lemma {:induction false} SyncedAtEnd(p: Pass, t: Tables, now: Tables, counters: Tally, errors: seq<SyncError>,
                                       order: seq<string>, seen: map<string, set<string>>)
    requires t.Shaped() && ItemsSynced(p, t, |p.snapshots|, now, counters, errors, order, seen)
    ensures PassState(now, counters) == ItemsDone(p, t) && errors == ItemErrors(p, |p.snapshots|)
    ensures order == Sources(p)
    ensures forall source :: source in order ==> source in seen && seen[source] == Seen(p, source)
  {
    SeenAtEnd(p, order, seen);
  }

  lemma {:induction false} NotingKeeps(p: Pass, i: nat, order: seq<string>, seen: map<string, set<string>>)
    requires i < |p.snapshots| && SeenUpTo(p, i, order, seen)
    ensures
      var source, ext := SourceAt(p, i), p.snapshots[i].externalId;
      SeenUpTo(p, i + 1, if source in seen then order else order + [source],
               seen[source := (if source in seen then seen[source] else {}) + {ext}])
  {
    var source := SourceAt(p, i);
    KeysOfOrder(p, i, source);
    if source !in seen {
      SeenInKnownSources(p, i, source);
    }
  }

  lemma {:induction false} FirstKey(p: Pass)
    ensures SeenUpTo(p, 0, [p.adapter], map[p.adapter := {}])
  {
  }

  lemma {:induction false} SeenAtEnd(p: Pass, order: seq<string>, seen: map<string, set<string>>)
    requires SeenUpTo(p, |p.snapshots|, order, seen)
    ensures order == Sources(p)
    ensures forall source :: source in order ==> source in seen && seen[source] == Seen(p, source)
  {
    forall source | source in order
      ensures source in seen
    {
      KeysOfOrder(p, |p.snapshots|, source);
    }
  }
}
