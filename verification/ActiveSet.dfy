/**
 What a pass leaves active, inactive and archived, row by row, whatever fails in it.
 */
module ActiveSet {
  import opened Wrappers
  import opened CategoryHistory
  import opened ChannelSync
  import opened SyncPass
  import opened ChannelLife

  /** Channel `id` was written by a successful upsert among the first `n` snapshots. */
  predicate Observed(p: Pass, t: Tables, n: nat, id: nat)
    requires t.Shaped() && n <= |p.snapshots|
  {
    n > 0 && (Observed(p, t, n - 1, id) || (n - 1 !in p.failedItems && WrittenAt(p, t, n - 1) == id))
  }

  /** The id that snapshot `i` writes when its savepoint succeeds. */
  function WrittenAt(p: Pass, t: Tables, i: nat): nat
    requires t.Shaped() && i < |p.snapshots|
  {
    OutcomeAt(p, AfterItems(p, t, i).tables, i).channelId
  }

  predicate ObservedInPass(p: Pass, t: Tables, id: nat)
    requires t.Shaped()
  {
    Observed(p, t, |p.snapshots|, id)
  }

  lemma {:induction false} ObservedIsSomeSuccess(p: Pass, t: Tables, n: nat, i: nat)
    requires t.Shaped() && i < n <= |p.snapshots| && i !in p.failedItems
    ensures Observed(p, t, n, WrittenAt(p, t, i))
  {
    if i < n - 1 {
      ObservedIsSomeSuccess(p, t, n - 1, i);
    }
  }

  /** The row carries the marks of an observation made in this pass, and its external id is in its source's seen set. */
  predicate Fresh(p: Pass, n: nat, row: Channel)
    requires n <= |p.snapshots|
  {
    && row.active && row.inactiveSinceAt.None? && row.archivedAt.None? && row.lastSeenAt == p.at
    && row.externalId in SeenIds(p, n, row.sourceId)
  }

  lemma {:induction false} SeenIdsGrow(p: Pass, n: nat, source: string, ext: string)
    requires 0 < n <= |p.snapshots| && ext in SeenIds(p, n - 1, source)
    ensures ext in SeenIds(p, n, source)
  {
  }

  lemma {:induction false} FreshStays(p: Pass, n: nat, row: Channel)
    requires 0 < n <= |p.snapshots| && Fresh(p, n - 1, row)
    ensures Fresh(p, n, row)
  {
    SeenIdsGrow(p, n, row.sourceId, row.externalId);
  }

  /** One round writes a fresh row at its id, if it succeeds, and leaves every other row alone. */
  lemma {:induction false} StepOnRow(p: Pass, st: PassState, i: nat, id: nat)
    requires st.tables.Shaped() && i < |p.snapshots| && id < |ItemStep(p, st, i).tables.channels|
    ensures
      var rows, row' := st.tables.channels, ItemStep(p, st, i).tables.channels[id];
      if i !in p.failedItems && id == OutcomeAt(p, st.tables, i).channelId then Fresh(p, i + 1, row')
      else id < |rows| && row' == rows[id]
  {
  }

  /** After the item loop a row is either fresh or exactly as the pass found it. */
  lemma {:induction false} ItemsOnRow(p: Pass, t: Tables, n: nat, id: nat)
    requires t.Shaped() && n <= |p.snapshots| && id < |AfterItems(p, t, n).tables.channels|
    ensures
      var row := AfterItems(p, t, n).tables.channels[id];
      if Observed(p, t, n, id) then Fresh(p, n, row)
      else id < |t.channels| && row == t.channels[id]
  {
    hide ItemStep, OutcomeAt, Fresh;
    if n > 0 {
      var before := AfterItems(p, t, n - 1);
      StepOnRow(p, before, n - 1, id);
      if n - 1 in p.failedItems || id != WrittenAt(p, t, n - 1) {
        ItemsOnRow(p, t, n - 1, id);
        if Observed(p, t, n - 1, id) {
          FreshStays(p, n, before.tables.channels[id]);
        }
      }
    }
  }

  /** Settling never touches a fresh row. */
  lemma {:induction false} FreshRowsSettle(p: Pass, row: Channel)
    requires Fresh(p, |p.snapshots|, row)
    ensures Settled(p, row) == row
  {
  }

  /** The whole pass on one row: fresh if it was observed, otherwise the old row settled. */
  lemma {:induction false} PassRow(p: Pass, t: Tables, id: nat)
    requires t.Shaped() && id < |FullPass(p, t).tables.channels|
    ensures
      var row' := FullPass(p, t).tables.channels[id];
      if ObservedInPass(p, t, id) then Fresh(p, |p.snapshots|, row')
      else id < |t.channels| && row' == Settled(p, t.channels[id])
  {
    PassOnRow(p, t, id);
    ItemsOnRow(p, t, |p.snapshots|, id);
    if ObservedInPass(p, t, id) {
      FreshRowsSettle(p, ItemsDone(p, t).tables.channels[id]);
    }
  }

  /** Every row upserted with success is active at the end of the pass. */
  lemma {:induction false} SuccessfulUpsertsEndActive(p: Pass, t: Tables, i: nat)
    requires t.Shaped() && i < |p.snapshots| && i !in p.failedItems
    ensures
      var end, id := FullPass(p, t).tables.channels, WrittenAt(p, t, i);
      id < |end| && end[id].active && end[id].lastSeenAt == p.at
  {
    ObservedIsSomeSuccess(p, t, |p.snapshots|, i);
    WrittenIdsExist(p, t, |p.snapshots|, i);
    PassRow(p, t, WrittenAt(p, t, i));
  }

  lemma {:induction false} WrittenIdsExist(p: Pass, t: Tables, n: nat, i: nat)
    requires t.Shaped() && i < n <= |p.snapshots| && i !in p.failedItems
    ensures WrittenAt(p, t, i) < |AfterItems(p, t, n).tables.channels|
  {
    hide ItemStep, UpsertOutcome;
    StepIds(p, AfterItems(p, t, n - 1), n - 1);
    if i < n - 1 {
      WrittenIdsExist(p, t, n - 1, i);
    }
  }

  lemma {:induction false} StepIds(p: Pass, st: PassState, i: nat)
    requires st.tables.Shaped() && i < |p.snapshots|
    ensures |st.tables.channels| <= |ItemStep(p, st, i).tables.channels|
    ensures i !in p.failedItems ==> OutcomeAt(p, st.tables, i).channelId < |ItemStep(p, st, i).tables.channels|
  {
  }

  /** A pass deletes no row. */
  lemma {:induction false} PassKeepsRows(p: Pass, t: Tables)
    requires t.Shaped()
    ensures |t.channels| <= |FullPass(p, t).tables.channels|
  {
    ItemsKeepRows(p, t, |p.snapshots|);
  }

  lemma {:induction false} ItemsKeepRows(p: Pass, t: Tables, n: nat)
    requires t.Shaped() && n <= |p.snapshots|
    ensures |t.channels| <= |AfterItems(p, t, n).tables.channels|
  {
    hide ItemStep;
    if n > 0 {
      ItemsKeepRows(p, t, n - 1);
      StepIds(p, AfterItems(p, t, n - 1), n - 1);
    }
  }

  /** Every row active in a reconciled source was in that source's seen set. */
  lemma {:induction false} ActiveRowsWereSeen(p: Pass, t: Tables, id: nat)
    requires t.Shaped() && id < |FullPass(p, t).tables.channels|
    requires FullPass(p, t).tables.channels[id].active
    requires Reconciles(p, FullPass(p, t).tables.channels[id].sourceId)
    ensures
      var row := FullPass(p, t).tables.channels[id];
      row.externalId in Seen(p, row.sourceId)
  {
    PassRow(p, t, id);
  }

  /** A row is deactivated by a pass exactly when it was active, unobserved, and absent from a reconciled source. */
  lemma {:induction false} DeactivationRule(p: Pass, t: Tables, id: nat)
    requires t.Shaped() && id < |t.channels|
    ensures id < |FullPass(p, t).tables.channels|
    ensures
      var row, row' := t.channels[id], FullPass(p, t).tables.channels[id];
      row.active && !row'.active <==>
        && row.active && !ObservedInPass(p, t, id)
        && Reconciles(p, row.sourceId) && row.externalId !in Seen(p, row.sourceId)
  {
    PassKeepsRows(p, t);
    PassRow(p, t, id);
  }

  /** The channel a failed upsert names is never deactivated by that pass. */
  lemma {:induction false} FailedUpsertsKeepTheirChannel(p: Pass, t: Tables, i: nat, id: nat)
    requires t.Shaped() && i < |p.snapshots| && i in p.failedItems
    requires id < |t.channels|
    requires HasIdentity(t.channels[id], SourceAt(p, i), p.snapshots[i].externalId) && t.channels[id].active
    ensures id < |FullPass(p, t).tables.channels|
    ensures FullPass(p, t).tables.channels[id].active
  {
    PassKeepsRows(p, t);
    DeactivationRule(p, t, id);
  }

  /**
   The legacy row a failed upsert would have adopted has no such protection: it is deactivated exactly when the
   legacy source itself is reconciled without having shown that external id, and nothing else observed the row.
   */
  lemma {:induction false} FailedAdoptionRule(p: Pass, t: Tables, i: nat, id: nat)
    requires t.Shaped() && i < |p.snapshots| && i in p.failedItems
    requires id < |t.channels|
    requires HasIdentity(t.channels[id], LEGACY, p.snapshots[i].externalId) && t.channels[id].active
    ensures id < |FullPass(p, t).tables.channels|
    ensures !FullPass(p, t).tables.channels[id].active <==>
            && !ObservedInPass(p, t, id)
            && Reconciles(p, LEGACY) && p.snapshots[i].externalId !in Seen(p, LEGACY)
  {
    PassKeepsRows(p, t);
    DeactivationRule(p, t, id);
  }

  /**
   Rows of sources that the pass does not reconcile, because they were not seen or because their savepoint failed, change
   only by being observed; and in a source that was not seen only legacy rows can be, by adoption into a seen one.
   */
  lemma {:induction false} UnreconciledRowsStay(p: Pass, t: Tables, log: seq<seq<Observation>>, now: int, id: nat)
    requires Sound(t, log, now) && now <= p.at
    requires id < |t.channels| && !Reconciles(p, t.channels[id].sourceId)
    ensures id < |FullPass(p, t).tables.channels|
    ensures
      var row, row' := t.channels[id], FullPass(p, t).tables.channels[id];
      && (!ObservedInPass(p, t, id) ==> row' == row)
      && (ObservedInPass(p, t, id) && row.sourceId !in Sources(p) ==>
            row.sourceId == LEGACY && row'.sourceId in Sources(p))
  {
    PassKeepsRows(p, t);
    PassRow(p, t, id);
    PassSound(p, t, log, now);
    if ObservedInPass(p, t, id) {
      var row' := FullPass(p, t).tables.channels[id];
      assert row'.externalId in SeenIds(p, |p.snapshots|, row'.sourceId);
      if row'.sourceId !in Sources(p) {
        SeenInKnownSources(p, |p.snapshots|, row'.sourceId);
      }
    }
  }

  // ----- Archiving -----

  /**
   Exact archive rule of a pass. An observed row ends unarchived; an unobserved archived row stays archived as it was; any
   other row is archived, with this pass's instant, iff its source is reconciled, it is inactive already or absent now,
   its absence (from now on for an active row, since it was last seen if no instant is known) has lasted the grace period,
   and it was last seen as long ago as permanent channels, or else all others, are retained. Nothing else of the row
   changes by being archived.
   */
  lemma {:induction false} ArchiveRule(p: Pass, t: Tables, id: nat)
    requires t.Shaped() && id < |t.channels|
    ensures id < |FullPass(p, t).tables.channels|
    ensures
      var row, row' := t.channels[id], FullPass(p, t).tables.channels[id];
      if ObservedInPass(p, t, id) then row'.archivedAt.None? && row'.active
      else if row.archivedAt.Some? then row'.archivedAt == row.archivedAt && (!row.active ==> row' == row)
      else
        && (row'.archivedAt.Some? <==>
              && Reconciles(p, row.sourceId)
              && (row.active ==> row.externalId !in Seen(p, row.sourceId))
              && (row.active ==> p.retention.graceHours * HOUR <= 0)
              && (!row.active && row.inactiveSinceAt.Some? ==>
                    row.inactiveSinceAt.value <= p.at - p.retention.graceHours * HOUR)
              && (!row.active && row.inactiveSinceAt.None? ==> row.lastSeenAt <= p.at - p.retention.graceHours * HOUR)
              && (row.channelType.Permanent? ==> row.lastSeenAt <= p.at - p.retention.permanentDays * DAY)
              && (!row.channelType.Permanent? ==> row.lastSeenAt <= p.at - p.retention.eventDays * DAY))
        && (row'.archivedAt.Some? ==>
              && row'.archivedAt.value == p.at && row'.channelType.Archived?
              && row' == row.(archivedAt := row'.archivedAt, channelType := row'.channelType, active := false,
                              enabled := row'.enabled, currentServerId := row'.currentServerId,
                              inactiveSinceAt := if row.active then Some(p.at) else row.inactiveSinceAt))
  {
    PassKeepsRows(p, t);
    PassRow(p, t, id);
  }

  /** Archiving lasts until the next observation and no longer. */
  lemma {:induction false} ArchivedUntilObserved(p: Pass, t: Tables, id: nat)
    requires t.Shaped() && id < |t.channels| && LifeCycle(t.channels[id])
    requires t.channels[id].archivedAt.Some?
    ensures id < |FullPass(p, t).tables.channels|
    ensures
      var row' := FullPass(p, t).tables.channels[id];
      && (row'.archivedAt.Some? <==> !ObservedInPass(p, t, id))
      && (row'.archivedAt.Some? ==> row' == t.channels[id])
  {
    PassKeepsRows(p, t);
    ArchiveRule(p, t, id);
  }

  // ----- Concrete passes -----

  function SampleSnapshot(ext: string, source: string): ChannelSnapshot {
    ChannelSnapshot(ext, "n", Some(source), Category(None, None), None, Permanent, None, None, None, None, None, None,
                    None, true)
  }

  function SampleRow(ext: string, source: string, inactiveSince: Option<int>): Channel {
    Channel(source, ext, "n", Category(None, None), Permanent, None, None, 0, 0, inactiveSince.None?, inactiveSince, None,
            None, None, None, None, inactiveSince.None?)
  }

  /** Ten days after they were last seen, a permanent channel is kept and an event channel is archived by default. */
  lemma {:induction false} PermanentChannelsAreKeptLonger()
    ensures
      var p := Pass("a", [], map[], 864_000_000_000, Retention(6, 7, 30), {}, {});
      var event := SampleRow("y", "a", Some(0)).(channelType := Event);
      var t := Tables([SampleRow("x", "a", Some(0)), event], [], [], [[], []]);
      var rows := FullPass(p, t).tables.channels;
      |rows| == 2 && rows[0] == t.channels[0] && rows[1].archivedAt == Some(864_000_000_000)
  {
    var p := Pass("a", [], map[], 864_000_000_000, Retention(6, 7, 30), {}, {});
    var event := SampleRow("y", "a", Some(0)).(channelType := Event);
    var t := Tables([SampleRow("x", "a", Some(0)), event], [], [], [[], []]);
    assert AfterItems(p, t, 0).tables == t;
    assert !Observed(p, t, 0, 0) && !Observed(p, t, 0, 1);
    ArchiveRule(p, t, 0);
    ArchiveRule(p, t, 1);
    PassRow(p, t, 0);
  }

  /** Being in the seen set does not stop the archiving loop: a failed upsert leaves its inactive channel to be archived. */
  lemma {:induction false} FailedUpsertDoesNotBlockArchiving()
    ensures
      var p := Pass("a", [SampleSnapshot("x", "a")], map[], 100 * DAY, Retention(6, 7, 30), {0}, {});
      var t := Tables([SampleRow("x", "a", Some(0))], [], [], [[]]);
      && "x" in Seen(p, "a")
      && |FullPass(p, t).tables.channels| == 1
      && FullPass(p, t).tables.channels[0].archivedAt == Some(100 * DAY)
  {
    var p := Pass("a", [SampleSnapshot("x", "a")], map[], 100 * DAY, Retention(6, 7, 30), {0}, {});
    var t := Tables([SampleRow("x", "a", Some(0))], [], [], [[]]);
    assert SourceAt(p, 0) == "a";
    assert AfterItems(p, t, 0).tables == t;
    assert AfterItems(p, t, 1).tables == t;
    assert !Observed(p, t, 0, 0) && !Observed(p, t, 1, 0);
    ArchiveRule(p, t, 0);
  }

  /** A failed adoption can cost the legacy row: another snapshot makes the legacy source reconcile without it. */
  lemma {:induction false} FailedAdoptionCanDeactivate()
    ensures
      var p := Pass("a", [SampleSnapshot("x", "a"), SampleSnapshot("y", LEGACY)], map[], 5, Retention(6, 7, 30), {0, 1}, {});
      var t := Tables([SampleRow("x", LEGACY, None)], [], [], [[]]);
      && |FullPass(p, t).tables.channels| == 1
      && t.channels[0].active
      && !FullPass(p, t).tables.channels[0].active
  {
    var p := Pass("a", [SampleSnapshot("x", "a"), SampleSnapshot("y", LEGACY)], map[], 5, Retention(6, 7, 30), {0, 1}, {});
    var t := Tables([SampleRow("x", LEGACY, None)], [], [], [[]]);
    assert SourceAt(p, 0) == "a" && SourceAt(p, 1) == LEGACY;
    assert AfterItems(p, t, 0).tables == t;
    assert AfterItems(p, t, 1).tables == t;
    assert AfterItems(p, t, 2).tables == t;
    assert SeenIds(p, 1, LEGACY) == {} && SeenIds(p, 2, LEGACY) == {"y"};
    assert !Observed(p, t, 0, 0) && !Observed(p, t, 1, 0) && !Observed(p, t, 2, 0);
    FailedAdoptionRule(p, t, 0, 0);
  }
}
