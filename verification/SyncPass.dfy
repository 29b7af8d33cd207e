/**
 One synchronisation pass (app/collectors/collection.py, `_sync_channels`): every snapshot is upserted inside its own
 savepoint, then every source seen is reconciled inside its own savepoint. A failing savepoint leaves the tables as
 they were; which savepoints fail is part of the pass and arbitrary.
 */
module SyncPass {
  import opened Wrappers
  import opened ChannelSync

  datatype Pass = Pass(
    adapter: string,
    snapshots: seq<ChannelSnapshot>,
    serverIds: map<string, nat>,
    at: int,
    retention: Retention,
    failedItems: set<nat>,
    failedSources: set<string>)

  /** The channel counters of `CollectionResult`. */
  datatype Tally = Tally(
    synced: nat,
    failed: nat,
    created: nat,
    updated: nat,
    reactivated: nat,
    noChange: nat,
    deactivated: nat,
    archived: nat)

  const ZERO := Tally(0, 0, 0, 0, 0, 0, 0, 0)

  datatype PassState = PassState(tables: Tables, tally: Tally)

  // ----- The two loops, as functions of how far they have gone -----

  function ServerOf(p: Pass, s: ChannelSnapshot): Option<nat> {
    var ext := OrElse(s.serverExternalId, "");
    if ext != "" && ext in p.serverIds then Some(p.serverIds[ext]) else None
  }

  function SourceAt(p: Pass, i: nat): string
    requires i < |p.snapshots|
  {
    SourceOf(p.snapshots[i], p.adapter)
  }

  function Counted(c: Tally, action: Action): Tally {
    var c' := c.(synced := c.synced + 1);
    match action
    case Created => c'.(created := c.created + 1)
    case Updated => c'.(updated := c.updated + 1)
    case Reactivated => c'.(reactivated := c.reactivated + 1)
    case Unchanged => c'.(noChange := c.noChange + 1)
  }

  /** One round of the item loop. */
  function ItemStep(p: Pass, st: PassState, i: nat): (st': PassState)
    requires st.tables.Shaped() && i < |p.snapshots|
    ensures st'.tables.Shaped()
  {
    if i in p.failedItems then st.(tally := st.tally.(failed := st.tally.failed + 1))
    else PassState(UpsertAt(p, st.tables, i), Counted(st.tally, OutcomeAt(p, st.tables, i).action))
  }

  /** State after the first `n` snapshots. */
  function AfterItems(p: Pass, t: Tables, n: nat): (st: PassState)
    requires t.Shaped() && n <= |p.snapshots|
    ensures st.tables.Shaped()
  {
    if n == 0 then PassState(t, ZERO) else ItemStep(p, AfterItems(p, t, n - 1), n - 1)
  }

  function UpsertAt(p: Pass, t: Tables, i: nat): Tables
    requires t.Shaped() && i < |p.snapshots|
  {
    Upserted(t, p.snapshots[i], ServerOf(p, p.snapshots[i]), p.adapter, p.at)
  }

  function OutcomeAt(p: Pass, t: Tables, i: nat): Outcome
    requires i < |p.snapshots|
  {
    UpsertOutcome(t, p.snapshots[i], ServerOf(p, p.snapshots[i]), p.adapter, p.at)
  }

  /** Keys of `seen_by_source` after `n` snapshots, in insertion order: the adapter's own name comes first. */
  function SeenOrder(p: Pass, n: nat): (order: seq<string>)
    requires n <= |p.snapshots|
    ensures p.adapter in order
    ensures forall i :: 0 <= i < n ==> SourceAt(p, i) in order
    ensures forall a, b :: 0 <= a < b < |order| ==> order[a] != order[b]
  {
    if n == 0 then [p.adapter]
    else
      var order := SeenOrder(p, n - 1);
      if SourceAt(p, n - 1) in order then order else order + [SourceAt(p, n - 1)]
  }

  /** `seen_by_source[source]` after `n` snapshots: the external ids of its snapshots, upserted or not. */
  function SeenIds(p: Pass, n: nat, source: string): (ids: set<string>)
    requires n <= |p.snapshots|
    ensures forall i :: 0 <= i < n && SourceAt(p, i) == source ==> p.snapshots[i].externalId in ids
  {
    if n == 0 then {}
    else
      var ids := SeenIds(p, n - 1, source);
      if SourceAt(p, n - 1) == source then ids + {p.snapshots[n - 1].externalId} else ids
  }

  /** Ids are seen only in sources that have been met. */
  lemma {:induction false} SeenInKnownSources(p: Pass, n: nat, source: string)
    requires n <= |p.snapshots| && source !in SeenOrder(p, n)
    ensures SeenIds(p, n, source) == {}
  {
    if n > 0 {
      assert SourceAt(p, n - 1) != source;
      SeenInKnownSources(p, n - 1, source);
    }
  }

  function Sources(p: Pass): seq<string> {
    SeenOrder(p, |p.snapshots|)
  }

  function Seen(p: Pass, source: string): set<string> {
    SeenIds(p, |p.snapshots|, source)
  }

  /** One round of the source loop. */
  function SourceStep(p: Pass, st: PassState, source: string): (end: PassState)
    requires st.tables.Shaped()
    ensures |end.tables.channels| == |st.tables.channels|
    ensures end.tables == st.tables.(channels := end.tables.channels)
  {
    var c, rows, seen := st.tally, st.tables.channels, Seen(p, source);
    if source in p.failedSources then st.(tally := c.(failed := c.failed + 1))
    else
      PassState(
        st.tables.(channels := Reconciled(rows, source, seen, p.at, p.retention)),
        c.(deactivated := c.deactivated + CountDeactivated(rows, source, seen),
           archived := c.archived + CountNewlyArchived(rows, source, seen, p.at, p.retention)))
  }

  /** State after reconciling the first `k` sources. */
  function AfterSources(p: Pass, st: PassState, k: nat): (end: PassState)
    requires st.tables.Shaped() && k <= |Sources(p)|
    ensures |end.tables.channels| == |st.tables.channels|
    ensures end.tables == st.tables.(channels := end.tables.channels)
  {
    if k == 0 then st else SourceStep(p, AfterSources(p, st, k - 1), Sources(p)[k - 1])
  }

  function ItemsDone(p: Pass, t: Tables): PassState
    requires t.Shaped()
  {
    AfterItems(p, t, |p.snapshots|)
  }

  /** The whole pass. */
  function FullPass(p: Pass, t: Tables): PassState
    requires t.Shaped()
  {
    AfterSources(p, ItemsDone(p, t), |Sources(p)|)
  }

  // ----- Conservation -----

  function Count(rows: seq<Channel>, counts: Channel -> bool): nat {
    if rows == [] then 0
    else
      var last := |rows| - 1;
      Count(rows[..last], counts) + if counts(rows[last]) then 1 else 0
  }

  predicate IsActive(row: Channel) { row.active }

  predicate IsArchived(row: Channel) { row.archivedAt.Some? }

  /** Number of successful upserts among the first `n` snapshots that hit an archived row. */
  function Reobserved(p: Pass, t: Tables, n: nat): nat
    requires t.Shaped() && n <= |p.snapshots|
  {
    if n == 0 then 0
    else
      Reobserved(p, t, n - 1)
      + if n - 1 !in p.failedItems && HitsArchived(p, AfterItems(p, t, n - 1).tables, n - 1) then 1 else 0
  }

  /** Number of the first `k` sources whose reconciliation fails. */
  function FailedAmong(p: Pass, k: nat): nat
    requires k <= |Sources(p)|
  {
    if k == 0 then 0 else FailedAmong(p, k - 1) + if Sources(p)[k - 1] in p.failedSources then 1 else 0
  }

  lemma {:induction false} CountReplaced(rows: seq<Channel>, i: nat, row: Channel, counts: Channel -> bool)
    requires i < |rows|
    ensures Count(rows[i := row], counts) ==
            Count(rows, counts) - (if counts(rows[i]) then 1 else 0) + if counts(row) then 1 else 0
  {
    var last := |rows| - 1;
    if i < last {
      CountReplaced(rows[..last], i, row, counts);
      assert rows[i := row][..last] == rows[..last][i := row];
    } else {
      assert rows[i := row][..last] == rows[..last];
    }
  }

  lemma CountAppended(rows: seq<Channel>, row: Channel, counts: Channel -> bool)
    ensures Count(rows + [row], counts) == Count(rows, counts) + if counts(row) then 1 else 0
  {
  }

  predicate HitsArchived(p: Pass, t: Tables, i: nat)
    requires i < |p.snapshots|
  {
    var target := Target(t.channels, SourceAt(p, i), p.snapshots[i].externalId);
    target.Some? && t.channels[target.value].archivedAt.Some?
  }

  /** What one successful upsert does to the numbers of rows, of active rows and of archived rows. */
  lemma {:induction false} UpsertCounts(p: Pass, t: Tables, i: nat)
    requires t.Shaped() && i < |p.snapshots|
    ensures
      var rows, rows' := t.channels, UpsertAt(p, t, i).channels;
      var action := OutcomeAt(p, t, i).action;
      && |rows'| == |rows| + (if action.Created? then 1 else 0)
      && Count(rows', IsActive) == Count(rows, IsActive) + (if action.Created? || action.Reactivated? then 1 else 0)
      && Count(rows', IsArchived) + (if HitsArchived(p, t, i) then 1 else 0) == Count(rows, IsArchived)
  {
    var rows, rows' := t.channels, UpsertAt(p, t, i).channels;
    var target := Target(rows, SourceAt(p, i), p.snapshots[i].externalId);
    if target.Some? {
      CountReplaced(rows, target.value, rows'[target.value], IsActive);
      CountReplaced(rows, target.value, rows'[target.value], IsArchived);
    } else {
      CountAppended(rows, rows'[|rows|], IsActive);
      CountAppended(rows, rows'[|rows|], IsArchived);
    }
  }

  /** The counters account for `n` snapshots and for every success among them. */
  predicate Accounts(c: Tally, n: nat) {
    && n == c.synced + c.failed
    && c.synced == c.created + c.updated + c.reactivated + c.noChange
    && c.deactivated == c.archived == 0
  }

  lemma {:induction false} StepAccounts(p: Pass, st: PassState, i: nat)
    requires st.tables.Shaped() && i < |p.snapshots| && Accounts(st.tally, i)
    ensures Accounts(ItemStep(p, st, i).tally, i + 1)
  {
    hide UpsertAt, OutcomeAt;
  }

  /** The item loop accounts for every snapshot and every success. */
  lemma {:induction false} ItemsTally(p: Pass, t: Tables, n: nat)
    requires t.Shaped() && n <= |p.snapshots|
    ensures Accounts(AfterItems(p, t, n).tally, n)
  {
    hide ItemStep;
    if n > 0 {
      ItemsTally(p, t, n - 1);
      StepAccounts(p, AfterItems(p, t, n - 1), n - 1);
    }
  }

  /** Counters `c` explain how `start` became `rows`, after `again` archived rows were observed again. */
  ghost predicate Balanced(start: seq<Channel>, rows: seq<Channel>, c: Tally, again: nat) {
    && |rows| == |start| + c.created
    && Count(rows, IsActive) == Count(start, IsActive) + c.created + c.reactivated
    && Count(rows, IsArchived) + again == Count(start, IsArchived)
  }

  lemma {:induction false} StepBalances(p: Pass, st: PassState, i: nat, start: seq<Channel>, again: nat)
    requires st.tables.Shaped() && i < |p.snapshots| && Balanced(start, st.tables.channels, st.tally, again)
    ensures
      var st' := ItemStep(p, st, i);
      Balanced(start, st'.tables.channels, st'.tally,
               again + if i !in p.failedItems && HitsArchived(p, st.tables, i) then 1 else 0)
  {
    UpsertCounts(p, st.tables, i);
  }

  /** The item loop's counters explain the change in rows, active rows and archived rows. */
  lemma {:induction false} ItemsBalance(p: Pass, t: Tables, n: nat)
    requires t.Shaped() && n <= |p.snapshots|
    ensures Balanced(t.channels, AfterItems(p, t, n).tables.channels, AfterItems(p, t, n).tally, Reobserved(p, t, n))
  {
    hide ItemStep, HitsArchived, Count;
    if n > 0 {
      ItemsBalance(p, t, n - 1);
      StepBalances(p, AfterItems(p, t, n - 1), n - 1, t.channels, Reobserved(p, t, n - 1));
    }
  }

  lemma {:induction false} DeactivationCounts(rows: seq<Channel>, source: string, seen: set<string>, at: int)
    ensures
      var rows' := Deactivated(rows, source, seen, at);
      && Count(rows', IsActive) + CountDeactivated(rows, source, seen) == Count(rows, IsActive)
      && Count(rows', IsArchived) == Count(rows, IsArchived)
  {
    if rows != [] {
      var last := |rows| - 1;
      DeactivationCounts(rows[..last], source, seen, at);
      assert Deactivated(rows, source, seen, at)[..last] == Deactivated(rows[..last], source, seen, at);
    }
  }

  lemma {:induction false} ArchivingCounts(rows: seq<Channel>, source: string, at: int, r: Retention)
    ensures
      var rows' := ArchivedRows(rows, source, at, r);
      && Count(rows', IsActive) == Count(rows, IsActive)
      && Count(rows', IsArchived) == Count(rows, IsArchived) + CountArchives(rows, source, at, r)
  {
    if rows != [] {
      var last := |rows| - 1;
      ArchivingCounts(rows[..last], source, at, r);
      assert ArchivedRows(rows, source, at, r)[..last] == ArchivedRows(rows[..last], source, at, r);
    }
  }

  lemma {:induction false} SourceStepConserves(p: Pass, st: PassState, source: string)
    requires st.tables.Shaped()
    ensures
      var end := SourceStep(p, st, source);
      && end.tally == st.tally.(failed := end.tally.failed, deactivated := end.tally.deactivated, archived := end.tally.archived)
      && end.tally.failed == st.tally.failed + (if source in p.failedSources then 1 else 0)
      && Count(end.tables.channels, IsActive) + end.tally.deactivated == Count(st.tables.channels, IsActive) + st.tally.deactivated
      && Count(end.tables.channels, IsArchived) + st.tally.archived == Count(st.tables.channels, IsArchived) + end.tally.archived
  {
    var rows := st.tables.channels;
    DeactivationCounts(rows, source, Seen(p, source), p.at);
    ArchivingCounts(Deactivated(rows, source, Seen(p, source), p.at), source, p.at, p.retention);
  }

  lemma {:induction false} SourcesConserve(p: Pass, st: PassState, k: nat)
    requires st.tables.Shaped() && k <= |Sources(p)|
    requires st.tally.deactivated == st.tally.archived == 0
    ensures
      var end := AfterSources(p, st, k);
      var c := end.tally;
      && c == st.tally.(failed := c.failed, deactivated := c.deactivated, archived := c.archived)
      && c.failed == st.tally.failed + FailedAmong(p, k)
      && Count(end.tables.channels, IsActive) + c.deactivated == Count(st.tables.channels, IsActive)
      && Count(end.tables.channels, IsArchived) == Count(st.tables.channels, IsArchived) + c.archived
  {
    hide SourceStep, Count;
    if k > 0 {
      SourcesConserve(p, st, k - 1);
      SourceStepConserves(p, AfterSources(p, st, k - 1), Sources(p)[k - 1]);
    }
  }

  /** Conservation over a whole pass, whatever fails in it. */
  lemma PassConserves(p: Pass, t: Tables)
    requires t.Shaped()
    ensures
      var end := FullPass(p, t);
      var c := end.tally;
      var itemFailures := ItemsDone(p, t).tally.failed;
      && |p.snapshots| == c.synced + itemFailures
      && c.failed == itemFailures + FailedAmong(p, |Sources(p)|)
      && c.synced == c.created + c.updated + c.reactivated + c.noChange
      && |end.tables.channels| == |t.channels| + c.created
      && Count(end.tables.channels, IsActive) + c.deactivated == Count(t.channels, IsActive) + c.created + c.reactivated
      && Count(end.tables.channels, IsArchived) + Reobserved(p, t, |p.snapshots|)
         == Count(t.channels, IsArchived) + c.archived
  {
    ItemsTally(p, t, |p.snapshots|);
    ItemsBalance(p, t, |p.snapshots|);
    SourcesConserve(p, ItemsDone(p, t), |Sources(p)|);
  }
}
