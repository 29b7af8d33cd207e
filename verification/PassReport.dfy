/** What a synchronisation pass reports: its errors, its counters, and the seen sets, read from the snapshots alone. */
module PassReport {
  import opened Wrappers
  import opened ChannelSync
  import opened SyncPass

  /** What `_record_error` appends: the failing item or the failing source. */
  datatype SyncError = ItemError(externalId: string) | SourceError(sourceId: string)

  /** The errors of a pass, in the order they are met. */
  function ItemErrors(p: Pass, n: nat): seq<SyncError>
    requires n <= |p.snapshots|
  {
    if n == 0 then []
    else ItemErrors(p, n - 1) + if n - 1 in p.failedItems then [ItemError(p.snapshots[n - 1].externalId)] else []
  }

  function SourceErrors(p: Pass, k: nat): seq<SyncError>
    requires k <= |Sources(p)|
  {
    if k == 0 then []
    else SourceErrors(p, k - 1) + if Sources(p)[k - 1] in p.failedSources then [SourceError(Sources(p)[k - 1])] else []
  }

  // ----- Errors -----

  /** There is one error for each item that failed, and it names that item. */
  lemma {:induction false} ItemErrorsTellFailures(p: Pass, t: Tables, n: nat, e: SyncError)
    requires t.Shaped() && n <= |p.snapshots|
    ensures |ItemErrors(p, n)| == AfterItems(p, t, n).tally.failed
    ensures e in ItemErrors(p, n) <==>
            exists i :: 0 <= i < n && i in p.failedItems && e == ItemError(p.snapshots[i].externalId)
  {
    hide UpsertAt, OutcomeAt;
    if n > 0 {
      ItemErrorsTellFailures(p, t, n - 1, e);
    }
  }

  /** And one for each source whose reconciliation failed. */
  lemma {:induction false} SourceErrorsTellFailures(p: Pass, k: nat, e: SyncError)
    requires k <= |Sources(p)|
    ensures |SourceErrors(p, k)| == FailedAmong(p, k)
    ensures e in SourceErrors(p, k) <==>
            exists i :: 0 <= i < k && Sources(p)[i] in p.failedSources && e == SourceError(Sources(p)[i])
  {
    if k > 0 {
      SourceErrorsTellFailures(p, k - 1, e);
    }
  }

  // ----- Counters -----

  /** Number of the first `n` snapshots that succeed with the action. */
  function Successes(p: Pass, t: Tables, n: nat, action: Action): nat
    requires t.Shaped() && n <= |p.snapshots|
  {
    if n == 0 then 0
    else
      Successes(p, t, n - 1, action)
      + if n - 1 !in p.failedItems && OutcomeAt(p, AfterItems(p, t, n - 1).tables, n - 1).action == action then 1 else 0
  }

  /** Every action has its own counter. */
  lemma {:induction false} CountersTellActions(p: Pass, t: Tables, n: nat)
    requires t.Shaped() && n <= |p.snapshots|
    ensures
      var c := AfterItems(p, t, n).tally;
      && c.created == Successes(p, t, n, Created) && c.updated == Successes(p, t, n, Updated)
      && c.reactivated == Successes(p, t, n, Reactivated) && c.noChange == Successes(p, t, n, Unchanged)
      && c.synced == c.created + c.updated + c.reactivated + c.noChange
  {
    hide UpsertAt, OutcomeAt;
    if n > 0 {
      CountersTellActions(p, t, n - 1);
    }
  }

  // ----- Seen sets -----

  /** The seen set of a source holds exactly the external ids of the snapshots that belong to it, failed ones included. */
  lemma {:induction false} SeenIsExact(p: Pass, n: nat, source: string, ext: string)
    requires n <= |p.snapshots|
    ensures ext in SeenIds(p, n, source) <==>
            exists i :: 0 <= i < n && SourceAt(p, i) == source && p.snapshots[i].externalId == ext
  {
    if n > 0 {
      SeenIsExact(p, n - 1, source, ext);
    }
  }

  /** The sources reconciled are the adapter's and those of the snapshots, each once; an unnamed source is the adapter's. */
  lemma {:induction false} SourcesAreExact(p: Pass, n: nat, source: string)
    requires n <= |p.snapshots|
    ensures source in SeenOrder(p, n) <==>
            || source == p.adapter
            || exists i :: 0 <= i < n && p.snapshots[i].sourceId.Some? && p.snapshots[i].sourceId.value != ""
                           && p.snapshots[i].sourceId.value == source
  {
    if n > 0 {
      SourcesAreExact(p, n - 1, source);
    }
  }
}
