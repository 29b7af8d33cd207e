/**
 What passes keep over whole runs: identities, the life cycle of a row, the exact archive rule, the active set and
 the category history.
 */
module ChannelLife {
  import opened Wrappers
  import opened CategoryHistory
  import opened ChannelSync
  import opened SyncPass

  // ----- Invariants -----

  ghost predicate UniqueIdentities(rows: seq<Channel>) {
    forall i, j :: 0 <= i < j < |rows| ==> !HasIdentity(rows[j], rows[i].sourceId, rows[i].externalId)
  }

  /** Active rows have no absence mark; inactive ones are disabled and unassigned; archived ones inactive and typed so. */
  predicate LifeCycle(row: Channel) {
    && (row.active <==> row.inactiveSinceAt.None?)
    && (!row.active ==> !row.enabled && row.currentServerId.None?)
    && (row.archivedAt.Some? ==> !row.active && row.channelType.Archived?)
  }

  /** The category rows of every channel are the history of its log, and its current category is the last one logged. */
  ghost predicate Faithful(t: Tables, log: seq<seq<Observation>>, now: int) {
    && |log| == |t.history| == |t.channels|
    && forall k :: 0 <= k < |log| ==> Recorded(t.history[k], log[k], t.channels[k], now)
  }

  ghost predicate Sound(t: Tables, log: seq<seq<Observation>>, now: int) {
    && t.Shaped()
    && UniqueIdentities(t.channels)
    && (forall k :: 0 <= k < |t.channels| ==> LifeCycle(t.channels[k]))
    && Faithful(t, log, now)
  }

  /** Rows keep their id, external id and first instant; only a legacy row may change its source. */
  ghost predicate Continues(rows: seq<Channel>, rows': seq<Channel>) {
    && |rows| <= |rows'|
    && forall k :: 0 <= k < |rows| ==>
                     && rows'[k].externalId == rows[k].externalId
                     && rows'[k].firstSeenAt == rows[k].firstSeenAt
                     && (rows'[k].sourceId != rows[k].sourceId ==> rows[k].sourceId == LEGACY)
  }

  /** Every channel keeps what was logged of it. */
  ghost predicate Extends(log: seq<seq<Observation>>, log': seq<seq<Observation>>) {
    |log| <= |log'| && forall k :: 0 <= k < |log| ==> log[k] <= log'[k]
  }

  // ----- The observation log -----

  function LogStep(p: Pass, t: Tables, log: seq<seq<Observation>>, i: nat): seq<seq<Observation>>
    requires i < |p.snapshots|
  {
    var id := OutcomeAt(p, t, i).channelId;
    var o := Observation(SourceAt(p, i), p.snapshots[i].category, p.at);
    if i in p.failedItems then log
    else if id < |log| then log[id := log[id] + [o]]
    else log + [[o]]
  }

  /** The log after the first `n` snapshots: failed upserts leave no trace. */
  function LogAfter(p: Pass, t: Tables, log: seq<seq<Observation>>, n: nat): seq<seq<Observation>>
    requires t.Shaped() && n <= |p.snapshots|
  {
    if n == 0 then log
    else LogStep(p, AfterItems(p, t, n - 1).tables, LogAfter(p, t, log, n - 1), n - 1)
  }

  function PassLog(p: Pass, t: Tables, log: seq<seq<Observation>>): seq<seq<Observation>>
    requires t.Shaped()
  {
    LogAfter(p, t, log, |p.snapshots|)
  }

  // ----- One upsert -----

  /** A row is created only when neither the identity nor a legacy row with that external id exists. */
  lemma {:induction false} CreatedOnlyWhenUnknown(p: Pass, t: Tables, i: nat)
    requires i < |p.snapshots|
    ensures OutcomeAt(p, t, i).action.Created? <==>
            forall k :: 0 <= k < |t.channels| && t.channels[k].externalId == p.snapshots[i].externalId ==>
                          t.channels[k].sourceId != SourceAt(p, i) && t.channels[k].sourceId != LEGACY
  {
  }

  lemma {:induction false} UpsertKeepsIdentities(p: Pass, t: Tables, i: nat)
    requires t.Shaped() && i < |p.snapshots| && UniqueIdentities(t.channels)
    ensures UniqueIdentities(UpsertAt(p, t, i).channels)
    ensures Continues(t.channels, UpsertAt(p, t, i).channels)
  {
  }

  /** Invariant of one channel: its category rows, its log and its current category agree. */
  ghost predicate Recorded(rows: seq<Interval>, log: seq<Observation>, row: Channel, now: int) {
    && rows == HistoryOf(log)
    && Nondecreasing(log)
    && (log != [] ==> log[|log| - 1].at <= now && log[|log| - 1].category == row.category)
  }

  lemma {:induction false} UpsertRecords(rows: seq<Interval>, log: seq<Observation>, row: Channel, row': Channel,
                                         now: int, o: Observation)
    requires (log == [] && rows == []) || Recorded(rows, log, row, now)
    requires now <= o.at && row'.category == o.category
    ensures Recorded(Record(rows, o), log + [o], row', o.at)
  {
  }

  /** What an upsert does to the category rows, the log and the category of channel `k`. */
  lemma {:induction false} UpsertOnHistory(p: Pass, t: Tables, log: seq<seq<Observation>>, i: nat, k: nat)
    requires t.Shaped() && i < |p.snapshots| && i !in p.failedItems && |log| == |t.channels|
    ensures
      var t', log' := UpsertAt(p, t, i), LogStep(p, t, log, i);
      var o := Observation(SourceAt(p, i), p.snapshots[i].category, p.at);
      && |log'| == |t'.history| == |t'.channels| && |log| <= |log'|
      && (k < |log'| ==>
            if k == OutcomeAt(p, t, i).channelId then
              && t'.history[k] == Record(if k < |log| then t.history[k] else [], o)
              && log'[k] == (if k < |log| then log[k] else []) + [o]
              && t'.channels[k].category == o.category
            else
              k < |log| && t'.history[k] == t.history[k] && log'[k] == log[k] && t'.channels[k] == t.channels[k])
  {
    hide Record;
  }

  lemma {:induction false} UpsertKeepsHistory(p: Pass, t: Tables, log: seq<seq<Observation>>, now: int, i: nat)
    requires t.Shaped() && i < |p.snapshots| && i !in p.failedItems
    requires Faithful(t, log, now) && now <= p.at
    ensures Faithful(UpsertAt(p, t, i), LogStep(p, t, log, i), p.at)
    ensures Extends(log, LogStep(p, t, log, i))
  {
    hide UpsertAt, OutcomeAt, LogStep, Record, HistoryOf, Nondecreasing;
    var t', log' := UpsertAt(p, t, i), LogStep(p, t, log, i);
    var o := Observation(SourceAt(p, i), p.snapshots[i].category, p.at);
    UpsertOnHistory(p, t, log, i, 0);
    forall k | 0 <= k < |log'|
      ensures Recorded(t'.history[k], log'[k], t'.channels[k], p.at)
      ensures k < |log| ==> log[k] <= log'[k]
    {
      UpsertOnHistory(p, t, log, i, k);
      if k < |log| {
        assert Recorded(t.history[k], log[k], t.channels[k], now);
      }
      if k == OutcomeAt(p, t, i).channelId {
        if k < |log| {
          UpsertRecords(t.history[k], log[k], t.channels[k], t'.channels[k], now, o);
        } else {
          UpsertRecords([], [], t'.channels[k], t'.channels[k], now, o);
        }
      }
    }
  }

  lemma {:induction false} StepSound(p: Pass, st: PassState, log: seq<seq<Observation>>, i: nat)
    requires i < |p.snapshots| && Sound(st.tables, log, p.at)
    ensures Kept(st.tables, log, ItemStep(p, st, i).tables, LogStep(p, st.tables, log, i), p.at)
  {
    if i !in p.failedItems {
      UpsertKeepsIdentities(p, st.tables, i);
      UpsertKeepsHistory(p, st.tables, log, p.at, i);
      UpsertKeepsLifeCycle(p, st.tables, i);
    }
  }

  lemma {:induction false} UpsertKeepsLifeCycle(p: Pass, t: Tables, i: nat)
    requires t.Shaped() && i < |p.snapshots|
    requires forall k :: 0 <= k < |t.channels| ==> LifeCycle(t.channels[k])
    ensures forall k :: 0 <= k < |UpsertAt(p, t, i).channels| ==> LifeCycle(UpsertAt(p, t, i).channels[k])
  {
  }

  lemma {:induction false} ContinuesTransitively(a: seq<Channel>, b: seq<Channel>, c: seq<Channel>)
    requires Continues(a, b) && Continues(b, c)
    ensures Continues(a, c)
  {
  }

  /** Everything a stretch of a run keeps, from the tables and log it starts with to those it ends with. */
  ghost predicate Kept(t: Tables, log: seq<seq<Observation>>, t': Tables, log': seq<seq<Observation>>, now: int) {
    && Sound(t', log', now)
    && Continues(t.channels, t'.channels)
    && Extends(log, log')
  }

  lemma {:induction false} KeptReflexively(t: Tables, log: seq<seq<Observation>>, now: int)
    requires Sound(t, log, now)
    ensures Kept(t, log, t, log, now)
  {
  }

  lemma {:induction false} KeptTransitively(t0: Tables, log0: seq<seq<Observation>>, t1: Tables, log1: seq<seq<Observation>>,
                                            t2: Tables, log2: seq<seq<Observation>>, now: int, now': int)
    requires Kept(t0, log0, t1, log1, now) && Kept(t1, log1, t2, log2, now')
    ensures Kept(t0, log0, t2, log2, now')
  {
  }

  lemma {:induction false} StepKept(p: Pass, t: Tables, log: seq<seq<Observation>>,
                                    st: PassState, log': seq<seq<Observation>>, i: nat)
    requires i < |p.snapshots| && Kept(t, log, st.tables, log', p.at)
    ensures Kept(t, log, ItemStep(p, st, i).tables, LogStep(p, st.tables, log', i), p.at)
  {
    StepSound(p, st, log', i);
    KeptTransitively(t, log, st.tables, log', ItemStep(p, st, i).tables, LogStep(p, st.tables, log', i), p.at, p.at);
  }

  lemma {:induction false} ItemsSound(p: Pass, t: Tables, log: seq<seq<Observation>>, n: nat)
    requires n <= |p.snapshots| && Sound(t, log, p.at)
    ensures Kept(t, log, AfterItems(p, t, n).tables, LogAfter(p, t, log, n), p.at)
  {
    hide ItemStep, LogStep;
    if n == 0 {
      KeptReflexively(t, log, p.at);
    } else {
      ItemsSound(p, t, log, n - 1);
      StepKept(p, t, log, AfterItems(p, t, n - 1), LogAfter(p, t, log, n - 1), n - 1);
    }
  }

  // ----- Reconciliation, row by row -----

  /** The source is reconciled, and its savepoint does not fail. */
  predicate Reconciles(p: Pass, source: string) {
    source in Sources(p) && source !in p.failedSources
  }

  /** What the whole second half of a pass does to one row. */
  function Settled(p: Pass, row: Channel): Channel {
    if Reconciles(p, row.sourceId)
    then ReconciledRow(row, row.sourceId, Seen(p, row.sourceId), p.at, p.retention)
    else row
  }

  lemma {:induction false} SettledKeepsIdentity(p: Pass, row: Channel)
    ensures Settled(p, row).sourceId == row.sourceId && Settled(p, row).externalId == row.externalId
  {
  }

  /** The source is among the first `k` reconciled. */
  predicate Reached(p: Pass, k: nat, source: string)
    requires k <= |Sources(p)|
  {
    k > 0 && (Sources(p)[k - 1] == source || Reached(p, k - 1, source))
  }

  lemma {:induction false} ReachedIsPosition(p: Pass, k: nat, source: string)
    requires k <= |Sources(p)|
    ensures Reached(p, k, source) <==> exists i :: 0 <= i < k && Sources(p)[i] == source
  {
    if k > 0 {
      ReachedIsPosition(p, k - 1, source);
    }
  }

  /** One row during the source loop. */
  function RowAfter(p: Pass, row: Channel, k: nat): Channel
    requires k <= |Sources(p)|
  {
    if k == 0 then row
    else
      var r := RowAfter(p, row, k - 1);
      if r.sourceId == Sources(p)[k - 1] then Settled(p, r) else r
  }

  /** One round of the source loop on one row. */
  lemma {:induction false} SourceOnRow(p: Pass, st: PassState, source: string, j: nat)
    requires st.tables.Shaped() && source in Sources(p) && j < |st.tables.channels|
    ensures
      var row := st.tables.channels[j];
      SourceStep(p, st, source).tables.channels[j] == if row.sourceId == source then Settled(p, row) else row
  {
    hide Seen, Sources, Expired;
  }

  lemma {:induction false} SourcesRowByRow(p: Pass, st: PassState, k: nat, j: nat)
    requires st.tables.Shaped() && k <= |Sources(p)| && j < |st.tables.channels|
    ensures AfterSources(p, st, k).tables.channels[j] == RowAfter(p, st.tables.channels[j], k)
  {
    hide SourceStep, Settled;
    if k > 0 {
      SourcesRowByRow(p, st, k - 1, j);
      SourceOnRow(p, AfterSources(p, st, k - 1), Sources(p)[k - 1], j);
    }
  }

  /** Each source is reconciled once, so the second half of a pass treats every row independently of the order. */
  lemma {:induction false} RowSettlesOnce(p: Pass, row: Channel, k: nat)
    requires k <= |Sources(p)|
    ensures RowAfter(p, row, k) == if Reached(p, k, row.sourceId) then Settled(p, row) else row
  {
    if k > 0 {
      SettledKeepsIdentity(p, row);
      ReachedIsPosition(p, k - 1, row.sourceId);
      hide Settled;
      RowSettlesOnce(p, row, k - 1);
    }
  }

  lemma {:induction false} PassOnRow(p: Pass, t: Tables, j: nat)
    requires t.Shaped() && j < |ItemsDone(p, t).tables.channels|
    ensures FullPass(p, t).tables.channels[j] == Settled(p, ItemsDone(p, t).tables.channels[j])
  {
    var order := Sources(p);
    SourcesRowByRow(p, ItemsDone(p, t), |order|, j);
    RowSettlesOnce(p, ItemsDone(p, t).tables.channels[j], |order|);
    ReachedIsPosition(p, |order|, ItemsDone(p, t).tables.channels[j].sourceId);
  }

  // ----- Passes and runs -----

  /** One pass keeps every invariant, keeps rows and keeps the log. */
  lemma {:induction false} PassSound(p: Pass, t: Tables, log: seq<seq<Observation>>, now: int)
    requires Sound(t, log, now) && now <= p.at
    ensures Kept(t, log, FullPass(p, t).tables, PassLog(p, t, log), p.at)
  {
    ItemsSound(p, t, log, |p.snapshots|);
    var mid, rows' := ItemsDone(p, t).tables, FullPass(p, t).tables.channels;
    forall j | 0 <= j < |rows'|
      ensures rows'[j] == Settled(p, mid.channels[j])
    {
      PassOnRow(p, t, j);
    }
    SettlingKeeps(p, mid, FullPass(p, t).tables, PassLog(p, t, log));
    ContinuesTransitively(t.channels, mid.channels, rows');
  }

  lemma {:induction false} SettlingKeeps(p: Pass, t: Tables, t': Tables, log: seq<seq<Observation>>)
    requires Sound(t, log, p.at) && |t'.channels| == |t.channels|
    requires t' == t.(channels := t'.channels)
    requires forall j :: 0 <= j < |t.channels| ==> t'.channels[j] == Settled(p, t.channels[j])
    ensures Sound(t', log, p.at)
    ensures Continues(t.channels, t'.channels)
  {
    forall j | 0 <= j < |t.channels|
      ensures LifeCycle(t'.channels[j])
      ensures t'.channels[j].sourceId == t.channels[j].sourceId
      ensures t'.channels[j].externalId == t.channels[j].externalId
      ensures t'.channels[j].firstSeenAt == t.channels[j].firstSeenAt
      ensures t'.channels[j].category == t.channels[j].category
    {
      assert LifeCycle(t.channels[j]);
    }
    forall i, j | 0 <= i < j < |t'.channels|
      ensures !HasIdentity(t'.channels[j], t'.channels[i].sourceId, t'.channels[i].externalId)
    {
      assert !HasIdentity(t.channels[j], t.channels[i].sourceId, t.channels[i].externalId);
    }
  }

  /** The tables after the first `n` passes of a run. */
  function RunTables(t: Tables, passes: seq<Pass>, n: nat): (t': Tables)
    requires t.Shaped() && n <= |passes|
    ensures t'.Shaped()
  {
    if n == 0 then t else FullPass(passes[n - 1], RunTables(t, passes, n - 1)).tables
  }

  function RunLog(t: Tables, log: seq<seq<Observation>>, passes: seq<Pass>, n: nat): seq<seq<Observation>>
    requires t.Shaped() && n <= |passes|
  {
    if n == 0 then log else PassLog(passes[n - 1], RunTables(t, passes, n - 1), RunLog(t, log, passes, n - 1))
  }

  /** The clock of the runner never goes back from one pass to the next. */
  ghost predicate ClockAdvances(now: int, passes: seq<Pass>) {
    && (forall i :: 0 <= i < |passes| ==> now <= passes[i].at)
    && (forall i, j :: 0 <= i < j < |passes| ==> passes[i].at <= passes[j].at)
  }

  lemma {:induction false} PassKept(p: Pass, t: Tables, log: seq<seq<Observation>>,
                                    t': Tables, log': seq<seq<Observation>>, last: int)
    requires Kept(t, log, t', log', last) && last <= p.at
    ensures Kept(t, log, FullPass(p, t').tables, PassLog(p, t', log'), p.at)
  {
    PassSound(p, t', log', last);
    KeptTransitively(t, log, t', log', FullPass(p, t').tables, PassLog(p, t', log'), last, p.at);
  }

  /** Over every run of passes, with any failures: identities, life cycle, history and row continuity all hold. */
  lemma {:induction false} RunSound(t: Tables, log: seq<seq<Observation>>, now: int, passes: seq<Pass>, n: nat)
    requires Sound(t, log, now) && n <= |passes| && ClockAdvances(now, passes)
    ensures Kept(t, log, RunTables(t, passes, n), RunLog(t, log, passes, n), if n == 0 then now else passes[n - 1].at)
  {
    hide FullPass, PassLog;
    if n == 0 {
      KeptReflexively(t, log, now);
    } else {
      RunSound(t, log, now, passes, n - 1);
      PassKept(passes[n - 1], t, log, RunTables(t, passes, n - 1), RunLog(t, log, passes, n - 1),
               if n == 1 then now else passes[n - 2].at);
    }
  }

  /**
   The category table answers every question about the past: after any run, instant `t0` from a channel's first
   upsert on lies in exactly one of its intervals, and that interval holds the category of its last successful
   upsert at or before `t0`. The rows are the run-length encoding of the channel's log.
   */
  lemma {:induction false} RunHistoryIsExact(t: Tables, log: seq<seq<Observation>>, now: int, passes: seq<Pass>,
                                             k: nat, t0: int)
    requires Sound(t, log, now) && ClockAdvances(now, passes)
    requires k < |RunLog(t, log, passes, |passes|)|
    ensures
      var rows, entries := RunTables(t, passes, |passes|).history, RunLog(t, log, passes, |passes|);
      && k < |rows|
      && Tiles(rows[k])
      && rows[k] == Compress(entries[k])
      && (entries[k] != [] && entries[k][0].at <= t0 ==>
            exists i :: && 0 <= i < |rows[k]|
                        && Covers(rows[k][i], t0)
                        && CategoryAt(entries[k], t0) == Some(rows[k][i].category)
                        && forall j :: 0 <= j < |rows[k]| && Covers(rows[k][j], t0) ==> j == i)
  {
    RunSound(t, log, now, passes, |passes|);
    var rows, entry := RunTables(t, passes, |passes|).history[k], RunLog(t, log, passes, |passes|)[k];
    HistoryIndexesLog(entry);
    NondecreasingChangesAscend(entry);
    HistoryIsRunLengthEncoding(entry);
    if entry != [] && entry[0].at <= t0 {
      LookupIsExact(rows, entry, t0);
    }
  }
}
