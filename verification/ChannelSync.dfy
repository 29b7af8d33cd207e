/**
 What one upsert and one reconciliation do to the channel tables
 (app/repositories/channel_repository.py, app/models/channel.py).
 A table is a sequence of row values; a row's position stands for its primary key.
 */
module ChannelSync {
  import opened Wrappers
  import opened CategoryHistory

  // Instants and durations count microseconds.
  const HOUR := 3_600_000_000
  const DAY := 24 * HOUR

  /** The source id that migration 0009 gave to rows older than source-aware identities. */
  const LEGACY := "legacy"

  datatype ChannelType = Permanent | Event | Temporary | Scheduled | Archived

  datatype ChannelSnapshot = ChannelSnapshot(
    externalId: string,
    name: string,
    sourceId: Option<string>,
    category: Category,
    serverExternalId: Option<string>,
    channelType: ChannelType,
    eventExternalId: Option<string>,
    eventName: Option<string>,
    eventStartAt: Option<int>,
    eventEndAt: Option<int>,
    streamExternalId: Option<string>,
    streamName: Option<string>,
    sourceUpdatedAt: Option<int>,
    enabled: bool)

  datatype Channel = Channel(
    sourceId: string,
    externalId: string,
    name: string,
    category: Category,
    channelType: ChannelType,
    eventStartAt: Option<int>,
    eventEndAt: Option<int>,
    firstSeenAt: int,
    lastSeenAt: int,
    active: bool,
    inactiveSinceAt: Option<int>,
    archivedAt: Option<int>,
    sourceUpdatedAt: Option<int>,
    currentServerId: Option<nat>,
    eventId: Option<nat>,
    streamId: Option<nat>,
    enabled: bool)

  /** A row of `channel_events` or `technical_streams`: an identity, two instants and the other columns. */
  datatype Tracked<D> = Tracked(sourceId: string, externalId: string, firstSeenAt: int, lastSeenAt: int, details: D)

  datatype EventDetails = EventDetails(
    name: string,
    category: Category,
    startAt: Option<int>,
    endAt: Option<int>,
    active: bool,
    archivedAt: Option<int>)

  datatype StreamDetails = StreamDetails(name: Option<string>, active: bool)

  /** `history[i]` holds the category rows of channel `i`. */
  datatype Tables = Tables(
    channels: seq<Channel>,
    events: seq<Tracked<EventDetails>>,
    streams: seq<Tracked<StreamDetails>>,
    history: seq<seq<Interval>>)
  {
    ghost predicate Shaped() {
      |history| == |channels|
    }
  }

  datatype Action = Created | Reactivated | Updated | Unchanged

  datatype Outcome = Outcome(channelId: nat, action: Action)

  /** Event hours, event days and permanent days of the settings. */
  datatype Retention = Retention(graceHours: int, eventDays: int, permanentDays: int)

  // ----- Queries -----

  predicate HasIdentity(row: Channel, source: string, ext: string) {
    row.sourceId == source && row.externalId == ext
  }

  /** `SELECT ... WHERE source_id = :source AND external_id = :ext`, first row. */
  function FindChannel(rows: seq<Channel>, source: string, ext: string): (id: Option<nat>)
    ensures id.Some? ==> id.value < |rows| && HasIdentity(rows[id.value], source, ext)
    ensures id.Some? ==> forall j :: 0 <= j < id.value ==> !HasIdentity(rows[j], source, ext)
    ensures id.None? ==> forall j :: 0 <= j < |rows| ==> !HasIdentity(rows[j], source, ext)
  {
    if rows == [] then None
    else
      var last := |rows| - 1;
      match FindChannel(rows[..last], source, ext)
      case Some(i) => Some(i)
      case None => if HasIdentity(rows[last], source, ext) then Some(last) else None
  }

  predicate IsTracked<D>(row: Tracked<D>, source: string, ext: string) {
    row.sourceId == source && row.externalId == ext
  }

  /** The same query on events and streams. */
  function FindTracked<D>(rows: seq<Tracked<D>>, source: string, ext: string): (id: Option<nat>)
    ensures id.Some? ==> id.value < |rows| && IsTracked(rows[id.value], source, ext)
    ensures id.Some? ==> forall j :: 0 <= j < id.value ==> !IsTracked(rows[j], source, ext)
    ensures id.None? ==> forall j :: 0 <= j < |rows| ==> !IsTracked(rows[j], source, ext)
  {
    if rows == [] then None
    else
      var last := |rows| - 1;
      match FindTracked(rows[..last], source, ext)
      case Some(i) => Some(i)
      case None => if IsTracked(rows[last], source, ext) then Some(last) else None
  }

  // ----- Upsert -----

  function SourceOf(s: ChannelSnapshot, default: string): string {
    OrElse(s.sourceId, default)
  }

  /** The row an upsert will write: the identity's row, else the legacy row to adopt, else none. */
  function Target(rows: seq<Channel>, source: string, ext: string): Option<nat> {
    match FindChannel(rows, source, ext)
    case Some(i) => Some(i)
    case None => FindChannel(rows, LEGACY, ext)
  }

  function EventOf(s: ChannelSnapshot): EventDetails {
    EventDetails(OrElse(s.eventName, s.name), s.category, s.eventStartAt, s.eventEndAt, true, None)
  }

  function StreamOf(s: ChannelSnapshot): StreamDetails {
    StreamDetails(s.streamName, true)
  }

  /** `_upsert_event` and `_upsert_stream` on a table, with the identity the snapshot gives (none: no effect). */
  function Track<D>(rows: seq<Tracked<D>>, source: string, ext: Option<string>, details: D, at: int): seq<Tracked<D>> {
    if ext.None? then rows
    else
      match FindTracked(rows, source, ext.value)
      case Some(i) => rows[i := Tracked(source, ext.value, rows[i].firstSeenAt, at, details)]
      case None => rows + [Tracked(source, ext.value, at, at, details)]
  }

  /** The id of the row that `Track` writes. */
  function TrackedId<D>(rows: seq<Tracked<D>>, source: string, ext: Option<string>): Option<nat> {
    if ext.None? then None
    else
      match FindTracked(rows, source, ext.value)
      case Some(i) => Some(i)
      case None => Some(|rows|)
  }

  /** The channel row as an observation leaves it; `firstSeenAt` is all that survives of an older row. */
  function ObservedRow(s: ChannelSnapshot, source: string, firstSeenAt: int, server: Option<nat>,
                       eventId: Option<nat>, streamId: Option<nat>, at: int): Channel
  {
    Channel(source, s.externalId, s.name, s.category, s.channelType, s.eventStartAt, s.eventEndAt,
            firstSeenAt, at, true, None, None, s.sourceUpdatedAt, server, eventId, streamId, s.enabled)
  }

  /** The columns that decide between `updated` and `unchanged`: every column but the four set to constants here. */
  function SyncedValues(row: Channel): Channel {
    row.(externalId := "", firstSeenAt := 0, lastSeenAt := 0, inactiveSinceAt := None)
  }

  function Upserted(t: Tables, s: ChannelSnapshot, server: Option<nat>, default: string, at: int): Tables
    requires t.Shaped()
  {
    var source := SourceOf(s, default);
    var target := Target(t.channels, source, s.externalId);
    var row := WrittenRow(t, s, server, default, at);
    var o := Observation(source, s.category, at);
    Tables(
      if target.Some? then t.channels[target.value := row] else t.channels + [row],
      Track(t.events, source, s.eventExternalId, EventOf(s), at),
      Track(t.streams, source, s.streamExternalId, StreamOf(s), at),
      if target.Some? then t.history[target.value := Record(t.history[target.value], o)]
      else t.history + [Record([], o)])
  }

  function WrittenRow(t: Tables, s: ChannelSnapshot, server: Option<nat>, default: string, at: int): Channel {
    var source := SourceOf(s, default);
    var target := Target(t.channels, source, s.externalId);
    ObservedRow(s, source, if target.Some? then t.channels[target.value].firstSeenAt else at, server,
                TrackedId(t.events, source, s.eventExternalId),
                TrackedId(t.streams, source, s.streamExternalId), at)
  }

  function UpsertOutcome(t: Tables, s: ChannelSnapshot, server: Option<nat>, default: string, at: int): Outcome {
    var source := SourceOf(s, default);
    match Target(t.channels, source, s.externalId)
    case None => Outcome(|t.channels|, Created)
    case Some(i) =>
      var before := t.channels[i];
      Outcome(i,
              if !before.active then Reactivated
              else if SyncedValues(before) != SyncedValues(WrittenRow(t, s, server, default, at))
                      || before.sourceId != source then Updated
              else Unchanged)
  }

  // ----- Reconciliation -----

  predicate Deactivates(row: Channel, source: string, seen: set<string>) {
    row.sourceId == source && row.externalId !in seen && row.active
  }

  /** First loop of `reconcile_missing`, on one row. */
  function DeactivatedRow(row: Channel, source: string, seen: set<string>, at: int): Channel {
    if Deactivates(row, source, seen) then
      row.(active := false, enabled := false, currentServerId := None, inactiveSinceAt := Some(at))
    else row
  }

  function RetentionDays(row: Channel, r: Retention): int {
    if row.channelType.Permanent? then r.permanentDays else r.eventDays
  }

  /** The test of the second loop: grace and retention are both over. */
  predicate Expired(row: Channel, at: int, r: Retention) {
    var inactiveSince := if row.inactiveSinceAt.Some? then row.inactiveSinceAt.value else row.lastSeenAt;
    inactiveSince <= at - r.graceHours * HOUR && row.lastSeenAt <= at - RetentionDays(row, r) * DAY
  }

  predicate Archives(row: Channel, source: string, at: int, r: Retention) {
    row.sourceId == source && !row.active && row.archivedAt.None? && Expired(row, at, r)
  }

  /** Second loop of `reconcile_missing`, on one row. */
  function ArchivedRow(row: Channel, source: string, at: int, r: Retention): Channel {
    if Archives(row, source, at, r) then row.(channelType := Archived, archivedAt := Some(at)) else row
  }

  function Deactivated(rows: seq<Channel>, source: string, seen: set<string>, at: int): (rows': seq<Channel>)
    ensures |rows'| == |rows|
    ensures forall i :: 0 <= i < |rows| ==> rows'[i] == DeactivatedRow(rows[i], source, seen, at)
  {
    seq(|rows|, i requires 0 <= i < |rows| => DeactivatedRow(rows[i], source, seen, at))
  }

  function ArchivedRows(rows: seq<Channel>, source: string, at: int, r: Retention): (rows': seq<Channel>)
    ensures |rows'| == |rows|
    ensures forall i :: 0 <= i < |rows| ==> rows'[i] == ArchivedRow(rows[i], source, at, r)
  {
    seq(|rows|, i requires 0 <= i < |rows| => ArchivedRow(rows[i], source, at, r))
  }

  /** The whole of `reconcile_missing`. */
  function Reconciled(rows: seq<Channel>, source: string, seen: set<string>, at: int, r: Retention): (rows': seq<Channel>)
    ensures |rows'| == |rows|
    ensures forall i :: 0 <= i < |rows| ==> rows'[i] == ReconciledRow(rows[i], source, seen, at, r)
  {
    ArchivedRows(Deactivated(rows, source, seen, at), source, at, r)
  }

  function ReconciledRow(row: Channel, source: string, seen: set<string>, at: int, r: Retention): Channel {
    ArchivedRow(DeactivatedRow(row, source, seen, at), source, at, r)
  }

  /** Number of rows the first loop deactivates. */
  function CountDeactivated(rows: seq<Channel>, source: string, seen: set<string>): nat {
    if rows == [] then 0
    else
      var last := |rows| - 1;
      CountDeactivated(rows[..last], source, seen) + if Deactivates(rows[last], source, seen) then 1 else 0
  }

  /** Number of rows the second loop archives. */
  function CountArchives(rows: seq<Channel>, source: string, at: int, r: Retention): nat {
    if rows == [] then 0
    else
      var last := |rows| - 1;
      CountArchives(rows[..last], source, at, r) + if Archives(rows[last], source, at, r) then 1 else 0
  }

  /** The `archived` counter of `ChannelReconciliationResult`. */
  function CountNewlyArchived(rows: seq<Channel>, source: string, seen: set<string>, at: int, r: Retention): nat {
    CountArchives(Deactivated(rows, source, seen, at), source, at, r)
  }
}
