/** The two sample phases of the collection service as methods on tables and a result object. */
module MetricService {
  import opened Wrappers
  import opened ChannelSync
  import opened IdentityLookup
  import opened SampleStore

  /** A table of samples behind `metric_exists` and `add_metric`. */
  class SampleTable<B(==)> {
    var rows: seq<Sample<B>>

    constructor ()
      ensures rows == []
    {
      rows := [];
    }

    /** One item inside its `try`; the counters are those of the result. */
    method Store(item: Item<B>, fails: bool, counts: Counts) returns (counts': Counts)
      modifies this
      ensures Stored(rows, counts') == StoreStep(Stored(old(rows), counts), item, fails)
    {
      if item.owner.None? {
        return counts.(errors := counts.errors + 1);
      }
      if fails {
        return counts.(errors := counts.errors + 1);
      }
      if Exists(rows, item.owner.value, item.at) {
        return counts.(skipped := counts.skipped + 1);
      }
      rows := rows + [Sample(item.owner.value, item.at, item.body)];
      counts' := counts.(inserted := counts.inserted + 1);
    }
  }

  /** The servers of the session. */
  class ServerTable {
    var states: map<nat, ServerState>

    constructor (states: map<nat, ServerState>)
      ensures this.states == states
    {
      this.states := states;
    }

    /** What the savepoint of a sample writes to its server, if there is one. */
    method Hear(id: nat, at: int)
      modifies this
      ensures states == if id in old(states) then old(states)[id := Heard(old(states)[id], at)] else old(states)
    {
      if id in states {
        var state := states[id].(lastHeartbeatAt := Some(at));
        if !state.status.Maintenance? {
          state := state.(status := Online);
        }
        states := states[id := state];
      }
    }
  }

  /** `_store_server_metrics`. */
  method StoreServerMetrics(table: SampleTable<int>, servers: ServerTable, ids: map<string, nat>,
                            readings: seq<ServerReading>, failed: set<nat>)
    returns (counts: Counts)
    modifies table, servers
    ensures Stored(table.rows, counts) == AfterItems(old(table.rows), ServerItems(ids, readings), failed, |readings|)
    ensures
      servers.states ==
      ServersAfter(old(servers.states), old(table.rows), ServerItems(ids, readings), failed, |readings|)
  {
    hide StoreStep, Inserts, Heard;
    counts := Counts(0, 0, 0);
    for i := 0 to |readings|
      invariant Stored(table.rows, counts) == AfterItems(old(table.rows), ServerItems(ids, readings), failed, i)
      invariant
        servers.states == ServersAfter(old(servers.states), old(table.rows), ServerItems(ids, readings), failed, i)
    {
      var r := readings[i];
      var owner := if r.serverExternalId in ids then Some(ids[r.serverExternalId]) else None;
      var item := Item(owner, r.at, r.values);
      StepInserts(Stored(table.rows, counts), item, i in failed);
      InsertedHasOwner(table.rows, item, i in failed);
      var inserted := counts.inserted;
      counts := table.Store(item, i in failed, counts);
      if counts.inserted > inserted {
        servers.Hear(owner.value, r.at);
      }
    }
  }

  lemma InsertedHasOwner(rows: seq<Sample<int>>, item: Item<int>, fails: bool)
    ensures Inserts(rows, item, fails) ==> item.owner.Some?
  {
  }

  /** `_store_channel_metrics`: three batched lookups, then the loop. */
  method StoreChannelMetrics(table: SampleTable<ChannelBody>, t: Tables, ids: map<string, nat>, default: string,
                             readings: seq<ChannelReading>, failed: set<nat>)
    returns (counts: Counts)
    requires Unique(ChannelKeys(t.channels)) && Unique(TrackedKeys(t.events)) && Unique(TrackedKeys(t.streams))
    modifies table
    ensures
      Stored(table.rows, counts) ==
      AfterItems(old(table.rows), ChannelItems(t, ids, default, readings), failed, |readings|)
  {
    hide StoreStep, Unique, ChannelKeys, TrackedKeys;
    var asked, askedEvents, askedStreams := AskedFor(readings, default);
    var channels := GetByIdentities(ChannelKeys(t.channels), asked);
    var events := GetByIdentities(TrackedKeys(t.events), askedEvents);
    var streams := GetByIdentities(TrackedKeys(t.streams), askedStreams);
    counts := Counts(0, 0, 0);
    for i := 0 to |readings|
      invariant
        Stored(table.rows, counts) ==
        AfterItems(old(table.rows), ChannelItems(t, ids, default, readings), failed, i)
    {
      var item := BatchedItem(t, ids, default, readings[i], channels, events, streams, asked, askedEvents, askedStreams);
      counts := table.Store(item, i in failed, counts);
    }
  }

  /** The three sets of identities that the readings mention. */
  method AskedFor(readings: seq<ChannelReading>, default: string)
    returns (channels: set<Identity>, events: set<Identity>, streams: set<Identity>)
    ensures forall i :: 0 <= i < |readings| ==> Mentions(readings[i], default, channels, events, streams)
  {
    channels, events, streams := {}, {}, {};
    for i := 0 to |readings|
      invariant forall k :: 0 <= k < i ==> Mentions(readings[k], default, channels, events, streams)
    {
      var r, source := readings[i], ReadingSource(readings[i], default);
      channels := channels + {Identity(source, r.channelExternalId)};
      if r.eventExternalId.Some? {
        events := events + {Identity(source, r.eventExternalId.value)};
      }
      if r.streamExternalId.Some? {
        streams := streams + {Identity(source, r.streamExternalId.value)};
      }
    }
  }

  ghost predicate Mentions(r: ChannelReading, default: string,
                           channels: set<Identity>, events: set<Identity>, streams: set<Identity>)
  {
    var source := ReadingSource(r, default);
    && Identity(source, r.channelExternalId) in channels
    && (r.eventExternalId.Some? ==> Identity(source, r.eventExternalId.value) in events)
    && (r.streamExternalId.Some? ==> Identity(source, r.streamExternalId.value) in streams)
  }

  function Entry(found: map<Identity, nat>, key: Identity): Option<nat> {
    if key in found then Some(found[key]) else None
  }

  /** The sample of a reading from the three dictionaries is the one that single lookups give. */
  method BatchedItem(t: Tables, ids: map<string, nat>, default: string, r: ChannelReading,
                     channels: map<Identity, nat>, events: map<Identity, nat>, streams: map<Identity, nat>,
                     ghost asked: set<Identity>, ghost askedEvents: set<Identity>, ghost askedStreams: set<Identity>)
    returns (item: Item<ChannelBody>)
    requires Mentions(r, default, asked, askedEvents, askedStreams)
    requires Agrees(channels, ChannelKeys(t.channels), asked)
    requires Agrees(events, TrackedKeys(t.events), askedEvents)
    requires Agrees(streams, TrackedKeys(t.streams), askedStreams)
    ensures item == ChannelItem(t, ids, default, r)
  {
    hide ChannelKeys, TrackedKeys, FindChannel, FindTracked, Lookup;
    var source := ReadingSource(r, default);
    var channel := Entry(channels, Identity(source, r.channelExternalId));
    LookupFindsChannel(t.channels, source, r.channelExternalId);
    if channel.None? {
      return Item(None, r.at, ChannelBody(None, None, None, r.values));
    }
    var event, stream := None, None;
    if r.eventExternalId.Some? {
      LookupFindsTracked(t.events, source, r.eventExternalId.value);
      event := Entry(events, Identity(source, r.eventExternalId.value));
    }
    if r.streamExternalId.Some? {
      LookupFindsTracked(t.streams, source, r.streamExternalId.value);
      stream := Entry(streams, Identity(source, r.streamExternalId.value));
    }
    var server := OrElse(r.serverExternalId, "");
    item := Item(channel, r.at,
                 ChannelBody(if event.Some? then event else t.channels[channel.value].eventId,
                             if stream.Some? then stream else t.channels[channel.value].streamId,
                             if server != "" && server in ids then Some(ids[server]) else None,
                             r.values));
  }
}
