/**
 Storing the samples of one collection (`_store_server_metrics` and `_store_channel_metrics` of
 app/collectors/collection.py). Both resolve the owner of each reading and then run the same loop: unknown owners are
 errors, known samples are skipped, the rest is inserted inside a savepoint that may fail.
 */
module SampleStore {
  import opened Wrappers
  import opened ChannelSync

  /** A row of `server_metrics` or `channel_metrics`; `body` is everything but owner and instant. */
  datatype Sample<B> = Sample(owner: nat, at: int, body: B)

  /** A reading after its owner was looked up. */
  datatype Item<B> = Item(owner: Option<nat>, at: int, body: B)

  datatype Counts = Counts(inserted: nat, skipped: nat, errors: nat)

  datatype Stored<B> = Stored(rows: seq<Sample<B>>, counts: Counts)

  /** `metric_exists`. */
  predicate Exists<B(==)>(rows: seq<Sample<B>>, owner: nat, at: int) {
    exists i :: 0 <= i < |rows| && rows[i].owner == owner && rows[i].at == at
  }

  /** One round of the loop; `fails` says that the query or the savepoint raises. */
  function StoreStep<B(==)>(st: Stored<B>, item: Item<B>, fails: bool): Stored<B> {
    var c := st.counts;
    if item.owner.None? || fails then st.(counts := c.(errors := c.errors + 1))
    else if Exists(st.rows, item.owner.value, item.at) then st.(counts := c.(skipped := c.skipped + 1))
    else Stored(st.rows + [Sample(item.owner.value, item.at, item.body)], c.(inserted := c.inserted + 1))
  }

  /** After the first `n` items. */
  function AfterItems<B(==)>(rows: seq<Sample<B>>, items: seq<Item<B>>, failed: set<nat>, n: nat): Stored<B>
    requires n <= |items|
  {
    if n == 0 then Stored(rows, Counts(0, 0, 0))
    else StoreStep(AfterItems(rows, items, failed, n - 1), items[n - 1], n - 1 in failed)
  }

  /** No two samples of one owner at one instant. */
  ghost predicate UniqueSamples<B>(rows: seq<Sample<B>>) {
    forall i, j :: 0 <= i < j < |rows| ==> rows[i].owner != rows[j].owner || rows[i].at != rows[j].at
  }

  /** Every reading is inserted, skipped or an error; samples stay unique; earlier ones are untouched. */
  lemma {:induction false} PhaseAccounts<B>(rows: seq<Sample<B>>, items: seq<Item<B>>, failed: set<nat>, n: nat)
    requires n <= |items| && UniqueSamples(rows)
    ensures
      var st := AfterItems(rows, items, failed, n);
      && n == st.counts.inserted + st.counts.skipped + st.counts.errors
      && UniqueSamples(st.rows)
      && rows <= st.rows && |st.rows| == |rows| + st.counts.inserted
  {
    if n > 0 {
      PhaseAccounts(rows, items, failed, n - 1);
    }
  }

  /** The item's sample is in the table. */
  predicate Kept<B(==)>(rows: seq<Sample<B>>, item: Item<B>) {
    item.owner.Some? ==> Exists(rows, item.owner.value, item.at)
  }

  lemma {:induction false} StepKeeps<B>(st: Stored<B>, item: Item<B>, fails: bool, other: Item<B>)
    ensures Kept(st.rows, other) ==> Kept(StoreStep(st, item, fails).rows, other)
    ensures !fails ==> Kept(StoreStep(st, item, fails).rows, item)
  {
    var rows, rows' := st.rows, StoreStep(st, item, fails).rows;
    assert forall i :: 0 <= i < |rows| ==> rows'[i] == rows[i];
    if |rows'| > |rows| {
      assert rows'[|rows|] == Sample(item.owner.value, item.at, item.body);
    }
    if other.owner.Some? && Exists(rows, other.owner.value, other.at) {
      var i :| 0 <= i < |rows| && rows[i].owner == other.owner.value && rows[i].at == other.at;
      assert rows'[i].owner == other.owner.value;
    }
  }

  /** Items that did not fail are kept to the end of the phase. */
  lemma {:induction false} SuccessesAreKept<B>(rows: seq<Sample<B>>, items: seq<Item<B>>, failed: set<nat>, n: nat, i: nat)
    requires i < n <= |items| && i !in failed
    ensures Kept(AfterItems(rows, items, failed, n).rows, items[i])
  {
    hide StoreStep, Kept;
    StepKeeps(AfterItems(rows, items, failed, n - 1), items[n - 1], n - 1 in failed, items[i]);
    if i < n - 1 {
      SuccessesAreKept(rows, items, failed, n - 1, i);
    }
  }

  /** A replay over a table that keeps the first `n` items inserts none of them. */
  lemma {:induction false} ReplayOfKept<B>(rows: seq<Sample<B>>, items: seq<Item<B>>, n: nat)
    requires n <= |items| && forall i :: 0 <= i < n ==> Kept(rows, items[i])
    ensures
      var again := AfterItems(rows, items, {}, n);
      again.rows == rows && again.counts.inserted == 0
  {
    hide Exists;
    if n > 0 {
      ReplayOfKept(rows, items, n - 1);
    }
  }

  lemma {:induction false} ReplayInserts<B>(rows: seq<Sample<B>>, items: seq<Item<B>>, n: nat)
    requires n <= |items| && AfterItems(rows, items, {}, n).counts.inserted == 0
    ensures forall i :: 0 <= i < n ==> Kept(rows, items[i])
    ensures AfterItems(rows, items, {}, n).rows == rows
  {
    hide Exists;
    if n > 0 {
      ReplayInserts(rows, items, n - 1);
    }
  }

  /** Replaying a phase inserts nothing exactly when every reading with an owner has its sample by then. */
  lemma {:induction false} ReplayIsEmptyIffKept<B>(rows: seq<Sample<B>>, items: seq<Item<B>>)
    ensures
      AfterItems(rows, items, {}, |items|).counts.inserted == 0 <==> forall i :: 0 <= i < |items| ==> Kept(rows, items[i])
  {
    hide Kept, AfterItems;
    if AfterItems(rows, items, {}, |items|).counts.inserted == 0 {
      ReplayInserts(rows, items, |items|);
    } else if forall i :: 0 <= i < |items| ==> Kept(rows, items[i]) {
      ReplayOfKept(rows, items, |items|);
    }
  }

  /** After a phase without failures a replay leaves the table as it is. */
  lemma {:induction false} ReplayAfterSuccess<B>(rows: seq<Sample<B>>, items: seq<Item<B>>)
    ensures
      var once := AfterItems(rows, items, {}, |items|).rows;
      var again := AfterItems(once, items, {}, |items|);
      again.rows == once && again.counts.inserted == 0
  {
    hide Kept, AfterItems;
    var once := AfterItems(rows, items, {}, |items|).rows;
    forall i | 0 <= i < |items|
      ensures Kept(once, items[i])
    {
      SuccessesAreKept(rows, items, {}, |items|, i);
    }
    ReplayOfKept(once, items, |items|);
  }

  // ----- Heartbeats of servers -----

  datatype Operational = Online | Degraded | Offline | Unknown | Maintenance

  /** The two columns of a server that a stored sample writes. */
  datatype ServerState = ServerState(lastHeartbeatAt: Option<int>, status: Operational)

  function Heard(state: ServerState, at: int): ServerState {
    ServerState(Some(at), if state.status.Maintenance? then Maintenance else Online)
  }

  /** The round inserts the item, so its savepoint also writes the server. */
  predicate Inserts<B(==)>(rows: seq<Sample<B>>, item: Item<B>, fails: bool) {
    item.owner.Some? && !fails && !Exists(rows, item.owner.value, item.at)
  }

  /** The servers after the first `n` items. */
  function ServersAfter<B(==)>(servers: map<nat, ServerState>, rows: seq<Sample<B>>, items: seq<Item<B>>,
                               failed: set<nat>, n: nat)
    : map<nat, ServerState>
    requires n <= |items|
  {
    if n == 0 then servers
    else
      var before, item := ServersAfter(servers, rows, items, failed, n - 1), items[n - 1];
      if Inserts(AfterItems(rows, items, failed, n - 1).rows, item, n - 1 in failed) && item.owner.value in before then
        before[item.owner.value := Heard(before[item.owner.value], item.at)]
      else before
  }

  /** Instant of the last sample that the first `n` items add for the server. */
  function LastAdded<B(==)>(rows: seq<Sample<B>>, items: seq<Item<B>>, failed: set<nat>, n: nat, server: nat): Option<int>
    requires n <= |items|
  {
    if n == 0 then None
    else if items[n - 1].owner == Some(server)
            && Inserts(AfterItems(rows, items, failed, n - 1).rows, items[n - 1], n - 1 in failed) then Some(items[n - 1].at)
    else LastAdded(rows, items, failed, n - 1, server)
  }

  /**
   A server's heartbeat is the instant of the last sample stored for it, which also puts it online unless it is in
   maintenance; a server without a new sample stays as it is.
   */
  lemma {:induction false} HeartbeatIsLastSample<B>(servers: map<nat, ServerState>, rows: seq<Sample<B>>, items: seq<Item<B>>,
                                                    failed: set<nat>, n: nat, server: nat)
    requires n <= |items| && server in servers
    ensures server in ServersAfter(servers, rows, items, failed, n)
    ensures
      var last, state := LastAdded(rows, items, failed, n, server), ServersAfter(servers, rows, items, failed, n)[server];
      if last.None? then state == servers[server]
      else
        && state.lastHeartbeatAt == last
        && state.status == if servers[server].status.Maintenance? then Maintenance else Online
  {
    hide Exists, AfterItems;
    if n > 0 {
      HeartbeatIsLastSample(servers, rows, items, failed, n - 1, server);
    }
  }

  /** A round adds a row exactly when it inserts. */
  lemma {:induction false} StepInserts<B>(st: Stored<B>, item: Item<B>, fails: bool)
    ensures StoreStep(st, item, fails).counts.inserted == st.counts.inserted + if Inserts(st.rows, item, fails) then 1 else 0
  {
  }

  // ----- The two kinds of readings -----

  datatype ServerReading = ServerReading(serverExternalId: string, at: int, values: int)

  datatype ChannelReading = ChannelReading(
    sourceId: Option<string>,
    channelExternalId: string,
    eventExternalId: Option<string>,
    streamExternalId: Option<string>,
    serverExternalId: Option<string>,
    at: int,
    values: int)

  datatype ChannelBody = ChannelBody(eventId: Option<nat>, streamId: Option<nat>, serverId: Option<nat>, values: int)

  function ServerItem(ids: map<string, nat>, r: ServerReading): Item<int> {
    Item(if r.serverExternalId in ids then Some(ids[r.serverExternalId]) else None, r.at, r.values)
  }

  function ReadingSource(r: ChannelReading, default: string): string {
    OrElse(r.sourceId, default)
  }

  /** The sample of a reading, found by one lookup for the channel, one for the event and one for the stream. */
  function ChannelItem(t: Tables, ids: map<string, nat>, default: string, r: ChannelReading): Item<ChannelBody> {
    var source := ReadingSource(r, default);
    var channel := FindChannel(t.channels, source, r.channelExternalId);
    if channel.None? then Item(None, r.at, ChannelBody(None, None, None, r.values))
    else
      var event := if r.eventExternalId.Some? then FindTracked(t.events, source, r.eventExternalId.value) else None;
      var stream := if r.streamExternalId.Some? then FindTracked(t.streams, source, r.streamExternalId.value) else None;
      var server := OrElse(r.serverExternalId, "");
      Item(channel, r.at,
           ChannelBody(if event.Some? then event else t.channels[channel.value].eventId,
                       if stream.Some? then stream else t.channels[channel.value].streamId,
                       if server != "" && server in ids then Some(ids[server]) else None,
                       r.values))
  }

  function ServerItems(ids: map<string, nat>, rs: seq<ServerReading>): (items: seq<Item<int>>)
    ensures |items| == |rs|
  {
    seq(|rs|, i requires 0 <= i < |rs| => ServerItem(ids, rs[i]))
  }

  function ChannelItems(t: Tables, ids: map<string, nat>, default: string, rs: seq<ChannelReading>)
    : (items: seq<Item<ChannelBody>>)
    ensures |items| == |rs|
  {
    seq(|rs|, i requires 0 <= i < |rs| => ChannelItem(t, ids, default, rs[i]))
  }

  // ----- What a sample says -----

  /** The reading belongs to the source: its own, or the adapter's if it names none. */
  predicate ReadFrom(r: ChannelReading, default: string, source: string) {
    if r.sourceId.Some? && r.sourceId.value != "" then source == r.sourceId.value else source == default
  }

  /** Row `k` is the first with that identity. */
  ghost predicate FirstChannel(rows: seq<Channel>, source: string, ext: string, k: nat) {
    && k < |rows| && rows[k].sourceId == source && rows[k].externalId == ext
    && forall j :: 0 <= j < k ==> rows[j].sourceId != source || rows[j].externalId != ext
  }

  ghost predicate FirstTracked<D>(rows: seq<Tracked<D>>, source: string, ext: string, k: nat) {
    && k < |rows| && rows[k].sourceId == source && rows[k].externalId == ext
    && forall j :: 0 <= j < k ==> rows[j].sourceId != source || rows[j].externalId != ext
  }

  /**
   The sample of a channel reading: it belongs to the channel with the reading's identity, and is an error without one; its
   event and its stream are those that the reading names, or else the channel's; its server is the one that the reading
   names, if it is known; instant and values are the reading's.
   */
  lemma {:induction false} ChannelItemIsExact(t: Tables, ids: map<string, nat>, default: string, r: ChannelReading,
                                              source: string, k: nat, e: nat)
    requires ReadFrom(r, default, source)
    ensures
      var item := ChannelItem(t, ids, default, r);
      && item.at == r.at && item.body.values == r.values
      && (item.owner == Some(k) <==> FirstChannel(t.channels, source, r.channelExternalId, k))
      && (item.owner == Some(k) ==>
            var row := t.channels[k];
            && (r.eventExternalId.Some? && FirstTracked(t.events, source, r.eventExternalId.value, e) ==>
                  item.body.eventId == Some(e))
            && (r.eventExternalId.None? || (forall j :: !FirstTracked(t.events, source, r.eventExternalId.value, j)) ==>
                  item.body.eventId == row.eventId)
            && (r.streamExternalId.Some? && FirstTracked(t.streams, source, r.streamExternalId.value, e) ==>
                  item.body.streamId == Some(e))
            && (r.streamExternalId.None? || (forall j :: !FirstTracked(t.streams, source, r.streamExternalId.value, j)) ==>
                  item.body.streamId == row.streamId)
            && item.body.serverId ==
               if r.serverExternalId.Some? && r.serverExternalId.value != "" && r.serverExternalId.value in ids
               then Some(ids[r.serverExternalId.value]) else None)
  {
    var channel := FindChannel(t.channels, source, r.channelExternalId);
    assert channel.Some? ==> FirstChannel(t.channels, source, r.channelExternalId, channel.value);
    if r.eventExternalId.Some? {
      var event := FindTracked(t.events, source, r.eventExternalId.value);
      assert event.Some? ==> FirstTracked(t.events, source, r.eventExternalId.value, event.value);
    }
    if r.streamExternalId.Some? {
      var stream := FindTracked(t.streams, source, r.streamExternalId.value);
      assert stream.Some? ==> FirstTracked(t.streams, source, r.streamExternalId.value, stream.value);
    }
    hide FindChannel, FindTracked;
  }

  /** A server reading belongs to the server that it names, and is an error if that is unknown. */
  lemma {:induction false} ServerItemIsExact(ids: map<string, nat>, r: ServerReading, k: nat)
    ensures ServerItem(ids, r).owner == Some(k) <==> r.serverExternalId in ids && ids[r.serverExternalId] == k
    ensures ServerItem(ids, r).at == r.at && ServerItem(ids, r).body == r.values
  {
  }

  /** The reading is an error: its savepoint failed, or its owner is unknown. */
  predicate Errs<B>(items: seq<Item<B>>, failed: set<nat>, i: nat)
    requires i < |items|
  {
    i in failed || items[i].owner.None?
  }

  function CountErrs<B>(items: seq<Item<B>>, failed: set<nat>, n: nat): nat
    requires n <= |items|
  {
    if n == 0 then 0 else CountErrs(items, failed, n - 1) + if Errs(items, failed, n - 1) then 1 else 0
  }

  /** Every sample that a phase adds is that of a reading, word for word, and its errors are exactly the readings that err. */
  lemma {:induction false} AddedSamplesAreReadings<B>(rows: seq<Sample<B>>, items: seq<Item<B>>, failed: set<nat>, n: nat,
                                                      k: nat)
    requires n <= |items|
    ensures AfterItems(rows, items, failed, n).counts.errors == CountErrs(items, failed, n)
    ensures |rows| <= k < |AfterItems(rows, items, failed, n).rows| ==>
              var sample := AfterItems(rows, items, failed, n).rows[k];
              exists i :: && 0 <= i < n && !Errs(items, failed, i)
                          && items[i].owner == Some(sample.owner) && items[i].at == sample.at && items[i].body == sample.body
  {
    hide Exists;
    if n > 0 {
      AddedSamplesAreReadings(rows, items, failed, n - 1, k);
      if |rows| <= k < |AfterItems(rows, items, failed, n).rows| && k >= |AfterItems(rows, items, failed, n - 1).rows| {
        assert !Errs(items, failed, n - 1);
      }
    }
  }
}
