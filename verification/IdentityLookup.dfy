/**
 The batched lookups of app/repositories/channel_repository.py (`get_by_identities`, `get_events_by_identities`,
 `get_streams_by_identities`): one query per source, against one query per identity. The three differ only in the table,
 which is seen here through its two identity columns.
 */
module IdentityLookup {
  import opened Wrappers
  import opened ChannelSync

  datatype Identity = Identity(source: string, ext: string)

  /** The unique constraint on (source_id, external_id). */
  ghost predicate Unique(keys: seq<Identity>) {
    forall i, j :: 0 <= i < j < |keys| ==> keys[i] != keys[j]
  }

  /** The lookup of a single identity: `get_by_identity`. */
  function Lookup(keys: seq<Identity>, key: Identity): (row: Option<nat>)
    ensures row.Some? ==> row.value < |keys| && keys[row.value] == key
    ensures row.Some? ==> forall j :: 0 <= j < row.value ==> keys[j] != key
    ensures row.None? ==> key !in keys
  {
    if keys == [] then None
    else
      var last := |keys| - 1;
      match Lookup(keys[..last], key)
      case Some(i) => Some(i)
      case None => if keys[last] == key then Some(last) else None
  }

  function ChannelKeys(rows: seq<Channel>): (keys: seq<Identity>)
    ensures |keys| == |rows|
  {
    seq(|rows|, i requires 0 <= i < |rows| => Identity(rows[i].sourceId, rows[i].externalId))
  }

  function TrackedKeys<D>(rows: seq<Tracked<D>>): (keys: seq<Identity>)
    ensures |keys| == |rows|
  {
    seq(|rows|, i requires 0 <= i < |rows| => Identity(rows[i].sourceId, rows[i].externalId))
  }

  lemma {:induction false} LookupFindsChannel(rows: seq<Channel>, source: string, ext: string)
    ensures Lookup(ChannelKeys(rows), Identity(source, ext)) == FindChannel(rows, source, ext)
  {
    var keys, single := ChannelKeys(rows), FindChannel(rows, source, ext);
    var found := Lookup(keys, Identity(source, ext));
    assert single.Some? ==> keys[single.value] == Identity(source, ext);
    assert found.Some? ==> HasIdentity(rows[found.value], source, ext);
    if found.Some? && single.Some? {
      assert !(found.value < single.value) && !(single.value < found.value);
    }
  }

  lemma {:induction false} LookupFindsTracked<D>(rows: seq<Tracked<D>>, source: string, ext: string)
    ensures Lookup(TrackedKeys(rows), Identity(source, ext)) == FindTracked(rows, source, ext)
  {
    var keys, single := TrackedKeys(rows), FindTracked(rows, source, ext);
    var found := Lookup(keys, Identity(source, ext));
    assert single.Some? ==> keys[single.value] == Identity(source, ext);
    assert found.Some? ==> IsTracked(rows[found.value], source, ext);
    if found.Some? && single.Some? {
      assert !(found.value < single.value) && !(single.value < found.value);
    }
  }

  /** The dictionary holds the identities it was asked for, each with the row that a single lookup would return. */
  ghost predicate Agrees(found: map<Identity, nat>, keys: seq<Identity>, asked: set<Identity>) {
    && (forall k :: k in found ==> k in asked)
    && (forall k :: k in asked ==> (k in found <==> Lookup(keys, k).Some?))
    && (forall k :: k in found ==> Lookup(keys, k) == Some(found[k]))
  }

  /** The identities of one source. */
  predicate Groups(bySource: map<string, set<string>>, k: Identity) {
    k.source in bySource && k.ext in bySource[k.source]
  }

  /** First loop: the external ids asked for, by source. */
  method GroupBySource(identities: set<Identity>) returns (bySource: map<string, set<string>>)
    ensures forall k :: Groups(bySource, k) <==> k in identities
  {
    bySource := map[];
    var rest := identities;
    while rest != {}
      invariant rest <= identities
      invariant forall k :: Groups(bySource, k) <==> k in identities - rest
      decreases |rest|
    {
      var k :| k in rest;
      rest := rest - {k};
      var known := if k.source in bySource then bySource[k.source] else {};
      ghost var before := bySource;
      bySource := bySource[k.source := known + {k.ext}];
      forall x
        ensures Groups(bySource, x) <==> Groups(before, x) || x == k
      {
        assert x == k <==> x.source == k.source && x.ext == k.ext;
      }
    }
  }

  /** One query: every row of a source whose external id is asked for. */
  method QuerySource(keys: seq<Identity>, source: string, exts: set<string>, before: map<Identity, nat>)
    returns (found: map<Identity, nat>)
    requires Unique(keys) && forall k :: k in before ==> k.source != source
    ensures forall k: Identity :: k.source != source ==>
              (k in found <==> k in before) && (k in found ==> found[k] == before[k])
    ensures forall k: Identity :: k.source == source ==> (k in found <==> k.ext in exts && Lookup(keys, k).Some?)
    ensures forall k: Identity :: k.source == source && k in found ==> Lookup(keys, k) == Some(found[k])
  {
    found := before;
    for i := 0 to |keys|
      invariant forall k: Identity :: k.source != source ==>
                  (k in found <==> k in before) && (k in found ==> found[k] == before[k])
      invariant forall k: Identity :: k.source == source && k in found ==>
                  k.ext in exts && found[k] < i && keys[found[k]] == k
      invariant forall j :: 0 <= j < i && keys[j].source == source && keys[j].ext in exts ==> keys[j] in found
    {
      if keys[i].source == source && keys[i].ext in exts {
        found := found[keys[i] := i];
      }
    }
  }

  /** The batched lookup returns exactly what one-by-one lookups would. */
  method GetByIdentities(keys: seq<Identity>, identities: set<Identity>) returns (found: map<Identity, nat>)
    requires Unique(keys)
    ensures Agrees(found, keys, identities)
  {
    var bySource := GroupBySource(identities);
    found := map[];
    var rest := bySource.Keys;
    while rest != {}
      invariant rest <= bySource.Keys
      invariant forall k :: k in found ==> k in identities && k.source !in rest && Lookup(keys, k) == Some(found[k])
      invariant forall k :: k in identities && k.source !in rest ==> (k in found <==> Lookup(keys, k).Some?)
      decreases |rest|
    {
      var source :| source in rest;
      rest := rest - {source};
      var more := QuerySource(keys, source, bySource[source], found);
      forall k | k in more
        ensures k in identities && k.source !in rest && Lookup(keys, k) == Some(more[k])
      {
        assert k.source == source ==> Groups(bySource, k);
      }
      forall k | k in identities && k.source !in rest
        ensures k in more <==> Lookup(keys, k).Some?
      {
        assert Groups(bySource, k);
      }
      found := more;
    }
    forall k | k in identities
      ensures k in found <==> Lookup(keys, k).Some?
    {
      assert Groups(bySource, k);
    }
  }
}
