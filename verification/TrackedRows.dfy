/**
 Repeating a list of event or stream upserts at the same instant changes nothing: the last writer of each row wins
 both times.
 */
module TrackedRows {
  import opened Wrappers
  import opened ChannelSync

  /** One call of `_upsert_event` or `_upsert_stream`; without an external id it does nothing. */
  datatype Write<D> = Write(source: string, ext: Option<string>, details: D)

  function TrackAll<D>(rows: seq<Tracked<D>>, writes: seq<Write<D>>, at: int, n: nat): seq<Tracked<D>>
    requires n <= |writes|
  {
    if n == 0 then rows
    else
      var w := writes[n - 1];
      Track(TrackAll(rows, writes, at, n - 1), w.source, w.ext, w.details, at)
  }

  /** Positions, identities and first instants survive. */
  ghost predicate Grows<D>(rows: seq<Tracked<D>>, rows': seq<Tracked<D>>) {
    && |rows| <= |rows'|
    && forall k :: 0 <= k < |rows| ==>
                     && IsTracked(rows'[k], rows[k].sourceId, rows[k].externalId)
                     && rows'[k].firstSeenAt == rows[k].firstSeenAt
  }

  /** The write hits row `k`. */
  predicate Hits<D>(rows: seq<Tracked<D>>, w: Write<D>, k: nat) {
    w.ext.Some? && FindTracked(rows, w.source, w.ext.value) == Some(k)
  }

  lemma {:induction false} FindSurvives<D>(rows: seq<Tracked<D>>, rows': seq<Tracked<D>>, source: string, ext: string)
    requires Grows(rows, rows') && FindTracked(rows, source, ext).Some?
    ensures FindTracked(rows', source, ext) == FindTracked(rows, source, ext)
  {
  }

  lemma {:induction false} TrackGrows<D>(rows: seq<Tracked<D>>, w: Write<D>, at: int)
    ensures Grows(rows, Track(rows, w.source, w.ext, w.details, at))
    ensures w.ext.Some? ==>
              FindTracked(Track(rows, w.source, w.ext, w.details, at), w.source, w.ext.value)
              == TrackedId(rows, w.source, w.ext)
  {
  }

  lemma {:induction false} TrackAllGrows<D>(rows: seq<Tracked<D>>, writes: seq<Write<D>>, at: int, m: nat, n: nat)
    requires m <= n <= |writes|
    ensures Grows(TrackAll(rows, writes, at, m), TrackAll(rows, writes, at, n))
    decreases n
  {
    if m < n {
      TrackAllGrows(rows, writes, at, m, n - 1);
      TrackGrows(TrackAll(rows, writes, at, n - 1), writes[n - 1], at);
    }
  }

  /** Once a write has been made, its identity keeps the position it got then. */
  lemma {:induction false} WrittenIsFound<D>(rows: seq<Tracked<D>>, writes: seq<Write<D>>, at: int, i: nat, n: nat)
    requires i < n <= |writes| && writes[i].ext.Some?
    ensures
      var w, before := writes[i], TrackAll(rows, writes, at, i);
      FindTracked(TrackAll(rows, writes, at, n), w.source, w.ext.value) == TrackedId(before, w.source, w.ext)
  {
    TrackGrows(TrackAll(rows, writes, at, i), writes[i], at);
    TrackAllGrows(rows, writes, at, i + 1, n);
    FindSurvives(TrackAll(rows, writes, at, i + 1), TrackAll(rows, writes, at, n), writes[i].source, writes[i].ext.value);
  }

  /** A row that no later write hits keeps what write `i` put there. */
  lemma {:induction false} LastWriterWins<D>(rows: seq<Tracked<D>>, writes: seq<Write<D>>, at: int, i: nat, n: nat, k: nat)
    requires i < n <= |writes|
    requires Hits(TrackAll(rows, writes, at, |writes|), writes[i], k)
    requires forall j :: i < j < n ==> !Hits(TrackAll(rows, writes, at, |writes|), writes[j], k)
    ensures
      var now := TrackAll(rows, writes, at, n);
      k < |now| && now[k].lastSeenAt == at && now[k].details == writes[i].details
  {
    WrittenIsFound(rows, writes, at, i, n);
    WrittenIsFound(rows, writes, at, i, |writes|);
    if i < n - 1 {
      LastWriterWins(rows, writes, at, i, n - 1, k);
      if writes[n - 1].ext.Some? {
        WrittenIsFound(rows, writes, at, n - 1, |writes|);
      }
    }
  }

  /** A write from `n` on hits row `k`. */
  ghost predicate HitFrom<D>(rows: seq<Tracked<D>>, writes: seq<Write<D>>, n: nat, k: nat) {
    exists j :: n <= j < |writes| && Hits(rows, writes[j], k)
  }

  /** Every row equals its final value or is still to be rewritten. */
  ghost predicate Pending<D>(last: seq<Tracked<D>>, now: seq<Tracked<D>>, writes: seq<Write<D>>, n: nat) {
    && |now| == |last| && Grows(last, now)
    && forall k :: 0 <= k < |last| ==> now[k] == last[k] || HitFrom(last, writes, n, k)
  }

  lemma {:induction false} SecondRunStep<D>(last: seq<Tracked<D>>, now: seq<Tracked<D>>, writes: seq<Write<D>>, at: int, n: nat)
    requires n < |writes| && Pending(last, now, writes, n)
    requires writes[n].ext.Some? ==> FindTracked(last, writes[n].source, writes[n].ext.value).Some?
    requires forall k :: 0 <= k < |last| && Hits(last, writes[n], k) && !HitFrom(last, writes, n + 1, k) ==>
                           last[k].lastSeenAt == at && last[k].details == writes[n].details
    ensures Pending(last, Track(now, writes[n].source, writes[n].ext, writes[n].details, at), writes, n + 1)
  {
  }

  lemma {:induction false} SecondRun<D>(rows: seq<Tracked<D>>, writes: seq<Write<D>>, at: int, n: nat)
    requires n <= |writes|
    ensures
      var last := TrackAll(rows, writes, at, |writes|);
      Pending(last, TrackAll(last, writes, at, n), writes, n)
  {
    var last := TrackAll(rows, writes, at, |writes|);
    if n > 0 {
      SecondRun(rows, writes, at, n - 1);
      var w := writes[n - 1];
      if w.ext.Some? {
        WrittenIsFound(rows, writes, at, n - 1, |writes|);
      }
      forall k | 0 <= k < |last| && Hits(last, w, k) && !HitFrom(last, writes, n, k)
        ensures last[k].lastSeenAt == at && last[k].details == w.details
      {
        LastWriterWins(rows, writes, at, n - 1, |writes|, k);
      }
      hide Pending;
      SecondRunStep(last, TrackAll(last, writes, at, n - 1), writes, at, n - 1);
    }
  }

  /** Running the same writes again at the same instant leaves the table exactly equal. */
  lemma {:induction false} TrackAllTwice<D>(rows: seq<Tracked<D>>, writes: seq<Write<D>>, at: int)
    ensures
      var last := TrackAll(rows, writes, at, |writes|);
      TrackAll(last, writes, at, |writes|) == last
  {
    SecondRun(rows, writes, at, |writes|);
  }
}
