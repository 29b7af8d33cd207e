/**
 `_sync` and the operator's update as functions on the table, and what any sequence of them keeps. Each request is one
 transaction here; the last part drops that and says when two overlapping transactions still agree.
 */
module AlertLifeCycle {
  import opened Wrappers
  import opened Alerts

  // ----- One row -----

  /** What `_sync` makes of the life of an alert whose condition fires. */
  function FiringLife(life: Life): Life {
    if life.status.Resolved? then Life(Active, None, None)
    else if life.status.Acknowledged? then life
    else life.(status := Active)
  }

  /** And of one whose condition does not fire. */
  function QuietLife(life: Life, now: int): Life {
    if life.status.Resolved? then life else life.(status := Resolved, resolvedAt := Some(now))
  }

  /** `update_alert`. */
  function OperatorLife(status: AlertStatus, now: int): Life {
    Life(status, if status.Acknowledged? then Some(now) else None, if status.Resolved? then Some(now) else None)
  }

  /** Resolved rows carry the instant, acknowledged rows carry theirs, active rows carry neither. */
  predicate Consistent(life: Life) {
    && (life.status.Resolved? <==> life.resolvedAt.Some?)
    && (life.status.Acknowledged? ==> life.acknowledgedAt.Some?)
    && (life.status.Active? ==> life.acknowledgedAt.None?)
  }

  function Refreshed(row: Alert, c: Candidate, now: int): Alert {
    Alert(Fingerprint(c), SeverityOf(c), c, row.firstSeenAt, now, FiringLife(row.life))
  }

  function NewAlert(c: Candidate, now: int): Alert {
    Alert(Fingerprint(c), SeverityOf(c), c, now, now, Life(Active, None, None))
  }

  // ----- The table -----

  function FindAlert(rows: seq<Alert>, fingerprint: string): (id: Option<nat>)
    ensures id.Some? ==> id.value < |rows| && rows[id.value].fingerprint == fingerprint
    ensures id.None? ==> forall j :: 0 <= j < |rows| ==> rows[j].fingerprint != fingerprint
  {
    if rows == [] then None
    else if rows[|rows| - 1].fingerprint == fingerprint then Some(|rows| - 1)
    else FindAlert(rows[..|rows| - 1], fingerprint)
  }

  /** The unique constraint on `fingerprint`. */
  ghost predicate UniqueAlerts(rows: seq<Alert>) {
    forall i, j :: 0 <= i < j < |rows| ==> rows[i].fingerprint != rows[j].fingerprint
  }

  /** First loop of `_sync`, after `n` candidates; rows are looked up in the table that the loop started with. */
  function AfterCandidates(rows: seq<Alert>, cs: seq<Candidate>, now: int, n: nat): (rows': seq<Alert>)
    requires n <= |cs|
    ensures |rows| <= |rows'| <= |rows| + n
  {
    if n == 0 then rows
    else
      var before := AfterCandidates(rows, cs, now, n - 1);
      match FindAlert(rows, Fingerprint(cs[n - 1]))
      case Some(i) => before[i := Refreshed(before[i], cs[n - 1], now)]
      case None => before + [NewAlert(cs[n - 1], now)]
  }

  /** The fingerprint is among those of the first `n` candidates. */
  predicate Firing(cs: seq<Candidate>, n: nat, fingerprint: string)
    requires n <= |cs|
  {
    n > 0 && (Fingerprint(cs[n - 1]) == fingerprint || Firing(cs, n - 1, fingerprint))
  }

  function SettledRow(row: Alert, cs: seq<Candidate>, now: int): Alert {
    if Firing(cs, |cs|, row.fingerprint) then row else row.(life := QuietLife(row.life, now))
  }

  /** The whole of `_sync`. */
  function Synced(rows: seq<Alert>, cs: seq<Candidate>, now: int): seq<Alert> {
    var upserted := AfterCandidates(rows, cs, now, |cs|);
    seq(|upserted|, i requires 0 <= i < |upserted| => SettledRow(upserted[i], cs, now))
  }

  function Updated(rows: seq<Alert>, id: nat, status: AlertStatus, now: int): seq<Alert> {
    if id < |rows| then rows[id := rows[id].(life := OperatorLife(status, now))] else rows
  }

  // ----- What the first loop does -----

  lemma {:induction false} FiringIsSome(cs: seq<Candidate>, n: nat, fingerprint: string)
    requires n <= |cs|
    ensures Firing(cs, n, fingerprint) <==> exists i :: 0 <= i < n && Fingerprint(cs[i]) == fingerprint
  {
    hide Fingerprint;
    if n > 0 {
      FiringIsSome(cs, n - 1, fingerprint);
    }
  }

  lemma {:induction false} FiresOnce(cs: seq<Candidate>, n: nat)
    requires 0 < n <= |cs| && DistinctCandidates(cs)
    ensures !Firing(cs, n - 1, Fingerprint(cs[n - 1]))
  {
    hide Fingerprint;
    FiringIsSome(cs, n - 1, Fingerprint(cs[n - 1]));
  }

  lemma {:induction false} FoundIsUnique(rows: seq<Alert>, i: nat)
    requires UniqueAlerts(rows) && i < |rows|
    ensures FindAlert(rows, rows[i].fingerprint) == Some(i)
  {
  }

  /** During the first loop an old row is as it was, or refreshed once by the candidate with its fingerprint. */
  lemma {:induction false} OldRow(rows: seq<Alert>, cs: seq<Candidate>, now: int, n: nat, i: nat)
    requires n <= |cs| && i < |rows| && UniqueAlerts(rows) && DistinctCandidates(cs)
    ensures
      var row, row' := rows[i], AfterCandidates(rows, cs, now, n)[i];
      && row'.fingerprint == row.fingerprint && row'.firstSeenAt == row.firstSeenAt
      && row'.life == (if Firing(cs, n, row.fingerprint) then FiringLife(row.life) else row.life)
      && (!Firing(cs, n, row.fingerprint) ==> row' == row)
  {
    hide Fingerprint, SeverityOf, FiringLife, UniqueAlerts, DistinctCandidates;
    if n > 0 {
      OldRow(rows, cs, now, n - 1, i);
      FiresOnce(cs, n);
      FoundIsUnique(rows, i);
    }
  }

  /** A row that the first loop adds comes from a candidate unknown before. */
  lemma {:induction false} AddedRow(rows: seq<Alert>, cs: seq<Candidate>, now: int, n: nat, i: nat)
    requires n <= |cs| && |rows| <= i < |AfterCandidates(rows, cs, now, n)|
    ensures
      var row := AfterCandidates(rows, cs, now, n)[i];
      && Firing(cs, n, row.fingerprint) && FindAlert(rows, row.fingerprint).None?
      && row.firstSeenAt == now && row.life == Life(Active, None, None)
  {
    hide Fingerprint, SeverityOf, FiringLife, FindAlert;
    if n > 0 && i < |AfterCandidates(rows, cs, now, n - 1)| {
      AddedRow(rows, cs, now, n - 1, i);
    }
  }

  /** Every candidate has its row after the first loop. */
  lemma {:induction false} RowOfCandidate(rows: seq<Alert>, cs: seq<Candidate>, now: int, n: nat, fingerprint: string)
    returns (i: nat)
    requires n <= |cs| && Firing(cs, n, fingerprint) && UniqueAlerts(rows) && DistinctCandidates(cs)
    ensures i < |AfterCandidates(rows, cs, now, n)| && AfterCandidates(rows, cs, now, n)[i].fingerprint == fingerprint
  {
    hide Fingerprint, SeverityOf, FiringLife, UniqueAlerts, DistinctCandidates;
    var found := FindAlert(rows, Fingerprint(cs[n - 1]));
    if Fingerprint(cs[n - 1]) == fingerprint {
      i := if found.Some? then found.value else |AfterCandidates(rows, cs, now, n - 1)|;
    } else {
      i := RowOfCandidate(rows, cs, now, n - 1, fingerprint);
      if found.Some? {
        OldRow(rows, cs, now, n - 1, found.value);
      }
    }
  }

  lemma {:induction false} LoopKeepsUnique(rows: seq<Alert>, cs: seq<Candidate>, now: int, n: nat)
    requires n <= |cs| && UniqueAlerts(rows) && DistinctCandidates(cs)
    ensures UniqueAlerts(AfterCandidates(rows, cs, now, n))
  {
    hide Fingerprint, SeverityOf, FiringLife, DistinctCandidates, Firing;
    if n > 0 {
      LoopKeepsUnique(rows, cs, now, n - 1);
      FiresOnce(cs, n);
      var before, fp := AfterCandidates(rows, cs, now, n - 1), Fingerprint(cs[n - 1]);
      if FindAlert(rows, fp).None? {
        forall i | 0 <= i < |before|
          ensures before[i].fingerprint != fp
        {
          if i < |rows| {
            OldRow(rows, cs, now, n - 1, i);
          } else {
            AddedRow(rows, cs, now, n - 1, i);
          }
        }
      } else {
        OldRow(rows, cs, now, n - 1, FindAlert(rows, fp).value);
      }
    }
  }

  // ----- What a synchronisation returns -----

  /** What a listing shows of one alert. */
  datatype AlertRead = AlertRead(id: nat, alert: Alert)

  /** The list shows, candidate by candidate, the table's row for it. */
  ghost predicate Lists(current: seq<AlertRead>, rows: seq<Alert>, cs: seq<Candidate>, n: nat)
    requires n <= |cs|
  {
    && |current| == n
    && forall k :: 0 <= k < n ==>
         && current[k].id < |rows| && current[k].alert == rows[current[k].id]
         && current[k].alert.fingerprint == Fingerprint(cs[k]) && current[k].alert.about == cs[k]
  }

  /** One more candidate touches none of the rows already listed. */
  lemma {:induction false} ListGrows(current: seq<AlertRead>, rows: seq<Alert>, cs: seq<Candidate>, now: int, n: nat, id: nat)
    requires n < |cs| && UniqueAlerts(rows) && DistinctCandidates(cs)
    requires Lists(current, AfterCandidates(rows, cs, now, n), cs, n)
    requires
      id == match FindAlert(rows, Fingerprint(cs[n])) case Some(i) => i case None => |AfterCandidates(rows, cs, now, n)|
    ensures id < |AfterCandidates(rows, cs, now, n + 1)|
    ensures
      var rows' := AfterCandidates(rows, cs, now, n + 1);
      Lists(current + [AlertRead(id, rows'[id])], rows', cs, n + 1)
  {
    hide Fingerprint, SeverityOf, FiringLife, UniqueAlerts;
    var found := FindAlert(rows, Fingerprint(cs[n]));
    if found.Some? {
      OldRow(rows, cs, now, n, found.value);
    }
  }

  /** The second loop leaves the rows of candidates alone. */
  lemma {:induction false} ListSurvivesSettling(current: seq<AlertRead>, rows: seq<Alert>, cs: seq<Candidate>, now: int)
    requires Lists(current, AfterCandidates(rows, cs, now, |cs|), cs, |cs|)
    ensures Lists(current, Synced(rows, cs, now), cs, |cs|)
  {
    hide Fingerprint, AfterCandidates, QuietLife;
    forall k | 0 <= k < |cs|
      ensures Firing(cs, |cs|, Fingerprint(cs[k]))
    {
      FiringIsSome(cs, |cs|, Fingerprint(cs[k]));
    }
  }

  // ----- What a synchronisation does -----

  /**
   After a synchronisation the unresolved alerts are exactly those of the candidates: each unresolved row has a
   candidate's fingerprint, each candidate has one unresolved row, and no fingerprint occurs twice.
   */
  lemma {:induction false} UnresolvedAreTheCandidates(rows: seq<Alert>, cs: seq<Candidate>, now: int)
    requires UniqueAlerts(rows) && DistinctCandidates(cs)
    ensures UniqueAlerts(Synced(rows, cs, now))
    ensures
      var rows' := Synced(rows, cs, now);
      forall i :: 0 <= i < |rows'| ==> (rows'[i].life.status.Resolved? <==> !Firing(cs, |cs|, rows'[i].fingerprint))
    ensures
      var rows' := Synced(rows, cs, now);
      forall k :: 0 <= k < |cs| ==>
        exists i :: 0 <= i < |rows'| && rows'[i].fingerprint == Fingerprint(cs[k]) && !rows'[i].life.status.Resolved?
  {
    hide Fingerprint, FindAlert, DistinctCandidates, Firing;
    var rows', mid := Synced(rows, cs, now), AfterCandidates(rows, cs, now, |cs|);
    LoopKeepsUnique(rows, cs, now, |cs|);
    hide UniqueAlerts;
    forall i | 0 <= i < |rows'|
      ensures rows'[i].life.status.Resolved? <==> !Firing(cs, |cs|, rows'[i].fingerprint)
    {
      if i < |rows| {
        OldRow(rows, cs, now, |cs|, i);
      } else {
        AddedRow(rows, cs, now, |cs|, i);
      }
    }
    forall k | 0 <= k < |cs|
      ensures exists i :: 0 <= i < |rows'| && rows'[i].fingerprint == Fingerprint(cs[k]) && !rows'[i].life.status.Resolved?
    {
      FiringIsSome(cs, |cs|, Fingerprint(cs[k]));
      var i := RowOfCandidate(rows, cs, now, |cs|, Fingerprint(cs[k]));
      assert rows'[i].fingerprint == mid[i].fingerprint;
    }
  }

  /** What happens to the life of a row that was there before. */
  function NextLife(life: Life, firing: bool, now: int): Life {
    if firing then FiringLife(life) else QuietLife(life, now)
  }

  lemma {:induction false} SyncedLife(rows: seq<Alert>, cs: seq<Candidate>, now: int, i: nat)
    requires UniqueAlerts(rows) && DistinctCandidates(cs) && i < |rows|
    ensures
      var rows' := Synced(rows, cs, now);
      && |rows| <= |rows'|
      && rows'[i].fingerprint == rows[i].fingerprint && rows'[i].firstSeenAt == rows[i].firstSeenAt
      && rows'[i].life == NextLife(rows[i].life, Firing(cs, |cs|, rows[i].fingerprint), now)
  {
    hide FiringLife, QuietLife, Firing, UniqueAlerts, DistinctCandidates;
    OldRow(rows, cs, now, |cs|, i);
  }

  /** A row that was there before, column by column. */
  lemma {:induction false} SyncedRow(rows: seq<Alert>, cs: seq<Candidate>, now: int, i: nat)
    requires UniqueAlerts(rows) && DistinctCandidates(cs) && i < |rows|
    ensures
      var rows' := Synced(rows, cs, now);
      && |rows| <= |rows'|
      && rows'[i].fingerprint == rows[i].fingerprint && rows'[i].firstSeenAt == rows[i].firstSeenAt
      && rows'[i].life ==
         (var life := rows[i].life;
          if exists k :: 0 <= k < |cs| && Fingerprint(cs[k]) == rows[i].fingerprint then
            if life.status.Resolved? then Life(Active, None, None)
            else if life.status.Acknowledged? then life
            else life.(status := Active)
          else if life.status.Resolved? then life
          else life.(status := Resolved, resolvedAt := Some(now)))
      && ((forall k :: 0 <= k < |cs| ==> Fingerprint(cs[k]) != rows[i].fingerprint) ==>
            rows'[i] == rows[i].(life := rows'[i].life))
  {
    hide Fingerprint, Firing, UniqueAlerts, DistinctCandidates;
    OldRow(rows, cs, now, |cs|, i);
    FiringIsSome(cs, |cs|, rows[i].fingerprint);
  }

  /** Candidate `k` has a row that says what it says, seen now, and first seen now if the fingerprint is new. */
  lemma {:induction false} CandidateRow(rows: seq<Alert>, cs: seq<Candidate>, now: int, k: nat) returns (i: nat)
    requires UniqueAlerts(rows) && DistinctCandidates(cs) && k < |cs|
    ensures i < |Synced(rows, cs, now)|
    ensures
      var row := Synced(rows, cs, now)[i];
      && row.fingerprint == Fingerprint(cs[k]) && row.about == cs[k] && row.lastSeenAt == now
      && row.severity == SeverityOf(cs[k]) && !row.life.status.Resolved?
      && (i >= |rows| ==> row.firstSeenAt == now && row.life == Life(Active, None, None))
      && (i < |rows| ==> row.firstSeenAt == rows[i].firstSeenAt && rows[i].fingerprint == row.fingerprint)
  {
    hide Fingerprint, SeverityOf, DistinctCandidates, UniqueAlerts;
    FiringIsSome(cs, |cs|, Fingerprint(cs[k]));
    i := WrittenRow(rows, cs, now, |cs|, k);
    if i < |rows| {
      OldRow(rows, cs, now, |cs|, i);
    } else {
      AddedRow(rows, cs, now, |cs|, i);
    }
    UnresolvedAreTheCandidates(rows, cs, now);
  }

  lemma {:induction false} WrittenRow(rows: seq<Alert>, cs: seq<Candidate>, now: int, n: nat, k: nat) returns (i: nat)
    requires UniqueAlerts(rows) && DistinctCandidates(cs) && k < n <= |cs|
    ensures i < |AfterCandidates(rows, cs, now, n)|
    ensures
      var row := AfterCandidates(rows, cs, now, n)[i];
      && row.fingerprint == Fingerprint(cs[k]) && row.about == cs[k] && row.lastSeenAt == now
      && row.severity == SeverityOf(cs[k])
  {
    hide Fingerprint, SeverityOf, FiringLife, UniqueAlerts;
    var found := FindAlert(rows, Fingerprint(cs[n - 1]));
    if k == n - 1 {
      i := if found.Some? then found.value else |AfterCandidates(rows, cs, now, n - 1)|;
    } else {
      i := WrittenRow(rows, cs, now, n - 1, k);
      if found.Some? {
        OldRow(rows, cs, now, n - 1, found.value);
      }
    }
  }

  lemma {:induction false} LengthWhenKnown(rows: seq<Alert>, cs: seq<Candidate>, now: int, n: nat)
    requires n <= |cs| && forall k :: 0 <= k < n ==> FindAlert(rows, Fingerprint(cs[k])).Some?
    ensures |AfterCandidates(rows, cs, now, n)| == |rows|
  {
    hide Fingerprint, FindAlert, SeverityOf;
    if n > 0 {
      LengthWhenKnown(rows, cs, now, n - 1);
    }
  }

  /** Synchronising the same candidates again adds no row and changes no status, acknowledgement or resolution. */
  lemma {:induction false} ResyncChangesNoStatus(rows: seq<Alert>, cs: seq<Candidate>, now: int, later: int)
    requires UniqueAlerts(rows) && DistinctCandidates(cs)
    ensures
      var once := Synced(rows, cs, now);
      var twice := Synced(once, cs, later);
      && |twice| == |once|
      && forall i :: 0 <= i < |once| ==>
           && twice[i].life == once[i].life && twice[i].fingerprint == once[i].fingerprint
           && twice[i].firstSeenAt == once[i].firstSeenAt
  {
    hide Fingerprint, DistinctCandidates, Firing, UniqueAlerts;
    var once := Synced(rows, cs, now);
    UnresolvedAreTheCandidates(rows, cs, now);
    forall k | 0 <= k < |cs|
      ensures FindAlert(once, Fingerprint(cs[k])).Some?
    {
      var i :| 0 <= i < |once| && once[i].fingerprint == Fingerprint(cs[k]) && !once[i].life.status.Resolved?;
    }
    LengthWhenKnown(once, cs, later, |cs|);
    hide Synced;
    SyncedLength(once, cs, later);
    forall i | 0 <= i < |once|
      ensures
        && Synced(once, cs, later)[i].life == once[i].life && Synced(once, cs, later)[i].fingerprint == once[i].fingerprint
        && Synced(once, cs, later)[i].firstSeenAt == once[i].firstSeenAt
    {
      SyncedLife(once, cs, later, i);
    }
  }

  lemma SyncedLength(rows: seq<Alert>, cs: seq<Candidate>, now: int)
    ensures |Synced(rows, cs, now)| == |AfterCandidates(rows, cs, now, |cs|)|
  {
  }

  // ----- Runs -----

  /** A request: the alerts are listed (and thereby evaluated), or the operator sets a status. */
  datatype Request =
    | List(servers: seq<ServerView>, thresholds: Thresholds, now: int)
    | Update(id: nat, status: AlertStatus, now: int)

  /** Every listing sees the table of servers with its primary key. */
  ghost predicate Proper(r: Request) {
    r.List? ==> DistinctServers(r.servers)
  }

  function CandidatesOf(r: Request): seq<Candidate>
    requires r.List?
  {
    Candidates(r.servers, r.thresholds, r.now, |r.servers|)
  }

  function Handled(rows: seq<Alert>, r: Request): seq<Alert> {
    match r
    case List(_, _, now) => Synced(rows, CandidatesOf(r), now)
    case Update(id, status, now) => Updated(rows, id, status, now)
  }

  function AfterRequests(rows: seq<Alert>, requests: seq<Request>, n: nat): seq<Alert>
    requires n <= |requests|
  {
    if n == 0 then rows else Handled(AfterRequests(rows, requests, n - 1), requests[n - 1])
  }

  /** The table's invariant. */
  ghost predicate Sound(rows: seq<Alert>) {
    UniqueAlerts(rows) && forall i :: 0 <= i < |rows| ==> Consistent(rows[i].life)
  }

  /** Rows stay, with their fingerprint and the instant they were first seen. */
  ghost predicate Continues(rows: seq<Alert>, rows': seq<Alert>) {
    && |rows| <= |rows'|
    && forall i :: 0 <= i < |rows| ==>
         rows'[i].fingerprint == rows[i].fingerprint && rows'[i].firstSeenAt == rows[i].firstSeenAt
  }

  lemma {:induction false} SyncKeepsSound(rows: seq<Alert>, cs: seq<Candidate>, now: int)
    requires Sound(rows) && DistinctCandidates(cs)
    ensures Sound(Synced(rows, cs, now)) && Continues(rows, Synced(rows, cs, now))
  {
    hide Fingerprint, DistinctCandidates, Firing, UniqueAlerts;
    var rows' := Synced(rows, cs, now);
    UnresolvedAreTheCandidates(rows, cs, now);
    forall i | 0 <= i < |rows'|
      ensures Consistent(rows'[i].life)
    {
      if i < |rows| {
        SyncedLife(rows, cs, now, i);
      } else {
        AddedRow(rows, cs, now, |cs|, i);
      }
    }
    forall i | 0 <= i < |rows|
      ensures rows'[i].fingerprint == rows[i].fingerprint && rows'[i].firstSeenAt == rows[i].firstSeenAt
    {
      SyncedLife(rows, cs, now, i);
    }
  }

  lemma {:induction false} RequestKeepsSound(rows: seq<Alert>, r: Request)
    requires Sound(rows) && Proper(r)
    ensures Sound(Handled(rows, r)) && Continues(rows, Handled(rows, r))
  {
    match r {
      case List(servers, thresholds, now) =>
        EvaluateNeverRepeats(servers, thresholds, now, |servers|);
        SyncKeepsSound(rows, CandidatesOf(r), now);
      case Update(id, status, now) =>
    }
    hide Candidates, Synced, DistinctCandidates;
  }

  /** Over every sequence of listings and operator updates. */
  lemma {:induction false} RunKeepsSound(rows: seq<Alert>, requests: seq<Request>, m: nat, n: nat)
    requires Sound(rows) && m <= n <= |requests| && forall k :: 0 <= k < |requests| ==> Proper(requests[k])
    ensures Sound(AfterRequests(rows, requests, n))
    ensures Continues(AfterRequests(rows, requests, m), AfterRequests(rows, requests, n))
    decreases n
  {
    hide Handled, Sound, Proper;
    if n > 0 {
      RunKeepsSound(rows, requests, if m < n then m else n - 1, n - 1);
      RequestKeepsSound(AfterRequests(rows, requests, n - 1), requests[n - 1]);
    }
  }

  /** The request leaves the acknowledgement of alert `i` alone: its condition fires, or another alert is updated. */
  predicate Spares(rows: seq<Alert>, r: Request, i: nat) {
    i < |rows| && match r
                  case List(_, _, _) => Firing(CandidatesOf(r), |CandidatesOf(r)|, rows[i].fingerprint)
                  case Update(id, _, _) => id != i
  }

  /** An acknowledgement survives as long as its condition keeps firing and the operator leaves the alert alone. */
  lemma {:induction false} AcknowledgementSurvives(rows: seq<Alert>, requests: seq<Request>, m: nat, n: nat, i: nat)
    requires Sound(rows) && m <= n <= |requests| && forall k :: 0 <= k < |requests| ==> Proper(requests[k])
    requires i < |AfterRequests(rows, requests, m)| && AfterRequests(rows, requests, m)[i].life.status.Acknowledged?
    requires forall k :: m <= k < n ==> Spares(AfterRequests(rows, requests, k), requests[k], i)
    ensures i < |AfterRequests(rows, requests, n)|
    ensures AfterRequests(rows, requests, n)[i].life == AfterRequests(rows, requests, m)[i].life
    decreases n
  {
    hide Handled, Sound, Proper, Spares;
    if m < n {
      AcknowledgementSurvives(rows, requests, m, n - 1, i);
      RunKeepsSound(rows, requests, m, n - 1);
      SparedLife(AfterRequests(rows, requests, n - 1), requests[n - 1], i);
    }
  }

  lemma {:induction false} SparedLife(rows: seq<Alert>, r: Request, i: nat)
    requires Sound(rows) && Proper(r) && Spares(rows, r, i) && rows[i].life.status.Acknowledged?
    ensures i < |Handled(rows, r)| && Handled(rows, r)[i].life == rows[i].life
  {
    hide Candidates, Synced, Firing;
    if r.List? {
      EvaluateNeverRepeats(r.servers, r.thresholds, r.now, |r.servers|);
      SyncedLife(rows, CandidatesOf(r), r.now, i);
    }
  }

  /** The first listing that finds a resolved alert firing again makes it active and forgets who acknowledged it. */
  lemma {:induction false} FiringAgainStartsAfresh(rows: seq<Alert>, r: Request, i: nat)
    requires Sound(rows) && Proper(r) && r.List? && Spares(rows, r, i) && rows[i].life.status.Resolved?
    ensures i < |Handled(rows, r)| && Handled(rows, r)[i].life == Life(Active, None, None)
  {
    hide Candidates, Synced, Firing;
    EvaluateNeverRepeats(r.servers, r.thresholds, r.now, |r.servers|);
    SyncedLife(rows, CandidatesOf(r), r.now, i);
  }

  // ----- Overlapping transactions -----

  /** A session that loaded `seen` commits `mine`: only changed columns are written. */
  function CommitLife(stored: Life, seen: Life, mine: Life): Life {
    Life(Pick(stored.status, seen.status, mine.status),
         Pick(stored.acknowledgedAt, seen.acknowledgedAt, mine.acknowledgedAt),
         Pick(stored.resolvedAt, seen.resolvedAt, mine.resolvedAt))
  }

  /** Resolved exactly when the instant of resolution is set. */
  predicate Marked(life: Life) {
    life.status.Resolved? <==> life.resolvedAt.Some?
  }

  /**
   A commit breaks the mark exactly when it writes one of the two columns without the other and, since it read the row,
   someone else resolved or reopened the alert.
   */
  lemma {:induction false} CommitKeepsMarkIff(stored: Life, seen: Life, mine: Life)
    requires Marked(stored) && Marked(seen) && Marked(mine)
    ensures
      Marked(CommitLife(stored, seen, mine)) <==>
      ((mine.status != seen.status) == (mine.resolvedAt != seen.resolvedAt)
       || stored.status.Resolved? == seen.status.Resolved?)
  {
  }

  /**
   Two requests that overlap can break it: a listing and an acknowledgement both read an active alert, the listing
   resolves it, and the acknowledgement then leaves it acknowledged with an instant of resolution.
   */
  lemma {:induction false} OverlapBreaksMark(now: int)
    ensures
      var seen := Life(Active, None, None);
      var resolved := CommitLife(seen, seen, QuietLife(seen, now));
      var end := CommitLife(resolved, seen, OperatorLife(Acknowledged, now));
      Marked(resolved) && end.status.Acknowledged? && end.resolvedAt == Some(now) && !Marked(end)
  {
  }

  /**
   A listing that fires keeps an acknowledgement committed since it read the row exactly when it had not read the alert as
   resolved; otherwise it reopens the alert, and the instant of the acknowledgement stays behind unless it had read one.
   */
  lemma {:induction false} FiringKeepsAcknowledgementIff(stored: Life, seen: Life)
    requires Consistent(stored) && Consistent(seen) && stored.status.Acknowledged?
    ensures
      var end := CommitLife(stored, seen, FiringLife(seen));
      && (end.status.Acknowledged? <==> !seen.status.Resolved?)
      && (end == stored <==> !seen.status.Resolved?)
      && (Consistent(end) <==> !seen.status.Resolved? || seen.acknowledgedAt.Some?)
  {
  }

  /**
   The overlap that loses it: a listing has read a resolved alert, the operator acknowledges the alert, and the listing
   then makes it active, with the instant of the lost acknowledgement left behind.
   */
  lemma {:induction false} ReopeningLosesAcknowledgement(resolvedAt: int, now: int)
    ensures
      var seen := Life(Resolved, None, Some(resolvedAt));
      var acknowledged := CommitLife(seen, seen, OperatorLife(Acknowledged, now));
      var end := CommitLife(acknowledged, seen, FiringLife(seen));
      && Consistent(seen) && Consistent(acknowledged) && acknowledged.status.Acknowledged?
      && end == Life(Active, Some(now), None) && !Consistent(end)
  {
  }
}
