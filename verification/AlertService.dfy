/** The service and repository objects of the alerts: every method is proved against `Alerts` and `AlertLifeCycle`. */
module AlertService {
  import opened Wrappers
  import opened Alerts
  import opened AlertLifeCycle

  class AlertRepository {
    var rows: seq<Alert>

    constructor ()
      ensures rows == []
    {
      rows := [];
    }

    /** `map_by_fingerprints`: the rows of a whole batch, as one query returns them. */
    method MapByFingerprints(cs: seq<Candidate>) returns (existing: map<string, nat>)
      ensures forall k :: 0 <= k < |cs| ==>
                (match FindAlert(rows, Fingerprint(cs[k]))
                 case Some(i) => Fingerprint(cs[k]) in existing && existing[Fingerprint(cs[k])] == i
                 case None => Fingerprint(cs[k]) !in existing)
    {
      hide Fingerprint;
      existing := map[];
      for k := 0 to |cs|
        invariant forall f :: f in existing ==> FindAlert(rows, f) == Some(existing[f])
        invariant forall j :: 0 <= j < k && FindAlert(rows, Fingerprint(cs[j])).Some? ==> Fingerprint(cs[j]) in existing
      {
        var found := FindAlert(rows, Fingerprint(cs[k]));
        if found.Some? {
          existing := existing[Fingerprint(cs[k]) := found.value];
        }
      }
    }
  }

  class AlertService {
    const alerts: AlertRepository

    constructor (alerts: AlertRepository)
      ensures this.alerts == alerts
    {
      this.alerts := alerts;
    }

    /** `_evaluate_metric`. */
    method EvaluateMetric(server: nat, m: Sample, t: Thresholds, now: int) returns (found: seq<Candidate>)
      ensures found == MetricCandidates(server, m, t, now)
    {
      found := [];
      var age := now - m.collectedAt;
      if age > t.staleMinutes * MINUTE {
        var minutes := age as real / MINUTE as real;
        found := found + [Candidate(StaleServer, server, Some(minutes), Some(t.staleMinutes as real), Some(m.collectedAt))];
      }
      var checks := [(HighCpu, m.cpu, t.cpu), (HighMemory, m.memory, t.memory), (HighDisk, m.disk, t.disk),
                     (HighNetworkUtilization, m.networkUtilization, t.network)];
      ghost var stale := found;
      for k := 0 to |checks|
        invariant found == stale
                           + (if k > 0 then Check(server, HighCpu, m.cpu, t.cpu, m.collectedAt) else [])
                           + (if k > 1 then Check(server, HighMemory, m.memory, t.memory, m.collectedAt) else [])
                           + (if k > 2 then Check(server, HighDisk, m.disk, t.disk, m.collectedAt) else [])
                           + (if k > 3 then Check(server, HighNetworkUtilization, m.networkUtilization, t.network, m.collectedAt)
                              else [])
      {
        var (kind, value, threshold) := checks[k];
        if value.Some? && value.value > threshold {
          found := found + [Candidate(kind, server, value, Some(threshold), Some(m.collectedAt))];
        }
      }
    }

    /** The loop of `evaluate`. */
    method CollectCandidates(servers: seq<ServerView>, t: Thresholds, now: int) returns (found: seq<Candidate>)
      ensures found == Candidates(servers, t, now, |servers|)
    {
      hide MetricCandidates;
      found := [];
      for k := 0 to |servers|
        invariant found == Candidates(servers, t, now, k)
      {
        var server := servers[k];
        if !server.enabled {
          assert ServerCandidates(server, t, now) == [];
          continue;
        }
        if server.latest.None? {
          found := found + [Candidate(StaleServer, server.id, None, None, None)];
        } else {
          var own := EvaluateMetric(server.id, server.latest.value, t, now);
          found := found + own;
        }
      }
    }

    /** `evaluate`. */
    method Evaluate(servers: seq<ServerView>, t: Thresholds, now: int) returns (current: seq<AlertRead>)
      requires DistinctServers(servers) && UniqueAlerts(alerts.rows)
      modifies alerts
      ensures alerts.rows == Handled(old(alerts.rows), List(servers, t, now))
      ensures
        var cs := Candidates(servers, t, now, |servers|);
        Lists(current, alerts.rows, cs, |cs|)
    {
      var found := CollectCandidates(servers, t, now);
      EvaluateNeverRepeats(servers, t, now, |servers|);
      hide Candidates, Synced, DistinctCandidates;
      current := Sync(found, now);
    }

    /** `_sync`. */
    method Sync(cs: seq<Candidate>, now: int) returns (current: seq<AlertRead>)
      requires UniqueAlerts(alerts.rows) && DistinctCandidates(cs)
      modifies alerts
      ensures alerts.rows == Synced(old(alerts.rows), cs, now)
      ensures Lists(current, alerts.rows, cs, |cs|)
    {
      hide Fingerprint, SeverityOf, DistinctCandidates, UniqueAlerts;
      var existing := alerts.MapByFingerprints(cs);
      ghost var before := alerts.rows;
      var fingerprints: set<string> := {};
      current := [];
      assert Lists(current, alerts.rows, cs, 0);
      hide Lists;
      for n := 0 to |cs|
        invariant alerts.rows == AfterCandidates(before, cs, now, n)
        invariant forall f :: f in fingerprints <==> Firing(cs, n, f)
        invariant Lists(current, alerts.rows, cs, n)
      {
        var id := UpsertCandidate(cs[n], existing, before, now);
        ListGrows(current, before, cs, now, n, id);
        current := current + [AlertRead(id, alerts.rows[id])];
        fingerprints := fingerprints + {Fingerprint(cs[n])};
      }
      ResolveOthers(cs, fingerprints, now);
      ListSurvivesSettling(current, before, cs, now);
      assert alerts.rows == Synced(before, cs, now);
    }

    /** One round of its first loop. */
    method UpsertCandidate(c: Candidate, existing: map<string, nat>, ghost before: seq<Alert>, now: int)
      returns (id: nat)
      requires |before| <= |alerts.rows|
      requires match FindAlert(before, Fingerprint(c))
               case Some(i) => Fingerprint(c) in existing && existing[Fingerprint(c)] == i
               case None => Fingerprint(c) !in existing
      modifies alerts
      ensures
        alerts.rows == match FindAlert(before, Fingerprint(c))
                       case Some(i) => old(alerts.rows)[i := Refreshed(old(alerts.rows[i]), c, now)]
                       case None => old(alerts.rows) + [NewAlert(c, now)]
      ensures id == match FindAlert(before, Fingerprint(c)) case Some(i) => i case None => |old(alerts.rows)|
    {
      hide Fingerprint, SeverityOf;
      var fingerprint := Fingerprint(c);
      if fingerprint !in existing {
        alerts.rows := alerts.rows + [Alert(fingerprint, SeverityOf(c), c, now, now, Life(Active, None, None))];
        return |alerts.rows| - 1;
      }
      id := existing[fingerprint];
      var row := alerts.rows[id];
      var acknowledged, resolved := row.life.status.Acknowledged?, row.life.status.Resolved?;
      row := row.(fingerprint := fingerprint, severity := SeverityOf(c), about := c, lastSeenAt := now);
      if resolved {
        row := row.(life := Life(Active, None, None));
      } else if !acknowledged {
        row := row.(life := row.life.(status := Active));
      }
      alerts.rows := alerts.rows[id := row];
    }

    /** Its second loop. */
    method ResolveOthers(cs: seq<Candidate>, fingerprints: set<string>, now: int)
      requires forall f :: f in fingerprints <==> Firing(cs, |cs|, f)
      modifies alerts
      ensures |alerts.rows| == |old(alerts.rows)|
      ensures forall i :: 0 <= i < |alerts.rows| ==> alerts.rows[i] == SettledRow(old(alerts.rows[i]), cs, now)
    {
      hide Firing;
      ghost var before := alerts.rows;
      for i := 0 to |alerts.rows|
        invariant |alerts.rows| == |before|
        invariant forall j :: i <= j < |before| ==> alerts.rows[j] == before[j]
        invariant forall j :: 0 <= j < i ==> alerts.rows[j] == SettledRow(before[j], cs, now)
      {
        var row := alerts.rows[i];
        if !row.life.status.Resolved? && row.fingerprint !in fingerprints {
          alerts.rows := alerts.rows[i := row.(life := row.life.(status := Resolved, resolvedAt := Some(now)))];
        }
      }
    }

    /** `update_alert`; an unknown id is status 404. */
    method UpdateAlert(id: nat, status: AlertStatus, now: int) returns (found: bool)
      modifies alerts
      ensures found == (id < |old(alerts.rows)|)
      ensures alerts.rows == Handled(old(alerts.rows), Update(id, status, now))
    {
      if id >= |alerts.rows| {
        return false;
      }
      var life := alerts.rows[id].life.(status := status);
      life := life.(acknowledgedAt := if status.Acknowledged? then Some(now) else None);
      life := life.(resolvedAt := if status.Resolved? then Some(now) else None);
      alerts.rows := alerts.rows[id := alerts.rows[id].(life := life)];
      found := true;
    }
  }
}
