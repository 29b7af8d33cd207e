/**
 The life cycle of an alert (app/services/alert_service.py, app/api/v1/alerts.py, app/repositories/alert_repository.py).
 A table is a sequence of rows; a row's position stands for its id.
 */
module Alerts {
  import opened Wrappers
  import opened Decimal

  const MINUTE := 60_000_000

  datatype AlertType = HighCpu | HighMemory | HighDisk | HighNetworkUtilization | StaleServer

  datatype Severity = Warning | Critical

  datatype AlertStatus = Active | Acknowledged | Resolved

  /** One alert that the latest samples call for. */
  datatype Candidate = Candidate(
    kind: AlertType,
    serverId: nat,
    value: Option<real>,
    threshold: Option<real>,
    collectedAt: Option<int>)

  /** The three columns of the life cycle. */
  datatype Life = Life(status: AlertStatus, acknowledgedAt: Option<int>, resolvedAt: Option<int>)

  datatype Alert = Alert(
    fingerprint: string,
    severity: Severity,
    about: Candidate,
    firstSeenAt: int,
    lastSeenAt: int,
    life: Life)

  // ----- Candidates -----

  datatype Sample = Sample(
    collectedAt: int,
    cpu: Option<real>,
    memory: Option<real>,
    disk: Option<real>,
    networkUtilization: Option<real>)

  /** A server of `list_all` with its latest sample, if it has one. */
  datatype ServerView = ServerView(id: nat, enabled: bool, latest: Option<Sample>)

  datatype Thresholds = Thresholds(cpu: real, memory: real, disk: real, network: real, staleMinutes: nat)

  function TypeValue(kind: AlertType): string {
    match kind
    case HighCpu => "high_cpu"
    case HighMemory => "high_memory"
    case HighDisk => "high_disk"
    case HighNetworkUtilization => "high_network_utilization"
    case StaleServer => "stale_server"
  }

  /** `f"{server_id}:{type}"`. */
  function FingerprintOf(id: nat, kind: AlertType): string {
    PrintInt(id) + ":" + TypeValue(kind)
  }

  function Fingerprint(c: Candidate): string {
    FingerprintOf(c.serverId, c.kind)
  }

  function SeverityOf(c: Candidate): Severity {
    if (c.kind.HighCpu? || c.kind.HighMemory? || c.kind.HighDisk?) && c.value.Some? && c.value.value >= 95.0 then Critical
    else Warning
  }

  function Check(server: nat, kind: AlertType, value: Option<real>, threshold: real, at: int): seq<Candidate> {
    if value.Some? && value.value > threshold then [Candidate(kind, server, value, Some(threshold), Some(at))] else []
  }

  function StaleCheck(server: nat, m: Sample, t: Thresholds, now: int): seq<Candidate> {
    var age := now - m.collectedAt;
    if age > t.staleMinutes * MINUTE then
      [Candidate(StaleServer, server, Some(age as real / MINUTE as real), Some(t.staleMinutes as real), Some(m.collectedAt))]
    else []
  }

  /** `_evaluate_metric`. */
  function MetricCandidates(server: nat, m: Sample, t: Thresholds, now: int): seq<Candidate> {
    StaleCheck(server, m, t, now)
    + Check(server, HighCpu, m.cpu, t.cpu, m.collectedAt)
    + Check(server, HighMemory, m.memory, t.memory, m.collectedAt)
    + Check(server, HighDisk, m.disk, t.disk, m.collectedAt)
    + Check(server, HighNetworkUtilization, m.networkUtilization, t.network, m.collectedAt)
  }

  function ServerCandidates(s: ServerView, t: Thresholds, now: int): seq<Candidate> {
    if !s.enabled then []
    else if s.latest.None? then [Candidate(StaleServer, s.id, None, None, None)]
    else MetricCandidates(s.id, s.latest.value, t, now)
  }

  /** The loop of `evaluate`, after the first `n` servers. */
  function Candidates(servers: seq<ServerView>, t: Thresholds, now: int, n: nat): seq<Candidate>
    requires n <= |servers|
  {
    if n == 0 then [] else Candidates(servers, t, now, n - 1) + ServerCandidates(servers[n - 1], t, now)
  }

  /** The table of servers has a primary key. */
  ghost predicate DistinctServers(servers: seq<ServerView>) {
    forall i, j :: 0 <= i < j < |servers| ==> servers[i].id != servers[j].id
  }

  ghost predicate DistinctCandidates(cs: seq<Candidate>) {
    forall i, j :: 0 <= i < j < |cs| ==> Fingerprint(cs[i]) != Fingerprint(cs[j])
  }

  lemma {:induction false} FingerprintIsInjective(a: nat, k: AlertType, b: nat, l: AlertType)
    requires FingerprintOf(a, k) == FingerprintOf(b, l)
    ensures a == b && k == l
  {
    hide Print, Parse;
    var x, y := FingerprintOf(a, k), FingerprintOf(b, l);
    var m, n := |Print(a)|, |Print(b)|;
    assert forall i :: 0 <= i < m ==> x[i] == Print(a)[i];
    assert forall i :: 0 <= i < n ==> y[i] == Print(b)[i];
    assert x[m] == ':' && y[n] == ':';
    assert m == n;
    assert x[..m] == Print(a) && y[..m] == Print(b);
    ParseReadsPrint(a);
    ParseReadsPrint(b);
    assert x[m + 1..] == TypeValue(k) && y[m + 1..] == TypeValue(l);
    TypeValuesDiffer(k, l);
  }

  /** A fingerprint as it is stored: the id, a colon and the type. */
  lemma {:induction false} FingerprintText()
    ensures FingerprintOf(7, HighCpu) == "7:high_cpu"
  {
    assert PrintInt(7) == "7";
    hide PrintInt;
  }

  lemma TypeValuesDiffer(k: AlertType, l: AlertType)
    ensures TypeValue(k) == TypeValue(l) ==> k == l
  {
  }

  /** The candidates of one server name that server, each with another type. */
  lemma {:induction false} ServerCandidatesDiffer(s: ServerView, t: Thresholds, now: int)
    ensures forall i :: 0 <= i < |ServerCandidates(s, t, now)| ==> ServerCandidates(s, t, now)[i].serverId == s.id
    ensures forall i, j :: 0 <= i < j < |ServerCandidates(s, t, now)| ==>
                             ServerCandidates(s, t, now)[i].kind != ServerCandidates(s, t, now)[j].kind
  {
  }

  lemma {:induction false} CandidatesComeFromServers(servers: seq<ServerView>, t: Thresholds, now: int, n: nat, i: nat)
    requires n <= |servers| && i < |Candidates(servers, t, now, n)|
    ensures exists k :: 0 <= k < n && Candidates(servers, t, now, n)[i].serverId == servers[k].id
  {
    var before := Candidates(servers, t, now, n - 1);
    if i < |before| {
      CandidatesComeFromServers(servers, t, now, n - 1, i);
    } else {
      ServerCandidatesDiffer(servers[n - 1], t, now);
      hide ServerCandidates;
      assert Candidates(servers, t, now, n)[i] == ServerCandidates(servers[n - 1], t, now)[i - |before|];
    }
  }

  /** `evaluate` never asks for the same alert twice. */
  lemma {:induction false} EvaluateNeverRepeats(servers: seq<ServerView>, t: Thresholds, now: int, n: nat)
    requires n <= |servers| && DistinctServers(servers)
    ensures DistinctCandidates(Candidates(servers, t, now, n))
  {
    hide ServerCandidates, FingerprintOf;
    if n > 0 {
      var before, own := Candidates(servers, t, now, n - 1), ServerCandidates(servers[n - 1], t, now);
      EvaluateNeverRepeats(servers, t, now, n - 1);
      ServerCandidatesDiffer(servers[n - 1], t, now);
      var cs := before + own;
      forall i, j | 0 <= i < j < |cs|
        ensures Fingerprint(cs[i]) != Fingerprint(cs[j])
      {
        if i < |before| && |before| <= j {
          CandidatesComeFromServers(servers, t, now, n - 1, i);
        }
        if Fingerprint(cs[i]) == Fingerprint(cs[j]) {
          FingerprintIsInjective(cs[i].serverId, cs[i].kind, cs[j].serverId, cs[j].kind);
        }
      }
    }
  }

  // ----- What calls for an alert -----

  /** The latest sample of an enabled server, or its absence, calls for this candidate. */
  predicate Calls(s: ServerView, t: Thresholds, now: int, c: Candidate) {
    && s.enabled && c.serverId == s.id
    && if s.latest.None? then c.kind.StaleServer? && c.value.None? && c.threshold.None? && c.collectedAt.None?
       else
         var m := s.latest.value;
         && c.collectedAt == Some(m.collectedAt)
         && match c.kind
            case HighCpu => m.cpu.Some? && m.cpu.value > t.cpu && c.value == m.cpu && c.threshold == Some(t.cpu)
            case HighMemory =>
              m.memory.Some? && m.memory.value > t.memory && c.value == m.memory && c.threshold == Some(t.memory)
            case HighDisk => m.disk.Some? && m.disk.value > t.disk && c.value == m.disk && c.threshold == Some(t.disk)
            case HighNetworkUtilization =>
              && m.networkUtilization.Some? && m.networkUtilization.value > t.network
              && c.value == m.networkUtilization && c.threshold == Some(t.network)
            case StaleServer =>
              && now - m.collectedAt > t.staleMinutes * 60_000_000
              && c.value == Some((now - m.collectedAt) as real / 60_000_000.0)
              && c.threshold == Some(t.staleMinutes as real)
  }

  lemma {:induction false} ServerCandidatesAreExact(s: ServerView, t: Thresholds, now: int, c: Candidate)
    ensures c in ServerCandidates(s, t, now) <==> Calls(s, t, now, c)
  {
  }

  /**
   `evaluate` asks for exactly the alerts that the servers call for: an enabled server without a sample, a sample that is
   too old, and each value above its threshold.
   */
  lemma {:induction false} CandidatesAreExact(servers: seq<ServerView>, t: Thresholds, now: int, n: nat, c: Candidate)
    requires n <= |servers|
    ensures c in Candidates(servers, t, now, n) <==> exists k :: 0 <= k < n && Calls(servers[k], t, now, c)
  {
    hide ServerCandidates, Calls;
    if n > 0 {
      CandidatesAreExact(servers, t, now, n - 1, c);
      ServerCandidatesAreExact(servers[n - 1], t, now, c);
    }
  }

  /** Critical are only processor, memory and disk, from 95 on. */
  lemma {:induction false} CriticalIff(c: Candidate)
    ensures SeverityOf(c) == Critical <==>
            !c.kind.StaleServer? && !c.kind.HighNetworkUtilization? && c.value.Some? && c.value.value >= 95.0
  {
  }
}
