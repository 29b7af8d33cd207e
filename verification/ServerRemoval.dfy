/**
 Removing a server (app/api/v1/servers.py, app/repositories/server_repository.py): what one DELETE request does to every
 table that refers to servers, with the cascades of the schema, and what any sequence of requests and job events keeps.
 */
module ServerRemoval {
  import opened Wrappers
  import opened OnboardingRow

  datatype Server = Server(
    id: nat,
    name: string,
    hostname: Option<string>,
    monthlyCost: Option<int>,
    archivedAt: Option<int>,
    enabled: bool)

  /** A metric, an alert or an inventory snapshot: deleted with its server. */
  datatype Owned = Owned(id: nat, server: nat)

  /** A channel or a channel sample: its reference is cleared with its server. */
  datatype Assigned = Assigned(id: nat, server: Option<nat>)

  datatype Job = Job(id: nat, server: nat, row: Row)

  datatype Audit = Audit(job: nat, server: nat)

  datatype Db = Db(
    servers: seq<Server>,
    metrics: seq<Owned>,
    alerts: seq<Owned>,
    inventory: seq<Owned>,
    jobs: seq<Job>,
    audits: seq<Audit>,
    channels: seq<Assigned>,
    samples: seq<Assigned>,
    history: seq<Owned>)  // `channel_category_history`; `server` is the channel's id there

  /** The body and path of a DELETE request. */
  datatype Removal = Removal(server: nat, confirmation: string, hostname: Option<string>, now: int)

  datatype Outcome = NotFound | BadConfirmation | Deleted | Archived(cancelled: nat)

  // ----- Tables -----

  function CountIf<T(!new)>(rows: seq<T>, p: T -> bool): (n: nat)
    ensures n == 0 <==> forall i :: 0 <= i < |rows| ==> !p(rows[i])
  {
    if rows == [] then 0 else CountIf(rows[..|rows| - 1], p) + if p(rows[|rows| - 1]) then 1 else 0
  }

  function Without<T(!new)>(rows: seq<T>, p: T -> bool): (kept: seq<T>)
    ensures forall r :: r in kept <==> r in rows && !p(r)
  {
    if rows == [] then []
    else
      var kept := Without(rows[..|rows| - 1], p);
      if p(rows[|rows| - 1]) then kept else kept + [rows[|rows| - 1]]
  }

  function Unassigned(rows: seq<Assigned>, id: nat): (rows': seq<Assigned>)
    ensures |rows'| == |rows|
    ensures forall i :: 0 <= i < |rows| ==> rows'[i] == if IsAt(rows[i], id) then rows[i].(server := None) else rows[i]
  {
    seq(|rows|, i requires 0 <= i < |rows| => if IsAt(rows[i], id) then rows[i].(server := None) else rows[i])
  }

  lemma {:induction false} NothingToDrop<T(!new)>(rows: seq<T>, p: T -> bool)
    requires CountIf(rows, p) == 0
    ensures Without(rows, p) == rows
  {
    if rows != [] {
      NothingToDrop(rows[..|rows| - 1], p);
    }
  }

  function FindServer(servers: seq<Server>, id: nat): (found: Option<nat>)
    ensures found.Some? ==> found.value < |servers| && servers[found.value].id == id
    ensures found.None? ==> forall i :: 0 <= i < |servers| ==> servers[i].id != id
  {
    if servers == [] then None
    else if servers[|servers| - 1].id == id then Some(|servers| - 1)
    else FindServer(servers[..|servers| - 1], id)
  }

  // ----- `relation_summary` and `can_hard_delete` -----

  predicate IsOf(r: Owned, id: nat) { r.server == id }

  predicate IsAt(r: Assigned, id: nat) { r.server == Some(id) }

  predicate Uncancelled(j: Job, id: nat) { j.server == id && !j.row.status.Cancelled? }

  predicate IsActive(j: Job, id: nat) { j.server == id && !Terminal(j.row.status) }

  predicate HistoryAt(h: Owned, channels: seq<Assigned>, id: nat) {
    exists i :: 0 <= i < |channels| && channels[i].id == h.server && IsAt(channels[i], id)
  }

  function OwnedBy(id: nat): Owned -> bool { (r: Owned) => IsOf(r, id) }

  function AssignedTo(id: nat): Assigned -> bool { (r: Assigned) => IsAt(r, id) }

  function UncancelledOf(id: nat): Job -> bool { (j: Job) => Uncancelled(j, id) }

  function PlacedAt(channels: seq<Assigned>, id: nat): Owned -> bool { (h: Owned) => HistoryAt(h, channels, id) }

  function ActiveOf(id: nat): Job -> bool { (j: Job) => IsActive(j, id) }

  datatype Relations = Relations(
    metrics: nat,
    alerts: nat,
    inventory: nat,
    uncancelledJobs: nat,
    channels: nat,
    samples: nat,
    history: nat,
    costs: nat)

  function RelationSummary(db: Db, server: Server): Relations {
    var id := server.id;
    Relations(
      CountIf(db.metrics, OwnedBy(id)),
      CountIf(db.alerts, OwnedBy(id)),
      CountIf(db.inventory, OwnedBy(id)),
      CountIf(db.jobs, UncancelledOf(id)),
      CountIf(db.channels, AssignedTo(id)),
      CountIf(db.samples, AssignedTo(id)),
      CountIf(db.history, PlacedAt(db.channels, id)),
      if server.monthlyCost.Some? then 1 else 0)
  }

  predicate CanHardDelete(r: Relations) {
    && r.metrics == 0 && r.alerts == 0 && r.inventory == 0 && r.uncancelledJobs == 0
    && r.channels == 0 && r.samples == 0 && r.history == 0 && r.costs == 0
  }

  // ----- The request -----

  function CancelledJob(j: Job, id: nat): Job {
    if IsActive(j, id) then j.(row := CancelledBy(j.row)) else j
  }

  /** `cancel_active_onboardings`: the jobs and the audit events it leaves. */
  function CancelledJobs(jobs: seq<Job>, id: nat): (jobs': seq<Job>)
    ensures |jobs'| == |jobs|
    ensures forall i :: 0 <= i < |jobs| ==> jobs'[i] == CancelledJob(jobs[i], id)
  {
    seq(|jobs|, i requires 0 <= i < |jobs| => CancelledJob(jobs[i], id))
  }

  function CancelAudits(jobs: seq<Job>, id: nat): seq<Audit> {
    if jobs == [] then []
    else
      var last := jobs[|jobs| - 1];
      CancelAudits(jobs[..|jobs| - 1], id) + if IsActive(last, id) then [Audit(last.id, id)] else []
  }

  function WithJobsCancelled(db: Db, id: nat): Db {
    db.(jobs := CancelledJobs(db.jobs, id), audits := db.audits + CancelAudits(db.jobs, id))
  }

  /** The DELETE statement with the cascades of the schema. */
  function WithServerDeleted(db: Db, id: nat): Db {
    Db(Without(db.servers, (s: Server) => s.id == id),
       Without(db.metrics, OwnedBy(id)),
       Without(db.alerts, OwnedBy(id)),
       Without(db.inventory, OwnedBy(id)),
       Without(db.jobs, (j: Job) => j.server == id),
       Without(db.audits, (a: Audit) => a.server == id),
       Unassigned(db.channels, id),
       Unassigned(db.samples, id),
       db.history)
  }

  function WithServerArchived(db: Db, position: nat, now: int): Db
    requires position < |db.servers|
  {
    db.(servers := db.servers[position := db.servers[position].(archivedAt := Some(now), enabled := false)])
  }

  datatype Reply = Reply(db: Db, outcome: Outcome)

  /** `delete_server`. */
  function Remove(db: Db, r: Removal): Reply {
    match FindServer(db.servers, r.server)
    case None => Reply(db, NotFound)
    case Some(k) =>
      var server := db.servers[k];
      if r.confirmation != server.name || (server.hostname.Some? && r.hostname != server.hostname) then
        Reply(db, BadConfirmation)
      else
        var active := CountIf(db.jobs, ActiveOf(r.server));
        var cancelled := if server.archivedAt.None? then active else 0;
        var db' := if server.archivedAt.None? then WithJobsCancelled(db, r.server) else db;
        if cancelled == 0 && CanHardDelete(RelationSummary(db', server)) then
          Reply(WithServerDeleted(db', r.server), Deleted)
        else Reply(WithServerArchived(db', k, r.now), Archived(cancelled))
  }

  // ----- One request -----

  /** Everything that refers to servers, but jobs and their audit events, is as it was. */
  ghost predicate KeepsHistory(db: Db, db': Db) {
    && db'.metrics == db.metrics && db'.alerts == db.alerts && db'.inventory == db.inventory
    && db'.channels == db.channels && db'.samples == db.samples && db'.history == db.history
  }

  /** Every job is still there, unless it was already cancelled; an active one may have been cancelled now. */
  ghost predicate KeepsJobs(db: Db, db': Db) {
    forall j :: j in db.jobs ==>
      || j in db'.jobs
      || j.row.status.Cancelled?
      || (!Terminal(j.row.status) && j.(row := CancelledBy(j.row)) in db'.jobs)
  }

  lemma {:induction false} NothingActiveMeansNoChange(jobs: seq<Job>, id: nat)
    requires CountIf(jobs, ActiveOf(id)) == 0
    ensures CancelledJobs(jobs, id) == jobs && CancelAudits(jobs, id) == []
  {
    if jobs != [] {
      NothingActiveMeansNoChange(jobs[..|jobs| - 1], id);
      assert !ActiveOf(id)(jobs[|jobs| - 1]);
      forall i | 0 <= i < |jobs|
        ensures !IsActive(jobs[i], id)
      {
        assert !ActiveOf(id)(jobs[i]);
      }
    }
  }

  /** A hard delete that its own check allows destroys nothing protected. */
  lemma {:induction false} AllowedDeleteKeepsHistory(db: Db, server: Server)
    requires CanHardDelete(RelationSummary(db, server))
    ensures KeepsHistory(db, WithServerDeleted(db, server.id))
    ensures forall j :: j in db.jobs && j !in WithServerDeleted(db, server.id).jobs ==> j.row.status.Cancelled?
    ensures forall j :: j in db.jobs ==> !IsActive(j, server.id)
  {
    var id := server.id;
    NothingToDrop(db.metrics, OwnedBy(id));
    NothingToDrop(db.alerts, OwnedBy(id));
    NothingToDrop(db.inventory, OwnedBy(id));
    var atServer, uncancelled := AssignedTo(id), UncancelledOf(id);
    assert forall i :: 0 <= i < |db.channels| ==> !atServer(db.channels[i]);
    assert forall i :: 0 <= i < |db.samples| ==> !atServer(db.samples[i]);
    assert Unassigned(db.channels, id) == db.channels;
    assert Unassigned(db.samples, id) == db.samples;
    forall j | j in db.jobs
      ensures !Uncancelled(j, id)
    {
      var i :| 0 <= i < |db.jobs| && db.jobs[i] == j;
      assert !uncancelled(db.jobs[i]);
    }
  }

  lemma {:induction false} CancellingKeepsJobs(db: Db, id: nat)
    ensures KeepsJobs(db, WithJobsCancelled(db, id))
  {
  }

  lemma {:induction false} NoActiveJob(db: Db, id: nat)
    requires CountIf(db.jobs, ActiveOf(id)) == 0
    ensures WithJobsCancelled(db, id) == db
    ensures forall j :: j in db.jobs ==> !IsActive(j, id)
  {
    NothingActiveMeansNoChange(db.jobs, id);
    forall j | j in db.jobs
      ensures !IsActive(j, id)
    {
      var i :| 0 <= i < |db.jobs| && db.jobs[i] == j;
      assert !ActiveOf(id)(db.jobs[i]);
    }
  }

  /**
   One request destroys no metric, alert, inventory snapshot, channel assignment, channel sample or category history, and
   no job that was not cancelled before it; and a request that cancels a job only archives.
   */
  lemma {:induction false} RemovalKeepsHistory(db: Db, r: Removal)
    ensures KeepsHistory(db, Remove(db, r).db) && KeepsJobs(db, Remove(db, r).db)
    ensures Remove(db, r).outcome.Deleted? ==> forall j :: j in db.jobs ==> !IsActive(j, r.server)
  {
    hide RelationSummary, CanHardDelete, WithServerDeleted;
    var found := FindServer(db.servers, r.server);
    if found.Some? {
      CancellingKeepsJobs(db, r.server);
      if CountIf(db.jobs, ActiveOf(r.server)) == 0 {
        NoActiveJob(db, r.server);
      }
      if CanHardDelete(RelationSummary(db, db.servers[found.value])) {
        AllowedDeleteKeepsHistory(db, db.servers[found.value]);
      }
      hide WithJobsCancelled;
    }
  }

  // ----- Sequences -----

  /** A DELETE request, or any change of status of a job by its worker, a retry or the operator. */
  datatype Event = Request(removal: Removal) | JobMoves(position: nat, row: Row)

  function Happens(db: Db, e: Event): Db {
    match e
    case Request(r) => Remove(db, r).db
    case JobMoves(k, row) => if k < |db.jobs| then db.(jobs := db.jobs[k := db.jobs[k].(row := row)]) else db
  }

  function After(db: Db, events: seq<Event>, n: nat): Db
    requires n <= |events|
  {
    if n == 0 then db else Happens(After(db, events, n - 1), events[n - 1])
  }

  /** Over every sequence of requests and job events, everything but jobs, audit events and servers stays as it is. */
  lemma {:induction false} SequencesKeepHistory(db: Db, events: seq<Event>, n: nat)
    requires n <= |events|
    ensures KeepsHistory(db, After(db, events, n))
  {
    hide Remove;
    if n > 0 {
      SequencesKeepHistory(db, events, n - 1);
      if events[n - 1].Request? {
        RemovalKeepsHistory(After(db, events, n - 1), events[n - 1].removal);
      }
    }
  }

  /** And each request on the way leaves every job that was not cancelled before it. */
  lemma {:induction false} SequencesKeepJobs(db: Db, events: seq<Event>, n: nat, j: Job)
    requires n < |events| && events[n].Request?
    requires j in After(db, events, n).jobs && !j.row.status.Cancelled?
    ensures j in After(db, events, n + 1).jobs || j.(row := CancelledBy(j.row)) in After(db, events, n + 1).jobs
  {
    hide Remove;
    RemovalKeepsHistory(After(db, events, n), events[n].removal);
  }

  /** Servers with protected rows or a recorded cost are never deleted. */
  lemma {:induction false} ProtectedServersStay(db: Db, r: Removal, server: Server)
    requires server in db.servers && Remove(db, r).outcome.Deleted? && server !in Remove(db, r).db.servers
    ensures server.id == r.server
    ensures exists k :: 0 <= k < |db.servers| && db.servers[k].id == r.server && Unreferenced(db, db.servers[k])
  {
    var found := db.servers[FindServer(db.servers, r.server).value];
    if CountIf(db.jobs, ActiveOf(r.server)) == 0 {
      NoActiveJob(db, r.server);
    }
    hide WithServerDeleted, WithJobsCancelled;
    assert CanHardDelete(RelationSummary(db, found));
    CheckIsExact(db, found);
  }

  /** No row of any table that the check protects refers to the server. */
  ghost predicate NothingAt(db: Db, id: nat) {
    && (forall m :: m in db.metrics + db.alerts + db.inventory ==> m.server != id)
    && (forall c :: c in db.channels + db.samples ==> c.server != Some(id))
    && (forall j :: j in db.jobs && j.server == id ==> j.row.status.Cancelled?)
  }

  /** And it has no recorded cost. */
  ghost predicate Unreferenced(db: Db, server: Server) {
    NothingAt(db, server.id) && server.monthlyCost.None?
  }

  lemma {:induction false} CountNone<T(!new)>(rows: seq<T>, p: T -> bool)
    ensures CountIf(rows, p) == 0 <==> forall r :: r in rows ==> !p(r)
  {
    assert forall i :: 0 <= i < |rows| ==> rows[i] in rows;
  }

  /** The counters allow a hard delete exactly when nothing refers to the server; the one on category rows adds nothing. */
  lemma {:induction false} CheckIsExact(db: Db, server: Server)
    ensures CanHardDelete(RelationSummary(db, server)) <==> Unreferenced(db, server)
  {
    var id, owned, placed := server.id, db.metrics + db.alerts + db.inventory, db.channels + db.samples;
    CountNone(db.metrics, OwnedBy(id));
    CountNone(db.alerts, OwnedBy(id));
    CountNone(db.inventory, OwnedBy(id));
    CountNone(db.jobs, UncancelledOf(id));
    CountNone(db.channels, AssignedTo(id));
    CountNone(db.samples, AssignedTo(id));
    CountNone(db.history, PlacedAt(db.channels, id));
    hide CountIf;
    assert forall m :: m in owned <==> m in db.metrics || m in db.alerts || m in db.inventory;
    assert forall c :: c in placed <==> c in db.channels || c in db.samples;
    assert forall m :: OwnedBy(id)(m) <==> m.server == id;
    assert forall c :: AssignedTo(id)(c) <==> c.server == Some(id);
    assert forall j :: UncancelledOf(id)(j) <==> j.server == id && !j.row.status.Cancelled?;
    assert forall h :: PlacedAt(db.channels, id)(h) ==> exists c :: c in db.channels && c.server == Some(id);
  }

  // ----- When the check is stale -----

  /** The deletion leaves every protected table as it is and takes no job that is not cancelled. */
  ghost predicate LosesNothing(now: Db, id: nat) {
    && KeepsHistory(now, WithServerDeleted(now, id))
    && (forall j :: j in now.jobs && !j.row.status.Cancelled? ==> j in WithServerDeleted(now, id).jobs)
  }

  lemma {:induction false} DroppedNone<T(!new)>(rows: seq<T>, p: T -> bool)
    ensures Without(rows, p) == rows <==> forall r :: r in rows ==> !p(r)
  {
    if forall r :: r in rows ==> !p(r) {
      NothingToDrop(rows, p);
    }
  }

  lemma {:induction false} ClearedNone(rows: seq<Assigned>, id: nat)
    ensures Unassigned(rows, id) == rows <==> forall r :: r in rows ==> r.server != Some(id)
  {
    var rows' := Unassigned(rows, id);
    if r :| r in rows && r.server == Some(id) {
      var i :| 0 <= i < |rows| && rows[i] == r;
      assert rows'[i] != rows[i];
    }
  }

  /** A deletion loses nothing exactly when nothing refers to the server at the instant of the deletion. */
  lemma {:induction false} DeletionLosesNothingIff(now: Db, id: nat)
    ensures LosesNothing(now, id) <==> NothingAt(now, id)
  {
    var owned, placed := now.metrics + now.alerts + now.inventory, now.channels + now.samples;
    DroppedNone(now.metrics, OwnedBy(id));
    DroppedNone(now.alerts, OwnedBy(id));
    DroppedNone(now.inventory, OwnedBy(id));
    ClearedNone(now.channels, id);
    ClearedNone(now.samples, id);
    hide Without, Unassigned, CountIf;
    assert forall m :: m in owned <==> m in now.metrics || m in now.alerts || m in now.inventory;
    assert forall c :: c in placed <==> c in now.channels || c in now.samples;
    assert forall m :: OwnedBy(id)(m) <==> m.server == id;
  }

  /**
   The check and the deletion are one transaction but not one instant. A deletion that the check at `db` allowed loses
   nothing at `now` exactly when nothing refers to the server by then; and whatever does refer to it (a metric, an alert,
   a snapshot, the place of a channel or of a sample, a job that a retry reopened) came after the check.
   */
  lemma {:induction false} StaleCheckLosesOnlyLateRows(db: Db, now: Db, server: Server)
    requires CanHardDelete(RelationSummary(db, server))
    ensures LosesNothing(now, server.id) <==> NothingAt(now, server.id)
    ensures forall m :: m in now.metrics && m !in WithServerDeleted(now, server.id).metrics ==> m !in db.metrics
    ensures forall a :: a in now.alerts && a !in WithServerDeleted(now, server.id).alerts ==> a !in db.alerts
    ensures forall s :: s in now.inventory && s !in WithServerDeleted(now, server.id).inventory ==> s !in db.inventory
    ensures forall c :: c in now.channels && c !in WithServerDeleted(now, server.id).channels ==> c !in db.channels
    ensures forall c :: c in now.samples && c !in WithServerDeleted(now, server.id).samples ==> c !in db.samples
    ensures forall j :: j in now.jobs && !j.row.status.Cancelled? && j !in WithServerDeleted(now, server.id).jobs ==>
              j !in db.jobs
  {
    hide CanHardDelete, RelationSummary, LosesNothing;
    DeletionLosesNothingIff(now, server.id);
    CheckIsExact(db, server);
    var id := server.id;
    assert forall m :: m in db.metrics || m in db.alerts || m in db.inventory ==> m in db.metrics + db.alerts + db.inventory;
    assert forall c :: c in db.channels || c in db.samples ==> c in db.channels + db.samples;
    ClearedAreThere(now.channels, id);
    ClearedAreThere(now.samples, id);
  }

  lemma {:induction false} ClearedAreThere(rows: seq<Assigned>, id: nat)
    ensures forall r :: r in rows && r !in Unassigned(rows, id) ==> r.server == Some(id)
  {
    forall r | r in rows && r !in Unassigned(rows, id)
      ensures r.server == Some(id)
    {
      var i :| 0 <= i < |rows| && rows[i] == r;
      assert Unassigned(rows, id)[i] in Unassigned(rows, id);
    }
  }

  // ----- The answer, and what each answer leaves -----

  /** The ids of servers are unique. */
  ghost predicate UniqueServers(servers: seq<Server>) {
    forall i, j :: 0 <= i < j < |servers| ==> servers[i].id != servers[j].id
  }

  /** The request repeats the server's name, and its host name if it has one. */
  predicate Confirms(r: Removal, server: Server) {
    r.confirmation == server.name && (server.hostname.Some? ==> r.hostname == server.hostname)
  }

  /** Jobs of the server that are neither completed nor failed nor cancelled nor waiting for a rollback. */
  function Unfinished(jobs: seq<Job>, id: nat): nat {
    if jobs == [] then 0
    else
      var last := jobs[|jobs| - 1];
      Unfinished(jobs[..|jobs| - 1], id)
      + if last.server == id && (last.row.status.Pending? || last.row.status.Running?) then 1 else 0
  }

  lemma {:induction false} UnfinishedIsActive(jobs: seq<Job>, id: nat)
    ensures CountIf(jobs, ActiveOf(id)) == Unfinished(jobs, id)
  {
    if jobs != [] {
      UnfinishedIsActive(jobs[..|jobs| - 1], id);
    }
  }

  lemma {:induction false} FoundIsTheServer(servers: seq<Server>, k: nat)
    requires UniqueServers(servers) && k < |servers|
    ensures FindServer(servers, servers[k].id) == Some(k)
  {
  }

  /** A job that is cancelled by a removal. */
  function Withdrawn(j: Job, id: nat): Job {
    if j.server == id && (j.row.status.Pending? || j.row.status.Running?)
    then j.(row := j.row.(status := Cancelled, cancelRequested := true, errorCode := Some(OperatorCancel)))
    else j
  }

  /** An archiving request changes the server's two columns; one that finds it unarchived also cancels and audits its jobs. */
  ghost predicate ArchivesOnly(db: Db, db': Db, k: nat, now: int)
    requires k < |db.servers|
  {
    var server := db.servers[k];
    && db'.servers == db.servers[k := server.(archivedAt := Some(now), enabled := false)]
    && KeepsHistory(db, db')
    && (if server.archivedAt.Some? then db'.jobs == db.jobs && db'.audits == db.audits
        else
          && |db'.jobs| == |db.jobs|
          && (forall j :: 0 <= j < |db.jobs| ==> db'.jobs[j] == Withdrawn(db.jobs[j], server.id))
          && db.audits <= db'.audits && |db'.audits| == |db.audits| + Unfinished(db.jobs, server.id)
          && (forall j :: |db.audits| <= j < |db'.audits| ==>
                db'.audits[j].server == server.id
                && exists i :: 0 <= i < |db.jobs| && db.jobs[i] != db'.jobs[i] && db.jobs[i].id == db'.audits[j].job))
  }

  /** A deleting request takes the server, its jobs and their audit events, and nothing else. */
  ghost predicate DeletesOnly(db: Db, db': Db, id: nat) {
    && KeepsHistory(db, db')
    && (forall s :: s in db'.servers <==> s in db.servers && s.id != id)
    && (forall j :: j in db'.jobs <==> j in db.jobs && j.server != id)
    && (forall a :: a in db'.audits <==> a in db.audits && a.server != id)
  }

  lemma {:induction false} UnfinishedRefer(db: Db, server: Server)
    requires Unfinished(db.jobs, server.id) > 0
    ensures !Unreferenced(db, server)
  {
    UnfinishedIsActive(db.jobs, server.id);
    var i :| 0 <= i < |db.jobs| && ActiveOf(server.id)(db.jobs[i]);
    assert db.jobs[i] in db.jobs;
  }

  lemma {:induction false} AuditsNameCancelledJobs(jobs: seq<Job>, id: nat)
    ensures |CancelAudits(jobs, id)| == Unfinished(jobs, id)
    ensures forall a :: a in CancelAudits(jobs, id) ==>
              a.server == id && exists i :: 0 <= i < |jobs| && CancelledJob(jobs[i], id) != jobs[i] && jobs[i].id == a.job
  {
    if jobs != [] {
      var last := |jobs| - 1;
      AuditsNameCancelledJobs(jobs[..last], id);
      forall a | a in CancelAudits(jobs, id)
        ensures a.server == id && exists i :: 0 <= i < |jobs| && CancelledJob(jobs[i], id) != jobs[i] && jobs[i].id == a.job
      {
        if a in CancelAudits(jobs[..last], id) {
          var i :| 0 <= i < last && CancelledJob(jobs[..last][i], id) != jobs[..last][i] && jobs[..last][i].id == a.job;
          assert jobs[i] == jobs[..last][i];
        } else {
          assert CancelledJob(jobs[last], id) != jobs[last];
        }
      }
    }
  }

  lemma {:induction false} ArchivingIsExact(db: Db, k: nat, now: int)
    requires k < |db.servers|
    ensures
      var server := db.servers[k];
      ArchivesOnly(db, WithServerArchived(if server.archivedAt.None? then WithJobsCancelled(db, server.id) else db, k, now),
                   k, now)
  {
    var server := db.servers[k];
    var audits := CancelAudits(db.jobs, server.id);
    AuditsNameCancelledJobs(db.jobs, server.id);
    if server.archivedAt.None? {
      var db' := WithServerArchived(WithJobsCancelled(db, server.id), k, now);
      forall j | |db.audits| <= j < |db'.audits|
        ensures
          db'.audits[j].server == server.id
          && exists i :: 0 <= i < |db.jobs| && db.jobs[i] != db'.jobs[i] && db.jobs[i].id == db'.audits[j].job
      {
        assert db'.audits[j] == audits[j - |db.audits|];
        assert db'.audits[j] in audits;
      }
    }
  }

  lemma {:induction false} DeletingIsExact(db: Db, server: Server)
    requires Unreferenced(db, server)
    ensures DeletesOnly(db, WithServerDeleted(db, server.id), server.id)
  {
    CheckIsExact(db, server);
    AllowedDeleteKeepsHistory(db, server);
    hide RelationSummary, CanHardDelete, Unreferenced, KeepsHistory, CountIf;
  }

  /** The decision between deleting and archiving. */
  lemma {:induction false} DecisionIsExact(db: Db, r: Removal, k: nat)
    requires UniqueServers(db.servers) && k < |db.servers| && db.servers[k].id == r.server && Confirms(r, db.servers[k])
    ensures
      var server, n := db.servers[k], Unfinished(db.jobs, r.server);
      var cancelled := if server.archivedAt.None? then WithJobsCancelled(db, server.id) else db;
      Remove(db, r) ==
      if Unreferenced(db, server) then Reply(WithServerDeleted(db, r.server), Deleted)
      else Reply(WithServerArchived(cancelled, k, r.now), Archived(if server.archivedAt.None? then n else 0))
  {
    var server := db.servers[k];
    FoundIsTheServer(db.servers, k);
    CheckIsExact(db, server);
    UnfinishedIsActive(db.jobs, r.server);
    if Unfinished(db.jobs, r.server) == 0 {
      NoActiveJob(db, r.server);
    } else {
      UnfinishedRefer(db, server);
      KeepsServers(db, r.server);
    }
    hide RelationSummary, CanHardDelete, Unreferenced, WithJobsCancelled, WithServerArchived, WithServerDeleted, CountIf;
  }

  lemma KeepsServers(db: Db, id: nat)
    ensures WithJobsCancelled(db, id).servers == db.servers
  {
  }

  /**
   One request in full. Without a server it is refused, and so it is without the right confirmation; otherwise the server
   is deleted exactly when nothing refers to it, and archived if something does, with its unfinished jobs cancelled if it
   was not archived before. What each answer leaves is said table by table.
   */
  lemma {:induction false} AnswerIsExact(db: Db, r: Removal, k: nat)
    requires UniqueServers(db.servers)
    ensures Remove(db, r).outcome.NotFound? <==> forall i :: 0 <= i < |db.servers| ==> db.servers[i].id != r.server
    ensures Remove(db, r).outcome.NotFound? ==> Remove(db, r).db == db
    ensures k < |db.servers| && db.servers[k].id == r.server ==>
              var server, reply := db.servers[k], Remove(db, r);
              if !Confirms(r, server) then reply == Reply(db, BadConfirmation)
              else if Unreferenced(db, server) then reply.outcome.Deleted? && DeletesOnly(db, reply.db, r.server)
              else
                && reply.outcome == Archived(if server.archivedAt.None? then Unfinished(db.jobs, r.server) else 0)
                && ArchivesOnly(db, reply.db, k, r.now)
  {
    hide RelationSummary, CanHardDelete, Unreferenced, WithJobsCancelled, WithServerArchived, WithServerDeleted, CountIf,
         ArchivesOnly, DeletesOnly, Unfinished, UniqueServers;
    if k < |db.servers| && db.servers[k].id == r.server {
      FoundIsTheServer(db.servers, k);
      if Confirms(r, db.servers[k]) {
        DecisionIsExact(db, r, k);
        hide Remove;
        ArchivingIsExact(db, k, r.now);
        if Unreferenced(db, db.servers[k]) {
          DeletingIsExact(db, db.servers[k]);
        }
      }
    }
  }

  // ----- The counters -----

  lemma {:induction false} CountIsCardinality<T(!new)>(rows: seq<T>, p: T -> bool, counted: set<int>)
    requires forall i :: i in counted <==> 0 <= i < |rows| && p(rows[i])
    ensures CountIf(rows, p) == |counted|
  {
    if rows == [] {
      assert forall i :: i !in counted;
      assert counted == {};
    } else {
      var last := |rows| - 1;
      CountIsCardinality(rows[..last], p, counted - {last});
      assert !p(rows[last]) ==> counted - {last} == counted;
    }
  }

  /** A category row refers to the server if its channel is assigned to it. */
  ghost predicate OfChannelAt(h: Owned, channels: seq<Assigned>, id: nat) {
    exists c :: c in channels && c.id == h.server && c.server == Some(id)
  }

  /** Each counter of the summary is the number of rows of its own table that refer to the server. */
  lemma {:induction false} SummaryCountsRows(db: Db, server: Server)
    ensures
      var s, id := RelationSummary(db, server), server.id;
      && s.metrics == |set i | 0 <= i < |db.metrics| && db.metrics[i].server == id|
      && s.alerts == |set i | 0 <= i < |db.alerts| && db.alerts[i].server == id|
      && s.inventory == |set i | 0 <= i < |db.inventory| && db.inventory[i].server == id|
      && s.uncancelledJobs == |set i | 0 <= i < |db.jobs| && db.jobs[i].server == id && !db.jobs[i].row.status.Cancelled?|
      && s.channels == |set i | 0 <= i < |db.channels| && db.channels[i].server == Some(id)|
      && s.samples == |set i | 0 <= i < |db.samples| && db.samples[i].server == Some(id)|
      && s.history == |set i | 0 <= i < |db.history| && OfChannelAt(db.history[i], db.channels, id)|
      && s.costs == (if server.monthlyCost.Some? then 1 else 0)
  {
    OwnedCounted(db.metrics, server.id);
    OwnedCounted(db.alerts, server.id);
    OwnedCounted(db.inventory, server.id);
    JobsCounted(db.jobs, server.id);
    AssignedCounted(db.channels, server.id);
    AssignedCounted(db.samples, server.id);
    HistoryCounted(db.history, db.channels, server.id);
    hide CountIf, OwnedBy, AssignedTo, UncancelledOf, PlacedAt;
  }

  lemma OwnedCounted(rows: seq<Owned>, id: nat)
    ensures CountIf(rows, OwnedBy(id)) == |set i | 0 <= i < |rows| && rows[i].server == id|
  {
    CountIsCardinality(rows, OwnedBy(id), set i | 0 <= i < |rows| && rows[i].server == id);
  }

  lemma JobsCounted(jobs: seq<Job>, id: nat)
    ensures CountIf(jobs, UncancelledOf(id)) ==
            |set i | 0 <= i < |jobs| && jobs[i].server == id && !jobs[i].row.status.Cancelled?|
  {
    CountIsCardinality(jobs, UncancelledOf(id),
                       set i | 0 <= i < |jobs| && jobs[i].server == id && !jobs[i].row.status.Cancelled?);
  }

  lemma AssignedCounted(rows: seq<Assigned>, id: nat)
    ensures CountIf(rows, AssignedTo(id)) == |set i | 0 <= i < |rows| && rows[i].server == Some(id)|
  {
    CountIsCardinality(rows, AssignedTo(id), set i | 0 <= i < |rows| && rows[i].server == Some(id));
  }

  lemma HistoryCounted(history: seq<Owned>, channels: seq<Assigned>, id: nat)
    ensures CountIf(history, PlacedAt(channels, id)) ==
            |set i | 0 <= i < |history| && OfChannelAt(history[i], channels, id)|
  {
    forall h: Owned
      ensures PlacedAt(channels, id)(h) <==> OfChannelAt(h, channels, id)
    {
    }
    CountIsCardinality(history, PlacedAt(channels, id),
                       set i | 0 <= i < |history| && OfChannelAt(history[i], channels, id));
  }
}
