/** The repository of servers as an object, and the endpoint that retires one. */
module ServerService {
  import opened Wrappers
  import opened OnboardingRow
  import opened ServerRemoval

  class ServerRepository {
    var db: Db

    constructor (db: Db)
      ensures this.db == db
    {
      this.db := db;
    }

    /** `cancel_active_onboardings`. */
    method CancelActiveOnboardings(id: nat) returns (cancelled: nat)
      modifies this
      ensures db == WithJobsCancelled(old(db), id)
      ensures cancelled == CountIf(old(db).jobs, ActiveOf(id))
    {
      ghost var before := db;
      cancelled := 0;
      assert before.audits + CancelAudits(before.jobs[..0], id) == before.audits;
      hide CancelledJob, IsActive;
      for i := 0 to |db.jobs|
        invariant CancelledUpTo(before, db, id, i, cancelled)
      {
        hide CancelledUpTo;
        CancelOneMore(before, db, id, i, cancelled);
        var active := CancelIfActive(i, id);
        if active {
          cancelled := cancelled + 1;
        }
      }
      assert before.jobs[..|before.jobs|] == before.jobs;
      assert db.jobs == CancelledJobs(before.jobs, id);
    }

    /** One round of its loop. */
    method CancelIfActive(i: nat, id: nat) returns (active: bool)
      requires i < |db.jobs|
      modifies this
      ensures active == IsActive(old(db).jobs[i], id)
      ensures db == old(db).(jobs := old(db).jobs[i := CancelledJob(old(db).jobs[i], id)],
                             audits := old(db).audits + if active then [Audit(old(db).jobs[i].id, id)] else [])
    {
      var job := db.jobs[i];
      active := job.server == id && !Terminal(job.row.status);
      if active {
        var row := job.row.(status := Cancelled, cancelRequested := true);
        row := row.(errorCode := Some(OperatorCancel));
        db := db.(jobs := db.jobs[i := job.(row := row)], audits := db.audits + [Audit(job.id, id)]);
      } else {
        assert db.jobs[i := job] == db.jobs && db.audits + [] == db.audits;
      }
    }

    method Archive(position: nat, now: int)
      requires position < |db.servers|
      modifies this
      ensures db == WithServerArchived(old(db), position, now)
    {
      var server := db.servers[position].(archivedAt := Some(now));
      db := db.(servers := db.servers[position := server.(enabled := false)]);
    }

    method Delete(id: nat)
      modifies this
      ensures db == WithServerDeleted(old(db), id)
    {
      db := WithServerDeleted(db, id);
    }
  }

  /** The loop has treated the first `i` jobs. */
  ghost predicate CancelledUpTo(before: Db, now: Db, id: nat, i: nat, cancelled: nat) {
    && i <= |now.jobs| == |before.jobs|
    && now == before.(jobs := now.jobs, audits := before.audits + CancelAudits(before.jobs[..i], id))
    && (forall k :: 0 <= k < i ==> now.jobs[k] == CancelledJob(before.jobs[k], id))
    && (forall k :: i <= k < |before.jobs| ==> now.jobs[k] == before.jobs[k])
    && cancelled == CountIf(before.jobs[..i], ActiveOf(id))
  }

  /** One round takes it one job further. */
  lemma {:induction false} CancelOneMore(before: Db, now: Db, id: nat, i: nat, cancelled: nat)
    requires CancelledUpTo(before, now, id, i, cancelled) && i < |now.jobs|
    ensures
      var active := IsActive(now.jobs[i], id);
      var audits := now.audits + if active then [Audit(now.jobs[i].id, id)] else [];
      CancelledUpTo(before, now.(jobs := now.jobs[i := CancelledJob(now.jobs[i], id)], audits := audits), id, i + 1,
                    cancelled + if active then 1 else 0)
  {
    hide IsActive, CancelledJob;
    assert before.jobs[..i + 1][..i] == before.jobs[..i];
    assert ActiveOf(id)(before.jobs[i]) == IsActive(now.jobs[i], id);
  }

  /** `delete_server`. */
  method DeleteServer(repository: ServerRepository, r: Removal) returns (outcome: Outcome)
    modifies repository
    ensures Reply(repository.db, outcome) == Remove(old(repository.db), r)
  {
    hide RelationSummary, CanHardDelete, WithJobsCancelled, WithServerDeleted, WithServerArchived;
    var found := FindServer(repository.db.servers, r.server);
    if found.None? {
      return NotFound;
    }
    var server := repository.db.servers[found.value];
    if r.confirmation != server.name {
      return BadConfirmation;
    }
    if server.hostname.Some? && r.hostname != server.hostname {
      return BadConfirmation;
    }
    var cancelled := 0;
    if server.archivedAt.None? {
      KeepsServers(repository.db, r.server);
      cancelled := repository.CancelActiveOnboardings(r.server);
    }
    if cancelled == 0 && CanHardDelete(RelationSummary(repository.db, server)) {
      repository.Delete(r.server);
      return Deleted;
    }
    repository.Archive(found.value, r.now);
    outcome := Archived(cancelled);
  }
}
