/** The ledger as the object the rest of the program mutates (ledger.rs). */
module LedgerModule {
  import opened Wrappers
  import opened Tables

  class Ledger {
    var imported: seq<Imported>
    var jobs: seq<Job>
    var deletes: seq<DeleteRow>

    constructor ()
      ensures imported == [] && jobs == [] && deletes == []
    {
      imported, jobs, deletes := [], [], [];
    }

    function Value(): Db
      reads this
    {
      Db(imported, jobs, deletes)
    }

    method IsImported(key: Key) returns (known: bool)
      ensures known <==> exists i :: 0 <= i < |imported| && imported[i].key == key
    {
      known := FindKey(imported, key).Some?;
    }

    // Record and enqueue in one transaction: both land or neither.
    method RecordImportedWithCloudJob(key: Key, dest: string, hash: Option<Digest>, spec: Option<JobSpec>)
      returns (id: nat)
      modifies this`imported, this`jobs
      ensures (imported, id) == Upsert(old(imported), key, dest, hash)
      ensures jobs == old(jobs) + (if spec.Some? then [NewJob(id, dest, spec.value)] else [])
    {
      var r := Upsert(imported, key, dest, hash);
      imported, id := r.0, r.1;
      if spec.Some? {
        jobs := jobs + [NewJob(id, dest, spec.value)];
      }
    }

    method SetCloudStatus(id: nat, status: CloudStatus)
      modifies this`imported
      ensures imported == SetStatus(old(imported), id, status)
    {
      if id < |imported| {
        imported := imported[id := imported[id].(cloudStatus := status)];
      }
    }

    method EnqueueCameraDelete(row: DeleteRow)
      modifies this`deletes
      ensures deletes == old(deletes) + [row]
    {
      deletes := deletes + [row];
    }

    method MarkCameraDeleteDone(id: nat)
      requires id < |deletes|
      modifies this`deletes
      ensures deletes == MarkDeleted(old(deletes), id)
    {
      deletes := deletes[id := deletes[id].(deleted := true)];
    }

    // Select the due ids, flip each to Uploading, re-read each.
    method ClaimDueCloudJobs(now: int, limit: nat) returns (ids: seq<nat>, claimed: map<nat, Job>)
      modifies this`jobs
      ensures ids == DueIds(old(jobs), 0, now, limit)
      ensures jobs == ClaimRows(old(jobs), ids)
      ensures claimed.Keys == set id | id in ids
      ensures forall id :: id in ids ==> claimed[id] == old(jobs)[id].(state := Uploading)
    {
      ids := DueIds(jobs, 0, now, limit);
      for k := 0 to |ids|
        invariant |jobs| == |old(jobs)|
        invariant forall i :: 0 <= i < |jobs| ==>
                    jobs[i] == if i in ids[..k] then old(jobs)[i].(state := Uploading) else old(jobs)[i]
      {
        var id := ids[k];
        jobs := jobs[id := jobs[id].(state := Uploading)];
        assert ids[..k + 1] == ids[..k] + [id];
      }
      assert ids[..|ids|] == ids;
      assert jobs == ClaimRows(old(jobs), ids);
      claimed := map id | id in ids :: jobs[id];
    }

    method MarkJobDone(id: nat)
      requires id < |jobs|
      modifies this`jobs
      ensures jobs == MarkDone(old(jobs), id)
    {
      jobs := jobs[id := jobs[id].(state := Done, nextRetry := None)];
    }

    method MarkJobFailed(id: nat, error: string, next: Option<int>)
      requires id < |jobs|
      modifies this`jobs
      ensures jobs == MarkFailed(old(jobs), id, error, next)
    {
      jobs := jobs[id := jobs[id].(state := Failed, attempts := jobs[id].attempts + 1,
                                   lastError := Some(error), nextRetry := next)];
    }

    method SaveJobProgress(id: nat, uploaded: nat)
      requires id < |jobs|
      modifies this`jobs
      ensures jobs == SaveProgress(old(jobs), id, uploaded)
    {
      jobs := jobs[id := jobs[id].(uploaded := uploaded)];
    }

    // One UPDATE over every row stuck in Uploading; returns how many there were.
    method ReclaimOrphanedUploading() returns (n: nat)
      modifies this`jobs
      ensures jobs == Reclaim(old(jobs))
      ensures n == |set i | 0 <= i < |old(jobs)| && old(jobs)[i].state == Uploading|
    {
      n := |set i | 0 <= i < |jobs| && jobs[i].state == Uploading|;
      jobs := Reclaim(jobs);
    }

    method RequeueFailedCloudJobs() returns (n: nat)
      modifies this`jobs
      ensures jobs == Requeue(old(jobs))
      ensures n == FailedCount(old(jobs))
      ensures PendingCount(jobs) == PendingCount(old(jobs)) + n && FailedCount(jobs) == 0
    {
      RequeueCounts(jobs);
      n := FailedCount(jobs);
      jobs := Requeue(jobs);
    }
  }
}
