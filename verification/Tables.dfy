/**
  The three ledger tables as values, and one function per SQL statement of
  ledger.rs. Row ids are positions: no row of these tables is ever removed.
 */
module Tables {
  import opened Wrappers

  datatype JobState = Queued | Uploading | Done | Failed

  datatype JobSpec = JobSpec(destination: string, remotePath: string, total: nat, cardSrc: Option<string>)

  datatype Job = Job(
    importedId: nat, localPath: string, spec: JobSpec,
    state: JobState, attempts: nat, nextRetry: Option<int>, lastError: Option<string>, uploaded: nat)

  // The dedup key: it names the serial, not the directory on the card.
  datatype Key = Key(serial: string, name: string, size: nat, captured: int)

  datatype CloudStatus = Unset | StatusDone | StatusFailed

  datatype Imported = Imported(key: Key, dest: string, hash: Option<Digest>, cloudStatus: CloudStatus)

  datatype DeleteRow = DeleteRow(
    serial: string, dir: string, name: string, size: nat, captured: int, importedId: nat, deleted: bool)

  datatype Db = Db(imported: seq<Imported>, jobs: seq<Job>, deletes: seq<DeleteRow>)

  /* ----- imported ----- */

  function FindKey(rows: seq<Imported>, key: Key): (id: Option<nat>)
    ensures id.Some? ==> id.value < |rows| && rows[id.value].key == key
    ensures id.None? ==> forall i :: 0 <= i < |rows| ==> rows[i].key != key
  {
    if rows == [] then None
    else if rows[|rows| - 1].key == key then Some(|rows| - 1)
    else FindKey(rows[..|rows| - 1], key)
  }

  predicate UniqueKeys(rows: seq<Imported>) {
    forall i, j :: 0 <= i < j < |rows| ==> rows[i].key != rows[j].key
  }

  // INSERT ... ON CONFLICT DO UPDATE SET dest_path, hash: an existing row keeps
  // its id and, notably, its cloud_status.
  function Upsert(rows: seq<Imported>, key: Key, dest: string, hash: Option<Digest>): (r: (seq<Imported>, nat))
    ensures r.1 < |r.0| && |rows| <= |r.0| <= |rows| + 1
    ensures r.0[r.1].key == key && r.0[r.1].dest == dest && r.0[r.1].hash == hash
    ensures forall i :: 0 <= i < |rows| ==> r.0[i].key == rows[i].key && r.0[i].cloudStatus == rows[i].cloudStatus
    ensures forall i :: 0 <= i < |rows| && i != r.1 ==> r.0[i] == rows[i]
    ensures |rows| < |r.0| ==> r.1 == |rows| && r.0[r.1].cloudStatus == Unset
    ensures UniqueKeys(rows) ==> UniqueKeys(r.0)
  {
    match FindKey(rows, key)
    case Some(i) => (rows[i := rows[i].(dest := dest, hash := hash)], i)
    case None => (rows + [Imported(key, dest, hash, Unset)], |rows|)
  }

  // Recording then looking up finds the recorded row, and no other lookup changes.
  lemma {:induction false} UpsertFinds(rows: seq<Imported>, key: Key, dest: string, hash: Option<Digest>, other: Key)
    requires UniqueKeys(rows)
    ensures var r := Upsert(rows, key, dest, hash);
            FindKey(r.0, other) == if other == key then Some(r.1) else FindKey(rows, other)
    ensures var r := Upsert(rows, key, dest, hash);
            r.1 == if FindKey(rows, key).Some? then FindKey(rows, key).value else |rows|
  {
    var r := Upsert(rows, key, dest, hash);
    var before, after := FindKey(rows, other), FindKey(r.0, other);
    assert UniqueKeys(r.0);
    if other != key && before.Some? {
      assert r.0[before.value].key == other;
    }
  }

  function SetStatus(rows: seq<Imported>, id: nat, status: CloudStatus): seq<Imported> {
    if id < |rows| then rows[id := rows[id].(cloudStatus := status)] else rows
  }

  /* ----- cloud_jobs ----- */

  predicate Due(j: Job, now: int) {
    j.state == Queued || (j.state == Failed && j.nextRetry.Some? && j.nextRetry.value <= now)
  }

  // Not finished: this is what `pending_cloud_count` counts.
  predicate Pending(j: Job) {
    j.state == Queued || j.state == Uploading || (j.state == Failed && j.nextRetry.Some?)
  }

  // The worker gave up: this is what `failed_cloud_count` counts.
  predicate GaveUp(j: Job) {
    j.state == Failed && j.nextRetry.None?
  }

  function NewJob(importedId: nat, localPath: string, spec: JobSpec): Job {
    Job(importedId, localPath, spec, Queued, 0, None, None, 0)
  }

  // The first `limit` due ids from position `from` on, oldest first.
  function DueIds(jobs: seq<Job>, from: nat, now: int, limit: nat): (ids: seq<nat>)
    requires from <= |jobs|
    ensures |ids| <= limit
    ensures forall k :: 0 <= k < |ids| ==> from <= ids[k] < |jobs| && Due(jobs[ids[k]], now)
    ensures forall k, l :: 0 <= k < l < |ids| ==> ids[k] < ids[l]
    ensures forall i :: from <= i < |jobs| && Due(jobs[i], now) ==>
                          i in ids || (|ids| == limit && forall k :: 0 <= k < |ids| ==> ids[k] < i)
    decreases |jobs| - from
  {
    if from == |jobs| || limit == 0 then []
    else if Due(jobs[from], now) then [from] + DueIds(jobs, from + 1, now, limit - 1)
    else DueIds(jobs, from + 1, now, limit)
  }

  function ClaimRows(jobs: seq<Job>, ids: seq<nat>): (r: seq<Job>)
    ensures |r| == |jobs|
  {
    seq(|jobs|, i requires 0 <= i < |jobs| => if i in ids then jobs[i].(state := Uploading) else jobs[i])
  }

  function MarkDone(jobs: seq<Job>, id: nat): (r: seq<Job>)
    requires id < |jobs|
  {
    jobs[id := jobs[id].(state := Done, nextRetry := None)]
  }

  function MarkFailed(jobs: seq<Job>, id: nat, error: string, next: Option<int>): (r: seq<Job>)
    requires id < |jobs|
  {
    jobs[id := jobs[id].(state := Failed, attempts := jobs[id].attempts + 1,
                         lastError := Some(error), nextRetry := next)]
  }

  function SaveProgress(jobs: seq<Job>, id: nat, uploaded: nat): (r: seq<Job>)
    requires id < |jobs|
  {
    jobs[id := jobs[id].(uploaded := uploaded)]
  }

  function ReclaimRow(j: Job): Job {
    if j.state == Uploading then j.(state := Queued) else j
  }

  function RequeueRow(j: Job): Job {
    if GaveUp(j) then j.(state := Queued, attempts := 0, nextRetry := None, lastError := None) else j
  }

  function Reclaim(jobs: seq<Job>): (r: seq<Job>)
    ensures |r| == |jobs|
  {
    seq(|jobs|, i requires 0 <= i < |jobs| => ReclaimRow(jobs[i]))
  }

  function Requeue(jobs: seq<Job>): (r: seq<Job>)
    ensures |r| == |jobs|
  {
    seq(|jobs|, i requires 0 <= i < |jobs| => RequeueRow(jobs[i]))
  }

  /* ----- camera_delete_pending ----- */

  predicate DeleteDue(row: DeleteRow, rows: seq<Imported>, serial: string) {
    !row.deleted && row.serial == serial && row.importedId < |rows| && rows[row.importedId].cloudStatus == StatusDone
  }

  function DueDeletes(deletes: seq<DeleteRow>, rows: seq<Imported>, serial: string, from: nat): (ids: seq<nat>)
    requires from <= |deletes|
    ensures forall k :: 0 <= k < |ids| ==> from <= ids[k] < |deletes| && DeleteDue(deletes[ids[k]], rows, serial)
    ensures forall i :: from <= i < |deletes| && DeleteDue(deletes[i], rows, serial) ==> i in ids
    ensures forall k, l :: 0 <= k < l < |ids| ==> ids[k] < ids[l]
    decreases |deletes| - from
  {
    if from == |deletes| then []
    else
      var rest := DueDeletes(deletes, rows, serial, from + 1);
      if DeleteDue(deletes[from], rows, serial) then [from] + rest else rest
  }

  function MarkDeleted(deletes: seq<DeleteRow>, id: nat): (r: seq<DeleteRow>)
    requires id < |deletes|
  {
    deletes[id := deletes[id].(deleted := true)]
  }

  /* ----- counting ----- */

  // A weighted sum over the job table; every SELECT COUNT is an instance.
  function Sum(jobs: seq<Job>, w: Job -> nat): nat {
    if jobs == [] then 0 else Sum(jobs[..|jobs| - 1], w) + w(jobs[|jobs| - 1])
  }

  function One(b: bool): nat {
    if b then 1 else 0
  }

  function IsPending(j: Job): nat { One(Pending(j)) }

  function IsGivenUp(j: Job): nat { One(GaveUp(j)) }

  function IsDone(j: Job): nat { One(j.state == Done) }

  function PendingCount(jobs: seq<Job>): nat { Sum(jobs, IsPending) }

  function FailedCount(jobs: seq<Job>): nat { Sum(jobs, IsGivenUp) }

  function DoneCount(jobs: seq<Job>): nat { Sum(jobs, IsDone) }

  lemma SumAppend(jobs: seq<Job>, j: Job, w: Job -> nat)
    ensures Sum(jobs + [j], w) == Sum(jobs, w) + w(j)
  {
  }

  lemma {:induction false} SumUpdate(jobs: seq<Job>, id: nat, j: Job, w: Job -> nat)
    requires id < |jobs|
    ensures Sum(jobs[id := j], w) + w(jobs[id]) == Sum(jobs, w) + w(j)
  {
    var n := |jobs| - 1;
    if id == n {
      assert jobs[id := j][..n] == jobs[..n];
    } else {
      assert jobs[id := j][..n] == jobs[..n][id := j];
      SumUpdate(jobs[..n], id, j, w);
    }
  }

  lemma {:induction false} SumPointwise(a: seq<Job>, b: seq<Job>, w: Job -> nat)
    requires |a| == |b| && forall i :: 0 <= i < |a| ==> w(a[i]) == w(b[i])
    ensures Sum(a, w) == Sum(b, w)
  {
    if a != [] {
      SumPointwise(a[..|a| - 1], b[..|b| - 1], w);
    }
  }

  lemma {:induction false} SumPositive(jobs: seq<Job>, w: Job -> nat, id: nat)
    requires id < |jobs|
    ensures w(jobs[id]) <= Sum(jobs, w)
  {
    if id < |jobs| - 1 {
      SumPositive(jobs[..|jobs| - 1], w, id);
    }
  }

  // No job is lost: done, pending and given-up jobs partition the table.
  lemma {:induction false} CountsPartition(jobs: seq<Job>)
    ensures DoneCount(jobs) + PendingCount(jobs) + FailedCount(jobs) == |jobs|
  {
    if jobs != [] {
      CountsPartition(jobs[..|jobs| - 1]);
    }
  }

  // requeue_failed_cloud_jobs moves exactly the given-up jobs into pending.
  lemma {:induction false} RequeueCounts(jobs: seq<Job>)
    ensures PendingCount(Requeue(jobs)) == PendingCount(jobs) + FailedCount(jobs)
    ensures FailedCount(Requeue(jobs)) == 0 && DoneCount(Requeue(jobs)) == DoneCount(jobs)
  {
    if jobs != [] {
      var init := jobs[..|jobs| - 1];
      RequeueCounts(init);
      assert Requeue(jobs)[..|jobs| - 1] == Requeue(init);
    }
  }

  // What the reclaim is for: afterwards no row is stuck, every pending job is
  // either due or parked for a later retry, no count moves, and a second reclaim
  // finds nothing to do.
  lemma {:induction false} ReclaimFrees(jobs: seq<Job>, now: int)
    ensures forall i :: 0 <= i < |jobs| && Pending(Reclaim(jobs)[i]) ==>
              Due(Reclaim(jobs)[i], now) || (jobs[i].state == Failed && jobs[i].nextRetry.value > now)
    ensures PendingCount(Reclaim(jobs)) == PendingCount(jobs) && FailedCount(Reclaim(jobs)) == FailedCount(jobs)
    ensures DoneCount(Reclaim(jobs)) == DoneCount(jobs)
    ensures Reclaim(Reclaim(jobs)) == Reclaim(jobs)
  {
    SumPointwise(jobs, Reclaim(jobs), IsPending);
    SumPointwise(jobs, Reclaim(jobs), IsGivenUp);
    SumPointwise(jobs, Reclaim(jobs), IsDone);
  }
}
