/**
  What "mirrored" is worth: when the object of a finished job is its file, when a
  card file freed after an upload was uploaded, and what the camera reap deletes.
 */
module StoreSafety {
  import opened Wrappers
  import opened Tables
  import opened Storage
  import opened CloudStore
  import opened QueueSafety
  import Q = CloudQueue

  /* ----- one object per remote path ----- */

  // Jobs that go to one remote path have the same bytes.
  predicate NoClash(s: Store) {
    forall i, j :: 0 <= i < j < |s.q.jobs| && j < |s.payload| && PathOf(s, i) == PathOf(s, j) ==> s.payload[i] == s.payload[j]
  }

  predicate IsStored(s: Store, j: nat)
    requires j < |s.q.jobs| && j < |s.payload|
  {
    Lookup(s.remote, PathOf(s, j)) == Some(s.payload[j])
  }

  // Every job marked Done has its file at its remote path.
  predicate StoredOk(s: Store)
    requires Sized(s)
  {
    forall j :: 0 <= j < |s.q.jobs| && s.q.jobs[j].state == Done ==> IsStored(s, j)
  }

  lemma NoClashStores(s: Store)
    requires StoreInv(s) && NoClash(s)
    ensures StoredOk(s)
  {
    forall j | 0 <= j < |s.q.jobs| && s.q.jobs[j].state == Done ensures IsStored(s, j) {
      assert Arrived(s, j);
      assert PathOf(s, j) in s.remote;
      var i :| 0 <= i < |s.q.jobs| && Stores(s, i, PathOf(s, j));
    }
  }

  lemma NoClashStaysPut(s: Store, t: Store)
    requires Sized(s) && Sized(t) && Q.Grows(s.q, t.q) && s.payload <= t.payload
    ensures NoClash(t) ==> NoClash(s)
    ensures |t.q.jobs| == |s.q.jobs| ==> (NoClash(s) ==> NoClash(t))
  {
    forall j | 0 <= j < |s.q.jobs| ensures PathOf(t, j) == PathOf(s, j) && t.payload[j] == s.payload[j] {
      assert Q.RowGrows(s.q.jobs[j], t.q.jobs[j]);
    }
  }

  /* ----- continuations ----- */

  predicate NoRecords(es: seq<Step>) {
    forall k :: 0 <= k < |es| ==> !es[k].Record?
  }

  lemma {:induction false} NoNewJobs(s: Store, es: seq<Step>)
    requires Legal(s, es) && NoRecords(es)
    ensures |Run(s, es).q.jobs| == |s.q.jobs|
    decreases |es|
  {
    if es != [] {
      StepConfirms(s, es[0]);
      NoNewJobs(Next(s, es[0]), es[1..]);
    }
  }

  // The upload of job `j` by drain `p`, from the pre-flight check to the stamp.
  // `wish` says whether the drain was told to free card files.
  function UploadSteps(s: Store, p: nat, j: nat, wish: bool): seq<Step>
    requires j < |s.q.jobs|
  {
    var store := [Join(p, j), Table(Q.StoreDone(p)), Table(Q.StampDone(p))];
    if Present(s.remote, s.q.jobs[j].spec) then [Preflight(p, j)] + store
    else [Preflight(p, j), Put(p, j, true)] + store + [Free(p, wish, true)]
  }

  predicate CanUpload(s: Store, p: nat, j: nat) {
    && j < |s.q.jobs| && j < |s.payload| && Q.Joins(s.q, p, j) && p !in s.freeing && j !in s.tasks
  }

  // Where that leads.
  function Uploaded(s: Store, p: nat, j: nat, wish: bool): Store
    requires CanUpload(s, p, j)
  {
    var w := Q.At(s.q, p);
    var found := Present(s.remote, s.q.jobs[j].spec);
    var src := Target(s, j);
    var frees := !found && wish && src.Some? && src.value in s.card;
    s.(q := s.q.(jobs := MarkDone(s.q.jobs, j),
                 imported := SetStatus(s.q.imported, s.q.jobs[j].importedId, StatusDone),
                 workers := s.q.workers[p := w.(inFlight := w.inFlight - {j})],
                 confirmed := s.q.confirmed + {j}),
       remote := if found then s.remote else s.remote[PathOf(s, j) := s.payload[j]],
       tasks := s.tasks[j := if found then Found else Stored],
       card := if frees then s.card - {src.value} else s.card,
       freed := if frees then s.freed + [Freed(j, s.card[src.value])] else s.freed)
  }

  // The three writes that end an upload.
  lemma StoreSteps(s: Store, p: nat, j: nat)
    requires Enabled(s, Join(p, j)) && j < |s.q.jobs|
    ensures var es := [Join(p, j), Table(Q.StoreDone(p)), Table(Q.StampDone(p))];
            var w := Q.At(s.q, p);
            && Legal(s, es)
            && Run(s, es) == s.(q := s.q.(jobs := MarkDone(s.q.jobs, j),
                                          imported := SetStatus(s.q.imported, s.q.jobs[j].importedId, StatusDone),
                                          workers := s.q.workers[p := w.(inFlight := w.inFlight - {j})],
                                          confirmed := s.q.confirmed + {j}),
                                freeing := if s.tasks[j] == Stored then s.freeing[p := j] else s.freeing)
  {
    StoredThen(s, p, j);
    var b := Run(s, [Join(p, j), Table(Q.StoreDone(p))]);
    StampThen(b, p, j);
    LegalAppend(s, [Join(p, j), Table(Q.StoreDone(p))], Table(Q.StampDone(p)));
    assert [Join(p, j), Table(Q.StoreDone(p))] + [Table(Q.StampDone(p))]
        == [Join(p, j), Table(Q.StoreDone(p)), Table(Q.StampDone(p))];
    assert SetStatus(b.q.imported, b.q.jobs[j].importedId, StatusDone) == SetStatus(s.q.imported, s.q.jobs[j].importedId, StatusDone);
  }

  lemma StoredThen(s: Store, p: nat, j: nat)
    requires Enabled(s, Join(p, j)) && j < |s.q.jobs|
    ensures var es := [Join(p, j), Table(Q.StoreDone(p))];
            var w := Q.At(s.q, p);
            && Legal(s, es)
            && Run(s, es) == s.(q := s.q.(jobs := MarkDone(s.q.jobs, j), confirmed := s.q.confirmed + {j},
                                          workers := s.q.workers[p := w.(inFlight := w.inFlight - {j}, stage := Q.MarkedDone(j))]))
  {
    var a := Next(s, Join(p, j));
    Chain(a, Table(Q.StoreDone(p)), []);
    Chain(s, Join(p, j), [Table(Q.StoreDone(p))]);
    assert [Table(Q.StoreDone(p))] + [] == [Table(Q.StoreDone(p))];
    assert [Join(p, j)] + [Table(Q.StoreDone(p))] == [Join(p, j), Table(Q.StoreDone(p))];
  }

  lemma StampThen(s: Store, p: nat, j: nat)
    requires Q.At(s.q, p).Passing? && Q.At(s.q, p).stage == Q.MarkedDone(j) && j < |s.q.jobs| && p !in s.freeing && j in s.tasks
    ensures Enabled(s, Table(Q.StampDone(p)))
    ensures Next(s, Table(Q.StampDone(p))) ==
            s.(q := s.q.(imported := SetStatus(s.q.imported, s.q.jobs[j].importedId, StatusDone),
                         workers := s.q.workers[p := Q.At(s.q, p).(stage := Q.Joining)]),
               freeing := if s.tasks[j] == Stored then s.freeing[p := j] else s.freeing)
  {
  }

  lemma SkipRuns(s: Store, p: nat, j: nat, wish: bool)
    requires CanUpload(s, p, j) && Present(s.remote, s.q.jobs[j].spec)
    ensures Legal(s, UploadSteps(s, p, j, wish)) && Run(s, UploadSteps(s, p, j, wish)) == Uploaded(s, p, j, wish)
  {
    var a := Next(s, Preflight(p, j));
    StoreSteps(a, p, j);
    Chain(s, Preflight(p, j), [Join(p, j), Table(Q.StoreDone(p)), Table(Q.StampDone(p))]);
  }

  // The removal of what lies at the card path, if the drain was told to.
  lemma FreeStep(s: Store, p: nat, j: nat, wish: bool)
    requires p in s.freeing && s.freeing[p] == j && j < |s.q.jobs|
    ensures Enabled(s, Free(p, wish, true))
    ensures var src := Target(s, j);
            var frees := wish && src.Some? && src.value in s.card;
            Next(s, Free(p, wish, true)) ==
            s.(freeing := s.freeing - {p}, card := if frees then s.card - {src.value} else s.card,
               freed := if frees then s.freed + [Freed(j, s.card[src.value])] else s.freed)
  {
  }

  lemma StoreAndFree(s: Store, p: nat, j: nat, wish: bool)
    requires Enabled(s, Join(p, j)) && j < |s.q.jobs| && s.tasks[j] == Stored && p !in s.freeing
    ensures var es := [Join(p, j), Table(Q.StoreDone(p)), Table(Q.StampDone(p))] + [Free(p, wish, true)];
            var w, src := Q.At(s.q, p), Target(s, j);
            var frees := wish && src.Some? && src.value in s.card;
            && Legal(s, es)
            && Run(s, es) == s.(q := s.q.(jobs := MarkDone(s.q.jobs, j),
                                          imported := SetStatus(s.q.imported, s.q.jobs[j].importedId, StatusDone),
                                          workers := s.q.workers[p := w.(inFlight := w.inFlight - {j})],
                                          confirmed := s.q.confirmed + {j}),
                                card := if frees then s.card - {src.value} else s.card,
                                freed := if frees then s.freed + [Freed(j, s.card[src.value])] else s.freed)
  {
    var store := [Join(p, j), Table(Q.StoreDone(p)), Table(Q.StampDone(p))];
    StoreSteps(s, p, j);
    FreeStep(Run(s, store), p, j, wish);
    LegalAppend(s, store, Free(p, wish, true));
    assert s.freeing[p := j] - {p} == s.freeing;
  }

  // The transfer and, if told to, the removal of what lies at the card path.
  lemma SendRuns(s: Store, p: nat, j: nat, wish: bool)
    requires CanUpload(s, p, j) && !Present(s.remote, s.q.jobs[j].spec)
    ensures Legal(s, UploadSteps(s, p, j, wish)) && Run(s, UploadSteps(s, p, j, wish)) == Uploaded(s, p, j, wish)
  {
    var store := [Join(p, j), Table(Q.StoreDone(p)), Table(Q.StampDone(p))];
    var send, free := [Preflight(p, j), Put(p, j, true)], Free(p, wish, true);
    SendSteps(s, p, j);
    StoreAndFree(Run(s, send), p, j, wish);
    LegalJoin(s, send, store + [free]);
    assert send + (store + [free]) == UploadSteps(s, p, j, wish);
  }

  lemma SendSteps(s: Store, p: nat, j: nat)
    requires CanUpload(s, p, j) && !Present(s.remote, s.q.jobs[j].spec)
    ensures var es := [Preflight(p, j), Put(p, j, true)];
            && Legal(s, es)
            && Run(s, es) == s.(remote := s.remote[PathOf(s, j) := s.payload[j]], tasks := s.tasks[j := Stored])
  {
    var a := Next(s, Preflight(p, j));
    Chain(a, Put(p, j, true), []);
    Chain(s, Preflight(p, j), [Put(p, j, true)]);
    assert [Put(p, j, true)] + [] == [Put(p, j, true)];
    assert [Preflight(p, j)] + [Put(p, j, true)] == [Preflight(p, j), Put(p, j, true)];
    assert s.tasks[j := Missing][j := Stored] == s.tasks[j := Stored];
  }

  lemma UploadRuns(s: Store, p: nat, j: nat, wish: bool)
    requires CanUpload(s, p, j)
    ensures Legal(s, UploadSteps(s, p, j, wish)) && Run(s, UploadSteps(s, p, j, wish)) == Uploaded(s, p, j, wish)
    ensures NoRecords(UploadSteps(s, p, j, wish))
  {
    if Present(s.remote, s.q.jobs[j].spec) {
      SkipRuns(s, p, j, wish);
    } else {
      SendRuns(s, p, j, wish);
    }
  }

  /* ----- when every finished job is stored ----- */

  function LatestRetry(jobs: seq<Job>): int {
    if jobs == [] then 0
    else
      var last := jobs[|jobs| - 1].nextRetry;
      var before := LatestRetry(jobs[..|jobs| - 1]);
      if last.Some? && last.value > before then last.value else before
  }

  lemma {:induction false} RetriesBefore(jobs: seq<Job>, i: nat)
    requires i < |jobs| && jobs[i].nextRetry.Some?
    ensures jobs[i].nextRetry.value <= LatestRetry(jobs)
  {
    if i < |jobs| - 1 {
      RetriesBefore(jobs[..|jobs| - 1], i);
    }
  }

  lemma {:induction false} AscendingFits(ids: seq<nat>, n: nat)
    requires forall k, l :: 0 <= k < l < |ids| ==> ids[k] < ids[l]
    requires forall k :: 0 <= k < |ids| ==> ids[k] < n
    ensures |ids| <= n
  {
    if ids != [] {
      AscendingFits(ids[..|ids| - 1], ids[|ids| - 1]);
    }
  }

  // A claim late enough and large enough takes every due job.
  lemma ClaimsAll(jobs: seq<Job>, j: nat)
    requires j < |jobs| && (jobs[j].state == Queued || (jobs[j].state == Failed && jobs[j].nextRetry.Some?))
    ensures j in DueIds(jobs, 0, LatestRetry(jobs), |jobs| + 1)
  {
    if jobs[j].nextRetry.Some? {
      RetriesBefore(jobs, j);
    }
    AscendingFits(DueIds(jobs, 0, LatestRetry(jobs), |jobs| + 1), |jobs|);
  }

  // Whoever holds the lock dies; what was given up is requeued; drain 0 starts.
  function Restart(s: Store): seq<Step> {
    (if s.q.lock.Some? then [Table(Q.Crash(s.q.lock.value))] else [])
    + [Table(Q.RequeueFailed), Table(Q.TryLock(0)), Table(Q.ReclaimUnderLock(0))]
  }

  predicate Retriable(j: Job) {
    j.state == Done || j.state == Queued || (j.state == Failed && j.nextRetry.Some?)
  }

  // All that a continuation without commits leaves as it is.
  predicate SameFiles(s: Store, t: Store) {
    && |t.q.jobs| == |s.q.jobs| && t.payload == s.payload
    && forall j :: 0 <= j < |s.q.jobs| ==> t.q.jobs[j].spec == s.q.jobs[j].spec
  }

  // ... and that a restart leaves alone besides.
  predicate SameRest(s: Store, t: Store) {
    && t.remote == s.remote && t.card == s.card && t.freed == s.freed
    && t.q.imported == s.q.imported && t.q.deletes == s.q.deletes && t.q.issued == s.q.issued && t.q.reaps == s.q.reaps
    && (|t.q.jobs| == |s.q.jobs|)
    && forall j :: 0 <= j < |s.q.jobs| ==> t.q.jobs[j].importedId == s.q.jobs[j].importedId
                                           && (t.q.jobs[j].state == Done <==> s.q.jobs[j].state == Done)
  }

  lemma AfterCrash(s: Store) returns (t: Store, es: seq<Step>)
    requires StoreInv(s)
    ensures es == if s.q.lock.Some? then [Table(Q.Crash(s.q.lock.value))] else []
    ensures Legal(s, es) && t == Run(s, es) && SameFiles(s, t) && SameRest(s, t)
    ensures t.q.lock.None? && Q.At(t.q, 0) == Q.Idle && 0 !in t.freeing
  {
    assert Q.At(s.q, 0) != Q.Idle <==> s.q.lock == Some(0);
    assert FreeingOk(s, 0);
    t, es := s, [];
    if s.q.lock.Some? {
      var h := s.q.lock.value;
      es := [Table(Q.Crash(h))];
      Chain(s, es[0], []);
      assert [es[0]] + [] == es;
      t := Next(s, es[0]);
    }
  }

  lemma FreshRows(jobs: seq<Job>)
    ensures var r := Reclaim(Requeue(jobs));
            |r| == |jobs|
            && forall j :: 0 <= j < |jobs| ==>
                 && Retriable(r[j]) && r[j].spec == jobs[j].spec && r[j].importedId == jobs[j].importedId
                 && (r[j].state == Done <==> jobs[j].state == Done)
  {
  }

  // The restart once the lock is free: requeue and lock, then reclaim.
  lemma LockTaken(s: Store)
    requires s.q.lock.None? && Q.At(s.q, 0) == Q.Idle && 0 !in s.freeing
    ensures var es := [Table(Q.RequeueFailed), Table(Q.TryLock(0))];
            && Legal(s, es)
            && Run(s, es) == s.(q := s.q.(jobs := Requeue(s.q.jobs), lock := Some(0),
                                          workers := s.q.workers[0 := Q.Locked]))
  {
    var a := s.(q := s.q.(jobs := Requeue(s.q.jobs)));
    assert Next(s, Table(Q.RequeueFailed)) == a;
    Chain(a, Table(Q.TryLock(0)), []);
    Chain(s, Table(Q.RequeueFailed), [Table(Q.TryLock(0))] + []);
    assert [Table(Q.RequeueFailed)] + ([Table(Q.TryLock(0))] + []) == [Table(Q.RequeueFailed), Table(Q.TryLock(0))];
  }

  lemma Reclaimed(s: Store)
    requires Q.At(s.q, 0) == Q.Locked && 0 !in s.freeing
    ensures Enabled(s, Table(Q.ReclaimUnderLock(0)))
    ensures Next(s, Table(Q.ReclaimUnderLock(0)))
            == s.(q := s.q.(jobs := Reclaim(s.q.jobs), workers := s.q.workers[0 := Q.Draining]))
  {
  }

  lemma AfterRestart(s: Store) returns (t: Store)
    requires StoreInv(s)
    ensures Legal(s, Restart(s)) && t == Run(s, Restart(s)) && NoRecords(Restart(s)) && SameFiles(s, t) && SameRest(s, t)
    ensures Q.At(t.q, 0) == Q.Draining && 0 !in t.freeing
    ensures forall j :: 0 <= j < |t.q.jobs| ==> Retriable(t.q.jobs[j])
  {
    var a, es := AfterCrash(s);
    LockTaken(a);
    LegalJoin(s, es, [Table(Q.RequeueFailed), Table(Q.TryLock(0))]);
    var b := Run(a, [Table(Q.RequeueFailed), Table(Q.TryLock(0))]);
    Reclaimed(b);
    LegalAppend(s, es + [Table(Q.RequeueFailed), Table(Q.TryLock(0))], Table(Q.ReclaimUnderLock(0)));
    t := Next(b, Table(Q.ReclaimUnderLock(0)));
    assert es + [Table(Q.RequeueFailed), Table(Q.TryLock(0))] + [Table(Q.ReclaimUnderLock(0))] == Restart(s);
    FreshRows(a.q.jobs);
  }

  // Drain 0 has job `j` behind it or can upload it now.
  predicate Ready(s: Store, j: nat) {
    j < |s.q.jobs| && (s.q.jobs[j].state == Done || CanUpload(s, 0, j))
  }

  function ClaimAll(s: Store): Step {
    Table(Q.Claim(0, LatestRetry(s.q.jobs), |s.q.jobs| + 1))
  }

  lemma ClaimStep(s: Store)
    requires Q.At(s.q, 0) == Q.Draining && 0 !in s.freeing
    ensures Enabled(s, ClaimAll(s))
    ensures var ids := DueIds(s.q.jobs, 0, LatestRetry(s.q.jobs), |s.q.jobs| + 1);
            Next(s, ClaimAll(s)) == if ids == [] then s else Claimed(s, ids)
  {
    assert s.tasks - (set j | j in []) == s.tasks;
  }

  // Drain 0 has claimed `ids`.
  function Claimed(s: Store, ids: seq<nat>): Store {
    s.(q := s.q.(jobs := ClaimRows(s.q.jobs, ids), workers := s.q.workers[0 := Q.NewPass(s.q.jobs, ids)]),
       tasks := s.tasks - (set j | j in ids))
  }

  lemma ClaimedFiles(s: Store, ids: seq<nat>)
    requires forall j :: j in ids ==> j < |s.q.jobs| && s.q.jobs[j].state != Done
    ensures SameFiles(s, Claimed(s, ids)) && SameRest(s, Claimed(s, ids))
  {
  }

  lemma ClaimedReady(s: Store, ids: seq<nat>, j: nat)
    requires 0 !in s.freeing && |s.payload| == |s.q.jobs| && j < |s.q.jobs|
    requires if s.q.jobs[j].state == Done then j !in ids else j in ids
    ensures Ready(if ids == [] then s else Claimed(s, ids), j)
  {
  }

  lemma AfterClaim(s: Store)
    requires Q.At(s.q, 0) == Q.Draining && 0 !in s.freeing && |s.payload| == |s.q.jobs|
    requires forall j :: 0 <= j < |s.q.jobs| ==> Retriable(s.q.jobs[j])
    ensures Enabled(s, ClaimAll(s))
    ensures SameFiles(s, Next(s, ClaimAll(s))) && SameRest(s, Next(s, ClaimAll(s)))
    ensures forall j :: 0 <= j < |s.q.jobs| ==> Ready(Next(s, ClaimAll(s)), j)
  {
    ClaimStep(s);
    var ids := DueIds(s.q.jobs, 0, LatestRetry(s.q.jobs), |s.q.jobs| + 1);
    ClaimedFiles(s, ids);
    forall j | 0 <= j < |s.q.jobs| ensures Ready(Next(s, ClaimAll(s)), j) {
      if s.q.jobs[j].state != Done {
        ClaimsAll(s.q.jobs, j);
      }
      ClaimedReady(s, ids, j);
    }
  }

  // Finish job `x`, leaving job `y` as ready as it was.
  lemma FinishJob(s: Store, x: nat, y: nat) returns (t: Store, es: seq<Step>)
    requires Ready(s, x) && Ready(s, y) && x != y
    ensures Legal(s, es) && t == Run(s, es) && NoRecords(es) && SameFiles(s, t)
    ensures t.q.jobs[x].state == Done && Ready(t, y) && t.q.jobs[y] == s.q.jobs[y]
  {
    if s.q.jobs[x].state == Done {
      t, es := s, [];
    } else {
      t, es := Uploaded(s, 0, x, false), UploadSteps(s, 0, x, false);
      UploadRuns(s, 0, x, false);
    }
  }

  lemma BothReady(s: Store, i: nat, j: nat) returns (es: seq<Step>, t: Store)
    requires StoreInv(s) && i < |s.q.jobs| && j < |s.q.jobs|
    ensures Legal(s, es) && NoRecords(es) && t == Run(s, es) && SameFiles(s, t) && SameRest(s, t)
    ensures Ready(t, i) && Ready(t, j)
  {
    var a := AfterRestart(s);
    AfterClaim(a);
    LegalAppend(s, Restart(s), ClaimAll(a));
    es, t := Restart(s) + [ClaimAll(a)], Next(a, ClaimAll(a));
  }

  // Two jobs can always both be brought to Done.
  lemma BothDone(s: Store, i: nat, j: nat) returns (more: seq<Step>, t: Store)
    requires StoreInv(s) && i < |s.q.jobs| && j < |s.q.jobs| && i != j
    ensures Legal(s, more) && NoRecords(more) && t == Run(s, more) && SameFiles(s, t)
    ensures t.q.jobs[i].state == Done && t.q.jobs[j].state == Done
  {
    var es, a := BothReady(s, i, j);
    var b, first := FinishJob(a, i, j);
    LegalJoin(s, es, first);
    var second;
    t, second := FinishJob(b, j, i);
    LegalJoin(s, es + first, second);
    more := es + first + second;
  }

  // No matter how things go on, short of new commits, every job marked Done has
  // its file at its remote path: this holds exactly if no two jobs with
  // different bytes share a remote path.
  lemma {:induction false} StoredForGoodIff(es: seq<Step>)
    requires Legal(EMPTY, es)
    ensures (forall more :: Legal(Run(EMPTY, es), more) && NoRecords(more) ==>
                              Sized(Run(Run(EMPTY, es), more)) && StoredOk(Run(Run(EMPTY, es), more)))
            <==> NoClash(Run(EMPTY, es))
  {
    StoreReachable(es);
    var s := Run(EMPTY, es);
    if NoClash(s) {
      forall more | Legal(s, more) && NoRecords(more) ensures Sized(Run(s, more)) && StoredOk(Run(s, more)) {
        StoreKeeps(s, more);
        NoNewJobs(s, more);
        NoClashStaysPut(s, Run(s, more));
        NoClashStores(Run(s, more));
      }
    } else {
      var i, j :| 0 <= i < j < |s.q.jobs| && j < |s.payload| && PathOf(s, i) == PathOf(s, j) && s.payload[i] != s.payload[j];
      var more, t := BothDone(s, i, j);
      assert !(IsStored(t, i) && IsStored(t, j));
      assert !(Sized(t) && StoredOk(t));
    }
  }

  // In a history that ends without such a clash there was none at any time.
  lemma EveryDoneJobIsStored(es: seq<Step>, more: seq<Step>)
    requires Legal(EMPTY, es + more) && NoClash(Run(EMPTY, es + more))
    ensures Legal(EMPTY, es) && Sized(Run(EMPTY, es)) && StoredOk(Run(EMPTY, es))
  {
    LegalSplit(EMPTY, es, more);
    StoreReachable(es);
    StoreKeeps(Run(EMPTY, es), more);
    NoClashStaysPut(Run(EMPTY, es), Run(EMPTY, es + more));
    NoClashStores(Run(EMPTY, es));
  }

  /* ----- what the camera reap deletes ----- */

  // If no commit re-records a key and no two jobs with different bytes share a
  // remote path, the original goes only after its own file has been stored: the
  // marker's row has a job, and every job of the row has its file in the cloud.
  lemma OriginalsAreStored(es: seq<Step>, k: nat)
    requires Legal(EMPTY, es) && NoClash(Run(EMPTY, es)) && k < |Run(EMPTY, es).q.issued|
    requires Q.Legal(Q.INIT, Statements(es)) ==> NeverRerecords(Q.INIT, Statements(es))
    ensures var s := Run(EMPTY, es);
            && s.q.issued[k].row < |s.q.deletes| && |s.payload| == |s.q.jobs|
            && var id := s.q.deletes[s.q.issued[k].row].importedId;
            && (exists j :: 0 <= j < |s.q.jobs| && s.q.jobs[j].importedId == id)
            && forall j :: 0 <= j < |s.q.jobs| && s.q.jobs[j].importedId == id ==>
                 s.q.jobs[j].state == Done && IsStored(s, j)
  {
    var s := Run(EMPTY, es);
    TablesFollowQueue(EMPTY, es);
    StoreReachable(es);
    NoClashStores(s);
    CameraDeletesAreBacked(Statements(es), k);
    var id := s.q.deletes[s.q.issued[k].row].importedId;
    assert Q.Backed(s.q, id);
    forall j | 0 <= j < |s.q.jobs| && s.q.jobs[j].importedId == id ensures s.q.jobs[j].state == Done && IsStored(s, j) {
      DistinctKeysNeverDeleteEarly(Statements(es), k, j);
    }
  }

  // The premise cannot be dropped. Two files that go to one remote path, both
  // mirrored under deferred deletion: with equal sizes the second upload is
  // skipped as already present, otherwise it overwrites the first. Both are
  // marked done, the reap deletes both originals, and the bytes of one of them
  // are stored nowhere.
  lemma TwoFilesOneObject(keyA: Key, keyB: Key, dirA: string, dirB: string, path: string, x: Bytes, y: Bytes)
    returns (es: seq<Step>)
    requires keyA != keyB && keyA.serial == keyB.serial && x != y
    ensures Legal(EMPTY, es)
    ensures var s := Run(EMPTY, es);
            && s.q.issued == [Issued(0, keyA, dirA), Issued(1, keyB, dirB)]
            && |s.q.jobs| == 2 && s.payload == [x, y] && s.q.jobs[0].importedId == 0 && s.q.jobs[1].importedId == 1
            && s.remote == map[path := if |x| == |y| then x else y]
  {
    var s, t, more;
    es, s := TwoFilesRecorded(keyA, keyB, dirA, dirB, path, x, y);
    StoreReachable(es);
    more, t := BothReady(s, 0, 1);
    LegalJoin(EMPTY, es, more);
    es := es + more;
    es, t := BothUploaded(es, t, path, x, y);
    es, t := BothReaped(es, t, keyA, keyB, dirA, dirB);
  }

  function Spec(path: string, size: nat, src: Option<string>): JobSpec {
    JobSpec("cloud", path, size, src)
  }

  function Issued(row: nat, key: Key, dir: string): Q.Issue {
    Q.Issue(row, Q.Media(dir, key.name, key.size, key.captured))
  }

  function MarkerIn(key: Key, dir: string, id: nat): DeleteRow {
    DeleteRow(key.serial, dir, key.name, key.size, key.captured, id, false)
  }

  lemma Further(es: seq<Step>, s: Store, e: Step) returns (es': seq<Step>, t: Store)
    requires Legal(EMPTY, es) && s == Run(EMPTY, es) && Enabled(s, e)
    ensures es' == es + [e] && Legal(EMPTY, es') && t == Run(EMPTY, es') && t == Next(s, e)
  {
    LegalAppend(EMPTY, es, e);
    es', t := es + [e], Next(s, e);
  }

  lemma RecordNew(s: Store, key: Key, dest: string, spec: JobSpec, dir: string, x: Bytes)
    requires FindKey(s.q.imported, key).None? && s.q.owed == {} && spec.cardSrc.None?
    ensures var id := |s.q.imported|;
            Next(s, Record(key, dest, None, Some(spec), Some(dir), x)) ==
            s.(q := s.q.(imported := s.q.imported + [Imported(key, dest, None, Unset)],
                         jobs := s.q.jobs + [NewJob(id, dest, spec)], owed := {MarkerIn(key, dir, id)},
                         mirrored := s.q.mirrored + {id}, enqueued := s.q.enqueued + 1),
               payload := s.payload + [x], sources := s.sources + [None])
  {
  }

  lemma MarkerInserted(s: Store, row: DeleteRow)
    requires s.q.owed == {row}
    ensures Enabled(s, Table(Q.InsertMarker(row)))
    ensures Next(s, Table(Q.InsertMarker(row))) == s.(q := s.q.(deletes := s.q.deletes + [row], owed := {}))
  {
    assert s.q.owed - {row} == {};
  }

  // A file recorded and its marker inserted.
  lemma FileRecorded(es: seq<Step>, s: Store, key: Key, dest: string, dir: string, path: string, x: Bytes)
    returns (es': seq<Step>, t: Store)
    requires Legal(EMPTY, es) && s == Run(EMPTY, es) && FindKey(s.q.imported, key).None? && s.q.owed == {}
    ensures Legal(EMPTY, es') && t == Run(EMPTY, es')
    ensures var id := |s.q.imported|;
            && t.q.imported == s.q.imported + [Imported(key, dest, None, Unset)]
            && t.q.jobs == s.q.jobs + [NewJob(id, dest, Spec(path, |x|, None))]
            && t.q.deletes == s.q.deletes + [MarkerIn(key, dir, id)] && t.q.owed == {}
            && t.payload == s.payload + [x] && t.remote == s.remote && t.q.issued == s.q.issued && t.q.reaps == s.q.reaps
  {
    var row := MarkerIn(key, dir, |s.q.imported|);
    RecordNew(s, key, dest, Spec(path, |x|, None), dir, x);
    es', t := Further(es, s, Record(key, dest, None, Some(Spec(path, |x|, None)), Some(dir), x));
    MarkerInserted(t, row);
    es', t := Further(es', t, Table(Q.InsertMarker(row)));
  }

  lemma TwoFilesRecorded(keyA: Key, keyB: Key, dirA: string, dirB: string, path: string, x: Bytes, y: Bytes)
    returns (es: seq<Step>, s: Store)
    requires keyA != keyB
    ensures Legal(EMPTY, es) && s == Run(EMPTY, es) && |s.q.imported| == 2
    ensures s.q.jobs == [NewJob(0, "a", Spec(path, |x|, None)), NewJob(1, "b", Spec(path, |y|, None))]
    ensures s.q.deletes == [MarkerIn(keyA, dirA, 0), MarkerIn(keyB, dirB, 1)]
    ensures s.payload == [x, y] && s.remote == map[] && s.q.issued == [] && s.q.reaps == map[]
  {
    es, s := FileRecorded([], EMPTY, keyA, "a", dirA, path, x);
    assert s.q.imported[..0] == [];
    es, s := FileRecorded(es, s, keyB, "b", dirB, path, y);
  }

  lemma BothUploaded(es: seq<Step>, s: Store, path: string, x: Bytes, y: Bytes) returns (es': seq<Step>, t: Store)
    requires Legal(EMPTY, es) && s == Run(EMPTY, es)
    requires |s.q.jobs| == 2 && s.payload == [x, y] && s.remote == map[] && |s.q.imported| == 2
    requires CanUpload(s, 0, 0) && CanUpload(s, 0, 1)
    requires s.q.jobs[0].spec == Spec(path, |x|, None) && s.q.jobs[1].spec == Spec(path, |y|, None)
    requires s.q.jobs[0].importedId == 0 && s.q.jobs[1].importedId == 1
    ensures Legal(EMPTY, es') && t == Run(EMPTY, es')
    ensures t.remote == map[path := if |x| == |y| then x else y] && t.payload == s.payload
    ensures |t.q.jobs| == 2 && t.q.jobs[0].importedId == 0 && t.q.jobs[1].importedId == 1
    ensures |t.q.imported| == 2 && t.q.imported[0].cloudStatus == t.q.imported[1].cloudStatus == StatusDone
    ensures t.q.deletes == s.q.deletes && t.q.issued == s.q.issued && t.q.reaps == s.q.reaps
  {
    UploadRuns(s, 0, 0, false);
    LegalJoin(EMPTY, es, UploadSteps(s, 0, 0, false));
    FirstSent(s, path, x, y);
    var a := Uploaded(s, 0, 0, false);
    UploadRuns(a, 0, 1, false);
    es' := es + UploadSteps(s, 0, 0, false);
    LegalJoin(EMPTY, es', UploadSteps(a, 0, 1, false));
    es', t := es' + UploadSteps(a, 0, 1, false), Uploaded(a, 0, 1, false);
    assert t.remote == map[path := if |x| == |y| then x else y];
  }

  // The server is empty, so the first file is sent.
  lemma FirstSent(s: Store, path: string, x: Bytes, y: Bytes)
    requires |s.q.jobs| == 2 && s.payload == [x, y] && s.remote == map[] && |s.q.imported| == 2
    requires CanUpload(s, 0, 0) && CanUpload(s, 0, 1)
    requires s.q.jobs[0].spec == Spec(path, |x|, None) && s.q.jobs[0].importedId == 0
    ensures var a := Uploaded(s, 0, 0, false);
            && a.remote == map[path := x] && a.payload == s.payload && CanUpload(a, 0, 1)
            && |a.q.jobs| == 2 && a.q.jobs[1] == s.q.jobs[1] && a.q.jobs[0].importedId == 0
            && |a.q.imported| == 2 && a.q.imported[0].cloudStatus == StatusDone
            && a.q.deletes == s.q.deletes && a.q.issued == s.q.issued && a.q.reaps == s.q.reaps
  {
  }

  lemma DeleteSent(s: Store, row: nat, rest: seq<nat>, key: Key, dir: string, id: nat)
    requires Q.ReapOf(s.q, 0) == Q.Reap([row] + rest, false) && row < |s.q.deletes| && s.q.deletes[row] == MarkerIn(key, dir, id)
    ensures var e := Table(Q.ReapDelete(0, [Issued(row, key, dir).media], Q.Deleted200));
            && Enabled(s, e)
            && Next(s, e) == s.(q := s.q.(issued := s.q.issued + [Issued(row, key, dir)],
                                          reaps := s.q.reaps[0 := Q.Reap([row] + rest, true)]))
  {
  }

  lemma MarkerCleared(s: Store, row: nat, rest: seq<nat>)
    requires Q.ReapOf(s.q, 0) == Q.Reap([row] + rest, true) && row < |s.q.deletes|
    ensures Enabled(s, Table(Q.ReapMark(0)))
    ensures Next(s, Table(Q.ReapMark(0)))
            == s.(q := s.q.(deletes := MarkDeleted(s.q.deletes, row), reaps := s.q.reaps[0 := Q.Reap(rest, false)]))
  {
    assert ([row] + rest)[1..] == rest;
  }

  // The first marker that a reap is at, answered and cleared.
  lemma OneReaped(es: seq<Step>, s: Store, row: nat, rest: seq<nat>, key: Key, dir: string, id: nat)
    returns (es': seq<Step>, t: Store)
    requires Legal(EMPTY, es) && s == Run(EMPTY, es)
    requires Q.ReapOf(s.q, 0) == Q.Reap([row] + rest, false) && row < |s.q.deletes| && s.q.deletes[row] == MarkerIn(key, dir, id)
    ensures Legal(EMPTY, es') && t == Run(EMPTY, es')
    ensures t == s.(q := s.q.(issued := s.q.issued + [Issued(row, key, dir)], deletes := MarkDeleted(s.q.deletes, row),
                              reaps := s.q.reaps[0 := Q.Reap(rest, false)]))
  {
    DeleteSent(s, row, rest, key, dir, id);
    es', t := Further(es, s, Table(Q.ReapDelete(0, [Issued(row, key, dir).media], Q.Deleted200)));
    MarkerCleared(t, row, rest);
    es', t := Further(es', t, Table(Q.ReapMark(0)));
    assert t.q.reaps == s.q.reaps[0 := Q.Reap(rest, false)];
  }

  lemma BothDue(deletes: seq<DeleteRow>, rows: seq<Imported>, serial: string)
    requires |deletes| == 2 && DeleteDue(deletes[0], rows, serial) && DeleteDue(deletes[1], rows, serial)
    ensures DueDeletes(deletes, rows, serial, 0) == [0] + [1]
  {
    assert DueDeletes(deletes, rows, serial, 2) == [];
    assert DueDeletes(deletes, rows, serial, 1) == [1];
  }

  lemma BothQueried(s: Store, keyA: Key, keyB: Key, dirA: string, dirB: string)
    requires keyA.serial == keyB.serial && |s.q.imported| == 2
    requires s.q.deletes == [MarkerIn(keyA, dirA, 0), MarkerIn(keyB, dirB, 1)]
    requires s.q.imported[0].cloudStatus == s.q.imported[1].cloudStatus == StatusDone
    ensures var e := Table(Q.ReapQuery(0, keyA.serial));
            Enabled(s, e) && Next(s, e) == s.(q := s.q.(reaps := s.q.reaps[0 := Q.Reap([0] + [1], false)]))
  {
    BothDue(s.q.deletes, s.q.imported, keyA.serial);
  }

  lemma BothReaped(es: seq<Step>, s: Store, keyA: Key, keyB: Key, dirA: string, dirB: string)
    returns (es': seq<Step>, t: Store)
    requires Legal(EMPTY, es) && s == Run(EMPTY, es) && keyA.serial == keyB.serial
    requires s.q.deletes == [MarkerIn(keyA, dirA, 0), MarkerIn(keyB, dirB, 1)] && s.q.issued == [] && |s.q.imported| == 2
    requires s.q.imported[0].cloudStatus == s.q.imported[1].cloudStatus == StatusDone
    ensures Legal(EMPTY, es') && t == Run(EMPTY, es')
    ensures t.q.issued == [Issued(0, keyA, dirA), Issued(1, keyB, dirB)]
    ensures t.q.jobs == s.q.jobs && t.payload == s.payload && t.remote == s.remote
  {
    BothQueried(s, keyA, keyB, dirA, dirB);
    es', t := Further(es, s, Table(Q.ReapQuery(0, keyA.serial)));
    es', t := OneReaped(es', t, 0, [1], keyA, dirA, 0);
    assert Q.ReapOf(t.q, 0) == Q.Reap([1] + [], false);
    es', t := OneReaped(es', t, 1, [], keyB, dirB, 1);
  }

  /* ----- what a drain frees on the card ----- */

  // Step `e` removes a card file, of a job that was to upload that very file.
  predicate FreesItsSource(s: Store, e: Step) {
    && e.Free? && Enabled(s, e) && Removes(s, e)
    && s.freeing[e.p] < |s.payload| && s.freeing[e.p] < |s.sources|
    && s.sources[s.freeing[e.p]] == Some(s.payload[s.freeing[e.p]])
  }

  // A drain removes whatever lies at the job's card path when the upload has
  // ended; nothing checks that it is the file that was committed. If the
  // committed file was its card source, then what is removed equals the stored
  // object exactly when the card path still holds that source.
  lemma FreesTheUploadedFileIff(es: seq<Step>, e: Step)
    requires Legal(EMPTY, es) && NoClash(Run(EMPTY, es))
    requires FreesItsSource(Run(EMPTY, es), e)
    ensures var s := Run(EMPTY, es); var j := s.freeing[e.p]; var src := Target(s, j).value;
            && s.q.jobs[j].state == Done && PathOf(s, j) in s.remote
            && Next(s, e).freed == s.freed + [Freed(j, s.card[src])] && Next(s, e).card == s.card - {src}
            && (s.card[src] == s.remote[PathOf(s, j)] <==> Lookup(s.card, src) == s.sources[j])
  {
    StoreReachable(es);
    var s := Run(EMPTY, es);
    assert FreeingOk(s, e.p);
    NoClashStores(s);
    assert IsStored(s, s.freeing[e.p]);
  }

  // While no card is mounted that has something else at `src`, the path holds
  // what it held or nothing.
  lemma {:induction false} CardStays(s: Store, es: seq<Step>, src: string, b: Bytes)
    requires Legal(s, es) && (src in s.card ==> s.card[src] == b)
    requires forall k :: 0 <= k < |es| && es[k].CardChange? ==> Lookup(es[k].card, src) == Some(b)
    ensures src in Run(s, es).card ==> Run(s, es).card[src] == b
    decreases |es|
  {
    if es != [] {
      CardStays(Next(s, es[0]), es[1..], src, b);
    }
  }

  // So if the same card is in place from the commit of job `j` on, the file
  // removed is the source that was committed.
  lemma SameCardFreesTheSource(es: seq<Step>, commit: Step, more: seq<Step>, src: string)
    requires Legal(EMPTY, es) && commit.Record? && commit.spec.Some? && commit.spec.value.cardSrc == Some(src)
    requires Legal(Next(Run(EMPTY, es), commit), more) && src in Run(EMPTY, es).card
    requires forall k :: 0 <= k < |more| && more[k].CardChange? ==>
               Lookup(more[k].card, src) == Some(Run(EMPTY, es).card[src])
    ensures var t := Run(Next(Run(EMPTY, es), commit), more); var j := |Run(EMPTY, es).q.jobs|;
            && j < |t.q.jobs| && j < |t.sources| && Target(t, j) == Some(src)
            && (src in t.card ==> Some(t.card[src]) == t.sources[j])
  {
    var s0 := Run(EMPTY, es);
    StoreReachable(es);
    StoreKept(s0, commit);
    RecordedTables(s0, commit);
    RecordedBytes(s0, commit);
    var s := Next(s0, commit);
    StoreKeeps(s, more);
    assert Q.RowGrows(s.q.jobs[|s0.q.jobs|], Run(s, more).q.jobs[|s0.q.jobs|]);
    CardStays(s, more, src, s0.card[src]);
  }

  // A second card mounted at the same path before the upload ends: the drain
  // removes a file that was never uploaded.
  lemma SwappedCardLosesAFile(key: Key, dest: string, path: string, src: string, x: Bytes, y: Bytes)
    returns (es: seq<Step>)
    requires x != y
    ensures Legal(EMPTY, es)
    ensures var s := Run(EMPTY, es);
            && s.freed == [Freed(0, y)] && s.card == map[] && s.remote == map[path := x]
            && s.payload == [x] && s.sources == [Some(x)]
  {
    var s, t, more;
    es, s := CardSwapped(key, dest, path, src, x, y);
    StoreReachable(es);
    more, t := BothReady(s, 0, 0);
    NoNewSources(s, more);
    LegalJoin(EMPTY, es, more);
    UploadRuns(t, 0, 0, true);
    LegalJoin(EMPTY, es + more, UploadSteps(t, 0, 0, true));
    es := es + more + UploadSteps(t, 0, 0, true);
    assert t.card - {src} == map[];
  }

  lemma CardSwapped(key: Key, dest: string, path: string, src: string, x: Bytes, y: Bytes)
    returns (es: seq<Step>, s: Store)
    ensures Legal(EMPTY, es) && s == Run(EMPTY, es)
    ensures s.q.jobs == [NewJob(0, dest, Spec(path, |x|, Some(src)))] && s.payload == [x] && s.sources == [Some(x)]
    ensures s.card == map[src := y] && s.remote == map[] && s.freed == []
  {
    es, s := Further([], EMPTY, CardChange(map[src := x]));
    es, s := Further(es, s, Record(key, dest, None, Some(Spec(path, |x|, Some(src))), None, x));
    assert s.q.jobs == [NewJob(0, dest, Spec(path, |x|, Some(src)))];
    es, s := Further(es, s, CardChange(map[src := y]));
  }

  lemma {:induction false} NoNewSources(s: Store, es: seq<Step>)
    requires Legal(s, es) && NoRecords(es)
    ensures Run(s, es).sources == s.sources
    decreases |es|
  {
    if es != [] {
      NoNewSources(Next(s, es[0]), es[1..]);
    }
  }
}
