/** The cloud counters of the snapshot agree with the ledger, along every run. */
module CloudUi {
  import opened Wrappers
  import opened Tables
  import opened CloudQueue
  import A = AppStateModule

  // What the UI folds for one event of the queue, in the order of the ledger
  // writes: the events the offload and the drain emit, the reseed at startup,
  // and the refresh after a manual requeue.
  function Fold(ui: A.Snapshot, s: State, e: Event): A.Snapshot
    requires Enabled(s, e)
  {
    var t := Next(s, e);
    match e
    case Commit(_, dest, _, spec, _) => if spec.Some? then A.ApplyRun(ui, A.CloudQueued(dest)) else ui
    case StoreDone(p) => A.ApplyCloud(ui, A.Mirrored(s.jobs[At(s, p).stage.job].spec.remotePath))
    case Fail(p, j, error, _, _, _) =>
      if GivesUp(s, e) then A.ApplyCloud(ui, A.CloudFailed(s.jobs[j].spec.remotePath, error)) else ui
    case RequeueFailed => Refresh(ui, t)
    case StartupReclaim => Refresh(ui, t)
    case _ => ui
  }

  function Refresh(ui: A.Snapshot, t: State): A.Snapshot {
    ui.(cloud := ui.cloud.(pending := PendingCount(t.jobs), failed := FailedCount(t.jobs)))
  }

  function FoldAll(ui: A.Snapshot, s: State, es: seq<Event>): A.Snapshot
    requires Legal(s, es)
    decreases |es|
  {
    if es == [] then ui else FoldAll(Fold(ui, s, es[0]), Next(s, es[0]), es[1..])
  }

  predicate Agrees(ui: A.Snapshot, s: State) {
    ui.cloud.pending == PendingCount(s.jobs) && ui.cloud.failed == FailedCount(s.jobs)
  }

  lemma SameCounts(a: seq<Job>, b: seq<Job>)
    requires |a| == |b|
    requires forall i :: 0 <= i < |a| ==> Pending(a[i]) == Pending(b[i]) && GaveUp(a[i]) == GaveUp(b[i])
    ensures PendingCount(a) == PendingCount(b) && FailedCount(a) == FailedCount(b)
  {
    SumPointwise(a, b, IsPending);
    SumPointwise(a, b, IsGivenUp);
  }

  lemma SettleCounts(jobs: seq<Job>, id: nat, j: Job)
    requires id < |jobs| && Pending(jobs[id])
    ensures PendingCount(jobs[id := j]) + 1 == PendingCount(jobs) + One(Pending(j))
    ensures FailedCount(jobs[id := j]) == FailedCount(jobs) + One(GaveUp(j))
    ensures PendingCount(jobs) >= 1
  {
    SumUpdate(jobs, id, j, IsPending);
    SumUpdate(jobs, id, j, IsGivenUp);
    SumPositive(jobs, IsPending, id);
  }

  // Claims, progress writes and reclaims move no job in or out of a count.
  lemma QuietCounts(s: State, e: Event)
    requires Inv(s) && Enabled(s, e)
    requires !e.Commit? && !e.StoreDone? && !e.Fail? && !e.RequeueFailed?
    ensures PendingCount(Next(s, e).jobs) == PendingCount(s.jobs) && FailedCount(Next(s, e).jobs) == FailedCount(s.jobs)
  {
    SameCounts(s.jobs, Next(s, e).jobs);
  }

  // ... the writes that do are each folded with the same effect, and the
  // saturating subtraction never meets a zero.
  lemma AppendCounts(jobs: seq<Job>, job: Job)
    requires Pending(job)
    ensures PendingCount(jobs + [job]) == PendingCount(jobs) + 1 && FailedCount(jobs + [job]) == FailedCount(jobs)
  {
  }

  lemma QueuedAgrees(ui: A.Snapshot, s: State, e: Event)
    requires e.Commit? && Agrees(ui, s)
    ensures Agrees(Fold(ui, s, e), Next(s, e))
  {
    if e.spec.Some? {
      var job := NewJob(Upsert(s.imported, e.key, e.dest, e.hash).1, e.dest, e.spec.value);
      assert Next(s, e).jobs == s.jobs + [job];
      AppendCounts(s.jobs, job);
      assert Fold(ui, s, e).cloud == ui.cloud.(pending := ui.cloud.pending + 1, configured := true);
    } else {
      assert Next(s, e).jobs == s.jobs;
    }
  }

  lemma MirroredAgrees(ui: A.Snapshot, s: State, e: Event)
    requires e.StoreDone? && Enabled(s, e) && Agrees(ui, s) && PassOk(s.jobs, s.confirmed, At(s, e.p))
    ensures Agrees(Fold(ui, s, e), Next(s, e)) && ui.cloud.pending >= 1
  {
    var j := At(s, e.p).stage.job;
    SettleCounts(s.jobs, j, MarkDone(s.jobs, j)[j]);
  }

  lemma FailedAgrees(ui: A.Snapshot, s: State, e: Event)
    requires e.Fail? && Enabled(s, e) && Agrees(ui, s) && PassOk(s.jobs, s.confirmed, At(s, e.p))
    ensures Agrees(Fold(ui, s, e), Next(s, e)) && ui.cloud.pending >= 1
  {
    var j := e.job;
    var next := if GivesUp(s, e) then None else Some(e.next);
    SettleCounts(s.jobs, j, MarkFailed(s.jobs, j, e.error, next)[j]);
  }

  lemma {:induction false} FoldAgrees(ui: A.Snapshot, s: State, e: Event)
    requires Inv(s) && Enabled(s, e) && Agrees(ui, s)
    ensures Agrees(Fold(ui, s, e), Next(s, e))
    ensures e.StoreDone? || e.Fail? ==> ui.cloud.pending >= 1
  {
    if e.Commit? {
      QueuedAgrees(ui, s, e);
    } else if e.StoreDone? {
      MirroredAgrees(ui, s, e);
    } else if e.Fail? {
      FailedAgrees(ui, s, e);
    } else if e.RequeueFailed? {
      RequeueCounts(s.jobs);
    } else {
      QuietCounts(s, e);
    }
  }

  lemma {:induction false} UiFollowsLedger(ui: A.Snapshot, s: State, es: seq<Event>)
    requires Inv(s) && Agrees(ui, s) && Legal(s, es)
    ensures Agrees(FoldAll(ui, s, es), Run(s, es))
    decreases |es|
  {
    if es != [] {
      FoldAgrees(ui, s, es[0]);
      Kept(s, es[0]);
      UiFollowsLedger(Fold(ui, s, es[0]), Next(s, es[0]), es[1..]);
    }
  }

  lemma UiAgreesFromStart(es: seq<Event>)
    requires Legal(INIT, es)
    ensures Agrees(FoldAll(A.BLANK, INIT, es), Run(INIT, es))
  {
    UiFollowsLedger(A.BLANK, INIT, es);
  }

  // The order matters. If the Mirrored of a job is folded before its own
  // CloudQueued, the count ends up wrong exactly when nothing else is pending:
  // the subtraction saturates and the job is shown as pending for good.
  lemma {:induction false} LateQueuedDrifts(ui: A.Snapshot, file: string)
    ensures A.ApplyCloud(A.ApplyRun(ui, A.CloudQueued(file)), A.Mirrored(file)).cloud.pending == ui.cloud.pending
    ensures A.ApplyRun(A.ApplyCloud(ui, A.Mirrored(file)), A.CloudQueued(file)).cloud.pending == ui.cloud.pending
            <==> ui.cloud.pending >= 1
  {
  }
}
