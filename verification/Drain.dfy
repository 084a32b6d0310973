/**
  One drain of the cloud queue (worker.rs) against a server, a mounted card that
  anyone may swap, and a clock that only moves forward: it terminates, how much it
  uploads is bounded by the attempts that are left, and all it does to tables,
  server and card is a history of the shared queue.
 */
module Drain {
  import opened Wrappers
  import opened Tables
  import opened Storage
  import opened LedgerModule
  import opened Backoff
  import opened QueueSteps
  import S = CloudStore
  import Q = CloudQueue
  import StoreSafety
  import CloudUi
  import A = AppStateModule

  class Clock {
    var now: int
    var ticks: seq<nat> // what passes before each of the next readings, then anything

    constructor (start: int, ticks: seq<nat>)
      ensures now == start && this.ticks == ticks
    {
      now, this.ticks := start, ticks;
    }

    method Read() returns (t: int)
      modifies this
      ensures t == now >= old(now)
      ensures if old(ticks) == [] then ticks == [] else now == old(now) + old(ticks)[0] && ticks == old(ticks)[1..]
    {
      if ticks == [] {
        var passed: int := *;
        now := if passed > 0 then now + passed else now;
      } else {
        now, ticks := now + ticks[0], ticks[1..];
      }
      t := now;
    }

    method Sleep(secs: nat)
      modifies this
      ensures now >= old(now) + secs
    {
      var over: int := *;
      now := now + secs + if over > 0 then over else 0;
    }
  }

  // The server, and the local files to be sent to it.
  class Uploader {
    const local: map<string, Bytes>
    var remote: map<string, Bytes>
    var log: seq<nat>           // the jobs attempted, in order
    ghost var landed: set<nat>  // those whose transfer was reported as done

    constructor (local: map<string, Bytes>, remote: map<string, Bytes>)
      ensures this.local == local && this.remote == remote && log == [] && landed == {}
    {
      this.local, this.remote, log, landed := local, remote, [], {};
    }

    // The pre-flight check, which skips the transfer if and only if an object of
    // the job's size lies at its path, then the transfer. The check may go
    // unanswered, the local file may be unreadable, and a transfer may fail
    // before or after the server has stored the file.
    method Attempt(id: nat, job: Job) returns (r: UploadResult, ghost t: Try)
      modifies this
      ensures TryOk(t, r, old(remote), job.spec)
      ensures t.looked && S.Present(old(remote), job.spec) ==> r.AlreadyPresent?
      ensures t.sent ==> job.localPath in local
      ensures remote == if t.sent then old(remote)[job.spec.remotePath := local[job.localPath]] else old(remote)
      ensures log == old(log) + [id]
      ensures landed == if r.Landed? then old(landed) + {id} else old(landed)
    {
      log := log + [id];
      var answers, stored, fine, retryable: bool := *, *, *, *;
      r, t := Refused("upload failed", retryable), Try(answers, false);
      if answers {
        if S.Present(remote, job.spec) {
          r := AlreadyPresent;
        } else if stored && job.localPath in local {
          t := Try(true, true);
          remote := remote[job.spec.remotePath := local[job.localPath]];
          if fine {
            r, landed := Landed, landed + {id};
          }
        }
      }
    }
  }

  // What the UI hears of the attempt to free the card file.
  function CleanupEvent(f: Freeing, r: UploadResult, spec: JobSpec): A.CloudEvent
    requires spec.cardSrc.Some?
  {
    if Removal(f, r, spec) then A.Freed(spec.cardSrc.value)
    else A.FreeFailed(spec.cardSrc.value, "post-upload delete failed")
  }

  // Every local file that is there holds what was committed under its job.
  predicate LocalOk(local: map<string, Bytes>, jobs: seq<Job>, payload: seq<Bytes>) {
    |payload| == |jobs| && forall j :: 0 <= j < |jobs| && jobs[j].localPath in local ==> local[jobs[j].localPath] == payload[j]
  }

  /* ----- the termination measure ----- */

  // Uploads a job may still cost: at least one while it is pending.
  function Weight(maxAttempts: nat): Job -> nat {
    (j: Job) => if !Pending(j) then 0 else if j.attempts + 1 < maxAttempts then maxAttempts - j.attempts else 1
  }

  function Budget(jobs: seq<Job>, maxAttempts: nat): nat {
    Sum(jobs, Weight(maxAttempts))
  }

  // Parked for a retry that is still in the future.
  function Parked(now: int): Job -> nat {
    (j: Job) => One(j.state == Failed && j.nextRetry.Some? && j.nextRetry.value > now)
  }

  lemma {:induction false} ParkedFalls(jobs: seq<Job>, now: int, later: int)
    requires now <= later
    ensures Sum(jobs, Parked(later)) <= Sum(jobs, Parked(now))
    ensures (exists i :: 0 <= i < |jobs| && Parked(now)(jobs[i]) == 1 && Parked(later)(jobs[i]) == 0) ==>
              Sum(jobs, Parked(later)) < Sum(jobs, Parked(now))
  {
    if jobs != [] {
      ParkedFalls(jobs[..|jobs| - 1], now, later);
      if i :| 0 <= i < |jobs| && Parked(now)(jobs[i]) == 1 && Parked(later)(jobs[i]) == 0 {
        if i < |jobs| - 1 {
          assert jobs[..|jobs| - 1][i] == jobs[i];
        }
      }
    }
  }

  predicate NoneParked(jobs: seq<Job>, now: int) {
    forall i :: 0 <= i < |jobs| ==> Parked(now)(jobs[i]) == 0
  }

  predicate SomeDue(jobs: seq<Job>, now: int) {
    exists i :: 0 <= i < |jobs| && Due(jobs[i], now)
  }

  predicate NoneUploading(jobs: seq<Job>) {
    forall i :: 0 <= i < |jobs| ==> jobs[i].state != Uploading
  }

  // No pass touches a finished job or the identity of any job.
  predicate Preserves(a: seq<Job>, b: seq<Job>) {
    && |a| == |b|
    && (forall i :: 0 <= i < |a| ==> b[i].importedId == a[i].importedId && b[i].spec == a[i].spec && b[i].localPath == a[i].localPath)
    && (forall i :: 0 <= i < |a| && !Pending(a[i]) ==> b[i] == a[i])
  }

  // In the middle of a pass: `left` is still uploading, everything else is not.
  predicate MidPass(before: seq<Job>, rows: seq<Job>, claimed: map<nat, Job>, left: set<nat>) {
    && Preserves(before, rows)
    && left <= claimed.Keys
    && (forall id :: id in left ==>
          id < |rows| && Pending(before[id]) && claimed[id] == rows[id] && rows[id].state == Uploading)
    && (forall i :: 0 <= i < |rows| && rows[i].state == Uploading ==> i in left)
  }

  // What has been freed since the start: card files of jobs that are Done and
  // whose transfer was reported as done.
  predicate FreedFits(rows: seq<Job>, freed: seq<S.Freed>, from: nat, landed: set<nat>) {
    && from <= |freed|
    && forall k :: from <= k < |freed| ==>
         && freed[k].job < |rows| && rows[freed[k].job].state == Done && rows[freed[k].job].spec.cardSrc.Some?
         && freed[k].job in landed
  }

  predicate Ascending(ids: seq<nat>) {
    forall k, l :: 0 <= k < l < |ids| ==> ids[k] < ids[l]
  }

  lemma {:induction false} IdsCount(ids: seq<nat>, all: set<nat>)
    requires Ascending(ids) && forall x :: x in all <==> x in ids
    ensures |all| == |ids|
  {
    if ids != [] {
      var last := ids[|ids| - 1];
      var init := ids[..|ids| - 1];
      assert ids == init + [last];
      assert last !in init;
      IdsCount(init, all - {last});
    } else {
      assert all == {};
    }
  }

  lemma FreedGrows(rows: seq<Job>, after: seq<Job>, freed: seq<S.Freed>, freed': seq<S.Freed>, from: nat, landed: set<nat>,
                   landed': set<nat>, id: nat)
    requires FreedFits(rows, freed, from, landed) && landed <= landed' && |after| == |rows|
    requires id < |rows| && rows[id].state == Uploading
    requires forall i :: 0 <= i < |rows| && i != id ==> after[i] == rows[i]
    requires freed' == freed
             || (exists b :: freed' == freed + [S.Freed(id, b)] && after[id].state == Done && after[id].spec.cardSrc.Some?
                             && id in landed')
    ensures FreedFits(after, freed', from, landed')
  {
  }

  lemma ClaimStartsPass(before: seq<Job>, ids: seq<nat>, now: int, claimed: map<nat, Job>)
    requires NoneUploading(before)
    requires forall k :: 0 <= k < |ids| ==> ids[k] < |before| && Due(before[ids[k]], now)
    requires claimed.Keys == set id | id in ids
    requires forall id :: id in ids ==> claimed[id] == before[id].(state := Uploading)
    ensures MidPass(before, ClaimRows(before, ids), claimed, claimed.Keys)
  {
  }

  lemma FinishKeepsPass(before: seq<Job>, rows: seq<Job>, after: seq<Job>, claimed: map<nat, Job>, left: set<nat>, id: nat)
    requires MidPass(before, rows, claimed, left) && id in left && |after| == |rows|
    requires forall i :: 0 <= i < |rows| && i != id ==> after[i] == rows[i]
    requires after[id].importedId == rows[id].importedId && after[id].spec == rows[id].spec
    requires after[id].localPath == rows[id].localPath && after[id].state != Uploading
    ensures MidPass(before, after, claimed, left - {id})
  {
  }

  lemma ClaimKeepsBudget(jobs: seq<Job>, ids: seq<nat>, now: int, maxAttempts: nat)
    requires forall k :: 0 <= k < |ids| ==> ids[k] < |jobs| && Due(jobs[ids[k]], now)
    ensures Budget(ClaimRows(jobs, ids), maxAttempts) == Budget(jobs, maxAttempts)
    ensures PendingCount(ClaimRows(jobs, ids)) == PendingCount(jobs)
  {
    SumPointwise(jobs, ClaimRows(jobs, ids), IsPending);
    SumPointwise(jobs, ClaimRows(jobs, ids), Weight(maxAttempts));
  }

  lemma ReclaimKeepsBudget(jobs: seq<Job>, maxAttempts: nat)
    ensures Budget(Reclaim(jobs), maxAttempts) == Budget(jobs, maxAttempts)
  {
    SumPointwise(jobs, Reclaim(jobs), Weight(maxAttempts));
  }

  // What recording a result does: the job leaves the queue unless it is to be
  // retried, and either way it has one upload less to cost.
  lemma SettledFacts(jobs: seq<Job>, id: nat, r: UploadResult, maxAttempts: nat, next: int)
    requires id < |jobs| && Pending(jobs[id])
    ensures var after := SettledJobs(jobs, id, r, maxAttempts, next);
            && |after| == |jobs| && (forall i :: 0 <= i < |jobs| && i != id ==> after[i] == jobs[i])
            && after[id].importedId == jobs[id].importedId && after[id].spec == jobs[id].spec
            && after[id].localPath == jobs[id].localPath
            && after[id].state == (if r.Refused? then Failed else Done)
            && (Pending(after[id]) <==> Retries(jobs[id], r, maxAttempts))
            && Budget(after, maxAttempts) < Budget(jobs, maxAttempts)
            && PendingCount(after) + One(!Pending(after[id])) == PendingCount(jobs)
  {
    var after := SettledJobs(jobs, id, r, maxAttempts, next);
    assert after == jobs[id := after[id]];
    SumUpdate(jobs, id, after[id], Weight(maxAttempts));
    SumUpdate(jobs, id, after[id], IsPending);
  }

  // The status and the event that go with a job that has left the queue.
  function StatusFor(j: Job): CloudStatus {
    if j.state == Done then StatusDone else StatusFailed
  }

  function Announced(j: Job): A.CloudEvent {
    if j.state == Done then A.Mirrored(j.spec.remotePath)
    else A.CloudFailed(j.spec.remotePath, if j.lastError.Some? then j.lastError.value else "")
  }

  lemma AnnouncedIs(jobs: seq<Job>, id: nat, r: UploadResult, maxAttempts: nat, next: int)
    requires id < |jobs|
    ensures Announced(SettledJobs(jobs, id, r, maxAttempts, next)[id])
            == if r.Refused? then A.CloudFailed(jobs[id].spec.remotePath, r.error) else A.Mirrored(jobs[id].spec.remotePath)
  {
  }

  // The event sent for a result is what the UI is assumed to fold for the
  // statements that record it, so CloudUi speaks of the events really sent.
  lemma SettledEventFolds(ui: A.Snapshot, h: Story, db: Db, out: Outside, claimed: map<nat, Job>, left: set<nat>, id: nat,
                          r: UploadResult, t: Try, f: Freeing, maxAttempts: nat, next: int)
    requires TellsPass(h, db, out, claimed, left)
    requires id in left && left <= claimed.Keys && id < |db.jobs| && claimed[id].attempts == db.jobs[id].attempts
    requires TryOk(t, r, out.remote, db.jobs[id].spec)
    ensures var steps := UploadEvents(h.p, id, db.jobs[id], r, t, f, maxAttempts, next);
            var s, es := Final(h).q, S.Statements(steps);
            && Q.Legal(s, es)
            && CloudUi.FoldAll(ui, s, es) == if Retries(db.jobs[id], r, maxAttempts) then ui
                                             else A.ApplyCloud(ui, Announced(SettledJobs(db.jobs, id, r, maxAttempts, next)[id]))
  {
    var steps := UploadEvents(h.p, id, db.jobs[id], r, t, f, maxAttempts, next);
    SettleStep(h, db, out, claimed, left, id, r, t, f, maxAttempts, next);
    S.LegalSplit(h.s0, h.es, steps);
    S.TablesFollowQueue(Final(h), steps);
    UploadStatements(h.p, id, db.jobs[id], r, t, f, maxAttempts, next);
    FoldsOnce(ui, Final(h).q, h.p, id, r, maxAttempts, next);
    AnnouncedIs(db.jobs, id, r, maxAttempts, next);
  }

  lemma FoldsOnce(ui: A.Snapshot, s: Q.State, p: nat, id: nat, r: UploadResult, maxAttempts: nat, next: int)
    requires id < |s.jobs| && Q.At(s, p).Passing? && id in Q.At(s, p).inFlight
    requires Q.At(s, p).inFlight[id] == s.jobs[id].attempts
    requires Q.Legal(s, SettleEvents(p, id, s.jobs[id], r, maxAttempts, next))
    ensures CloudUi.FoldAll(ui, s, SettleEvents(p, id, s.jobs[id], r, maxAttempts, next)) ==
            if Retries(s.jobs[id], r, maxAttempts) then ui
            else A.ApplyCloud(ui, if r.Refused? then A.CloudFailed(s.jobs[id].spec.remotePath, r.error)
                                  else A.Mirrored(s.jobs[id].spec.remotePath))
  {
    var es := SettleEvents(p, id, s.jobs[id], r, maxAttempts, next);
    match r {
      case AlreadyPresent => FoldsDone(ui, Q.Next(s, es[0]), p, id, es[1..]);
      case Landed =>
        var s1 := Q.Next(s, es[0]);
        assert es[1..][1..] == [Q.StoreDone(p), Q.StampDone(p)];
        assert CloudUi.FoldAll(ui, s, es) == CloudUi.FoldAll(ui, s1, es[1..]);
        FoldsDone(ui, Q.Next(s1, es[1]), p, id, es[1..][1..]);
      case Refused(_, _) => FoldsFailure(ui, s, p, id, r, maxAttempts, next);
    }
  }

  // Storing Done is what the UI hears of; the stamp is silent.
  lemma FoldsDone(ui: A.Snapshot, s: Q.State, p: nat, id: nat, es: seq<Q.Event>)
    requires es == [Q.StoreDone(p), Q.StampDone(p)] && Q.Legal(s, es)
    requires Q.At(s, p).Passing? && Q.At(s, p).stage == Q.Confirmed(id) && id < |s.jobs|
    ensures CloudUi.FoldAll(ui, s, es) == A.ApplyCloud(ui, A.Mirrored(s.jobs[id].spec.remotePath))
  {
    var s1, u1 := Q.Next(s, es[0]), CloudUi.Fold(ui, s, es[0]);
    assert es[1..][1..] == [];
    assert CloudUi.FoldAll(ui, s, es) == CloudUi.FoldAll(u1, s1, es[1..]);
    assert CloudUi.FoldAll(u1, s1, es[1..]) == CloudUi.Fold(u1, s1, es[1..][0]);
  }

  lemma FoldsFailure(ui: A.Snapshot, s: Q.State, p: nat, id: nat, r: UploadResult, maxAttempts: nat, next: int)
    requires id < |s.jobs| && Q.At(s, p).Passing? && id in Q.At(s, p).inFlight && r.Refused?
    requires Q.At(s, p).inFlight[id] == s.jobs[id].attempts
    requires Q.Legal(s, SettleEvents(p, id, s.jobs[id], r, maxAttempts, next))
    ensures CloudUi.FoldAll(ui, s, SettleEvents(p, id, s.jobs[id], r, maxAttempts, next)) ==
            if Retries(s.jobs[id], r, maxAttempts) then ui
            else A.ApplyCloud(ui, A.CloudFailed(s.jobs[id].spec.remotePath, r.error))
  {
    var es := SettleEvents(p, id, s.jobs[id], r, maxAttempts, next);
    assert es[1..] == if Retries(s.jobs[id], r, maxAttempts) then [] else [Q.StampFailed(p)];
    var s1, u1 := Q.Next(s, es[0]), CloudUi.Fold(ui, s, es[0]);
    assert CloudUi.FoldAll(ui, s, es) == CloudUi.FoldAll(u1, s1, es[1..]);
    if es[1..] != [] {
      assert es[1..][1..] == [];
      assert CloudUi.FoldAll(u1, s1, es[1..]) == CloudUi.Fold(u1, s1, es[1..][0]);
    }
  }

  // Nothing but the status of an imported row changes, and a changed status is
  // that of a finished job of the row.
  ghost predicate StatusBacked(before: seq<Imported>, rows: seq<Imported>, jobs: seq<Job>) {
    && |rows| == |before|
    && forall i :: 0 <= i < |rows| ==>
         rows[i] == before[i]
         || exists j :: 0 <= j < |jobs| && jobs[j].importedId == i && !Pending(jobs[j])
                        && rows[i] == before[i].(cloudStatus := StatusFor(jobs[j]))
  }

  lemma StatusStep(before: seq<Imported>, rows: seq<Imported>, rows': seq<Imported>, jobs: seq<Job>, jobs': seq<Job>, id: nat)
    requires StatusBacked(before, rows, jobs) && id < |jobs| == |jobs'| && Pending(jobs[id])
    requires forall i :: 0 <= i < |jobs| && i != id ==> jobs'[i] == jobs[i]
    requires rows' == if Pending(jobs'[id]) then rows else SetStatus(rows, jobs'[id].importedId, StatusFor(jobs'[id]))
    ensures StatusBacked(before, rows', jobs')
  {
  }

  // Statuses stay backed while unfinished jobs come and go.
  lemma StatusKept(before: seq<Imported>, rows: seq<Imported>, jobs: seq<Job>, jobs': seq<Job>)
    requires StatusBacked(before, rows, jobs) && |jobs| == |jobs'|
    requires forall i :: 0 <= i < |jobs| && !Pending(jobs[i]) ==> jobs'[i] == jobs[i]
    ensures StatusBacked(before, rows, jobs')
  {
  }

  function WithLanded(landed: set<nat>, id: nat, r: UploadResult): set<nat> {
    if r.Landed? then landed + {id} else landed
  }

  // Where a pass starts from: the job table, the imported rows as the drain found
  // them, how much had been freed, and the local files.
  datatype Start = Start(jobs: seq<Job>, imported: seq<Imported>, freed: nat, local: map<string, Bytes>)

  // All that holds while results are being joined.
  ghost predicate InPass(start: Start, db: Db, out: Outside, claimed: map<nat, Job>, left: set<nat>, landed: set<nat>, h: Story) {
    && MidPass(start.jobs, db.jobs, claimed, left)
    && FreedFits(db.jobs, out.freed, start.freed, landed)
    && StatusBacked(start.imported, db.imported, db.jobs)
    && LocalOk(start.local, db.jobs, out.payload)
    && TellsPass(h, db, out, claimed, left)
  }

  lemma PassEntry(start: Start, db: Db, out: Outside, claimed: map<nat, Job>, left: set<nat>, landed: set<nat>, h: Story,
                  id: nat)
    requires InPass(start, db, out, claimed, left, landed, h) && id in left
    ensures id < |db.jobs| && id in claimed && claimed[id] == db.jobs[id]
    ensures left - {id} < left && |left - {id}| == |left| - 1
    ensures id < |out.payload| && (db.jobs[id].localPath in start.local ==> start.local[db.jobs[id].localPath] == out.payload[id])
  {
  }

  lemma PassStep(start: Start, db: Db, out: Outside, claimed: map<nat, Job>, left: set<nat>, landed: set<nat>, h: Story,
                 id: nat, r: UploadResult, t: Try, f: Freeing, maxAttempts: nat, next: int)
    requires InPass(start, db, out, claimed, left, landed, h) && id in left && id < |db.jobs|
    requires TryOk(t, r, out.remote, db.jobs[id].spec)
    ensures InPass(start,
                   Db(SettledRows(db.imported, db.jobs[id], r, maxAttempts),
                      SettledJobs(db.jobs, id, r, maxAttempts, next), db.deletes),
                   SettledOutside(out, t, f, id, r, db.jobs[id].spec), claimed, left - {id}, WithLanded(landed, id, r),
                   Then(h, UploadEvents(h.p, id, db.jobs[id], r, t, f, maxAttempts, next)))
  {
    var after, stamped := SettledJobs(db.jobs, id, r, maxAttempts, next), SettledRows(db.imported, db.jobs[id], r, maxAttempts);
    SettleStep(h, db, out, claimed, left, id, r, t, f, maxAttempts, next);
    SettledFacts(db.jobs, id, r, maxAttempts, next);
    StatusStep(start.imported, db.imported, stamped, db.jobs, after, id);
    FinishKeepsPass(start.jobs, db.jobs, after, claimed, left, id);
    FreedGrows(db.jobs, after, out.freed, SettledOutside(out, t, f, id, r, db.jobs[id].spec).freed, start.freed, landed,
               WithLanded(landed, id, r), id);
  }

  /* ----- the results of one pass ----- */

  // What a drain works on, as values, and how it is set up.
  datatype Scene = Scene(db: Db, remote: map<string, Bytes>, card: map<string, Bytes>)

  datatype Setup = Setup(maxConcurrency: nat, maxAttempts: nat, deleteAfterVerify: bool)

  // One finished upload: the job, its result, what the upload did, what was done at
  // the card, and the retry time if one was set.
  datatype Joined = Joined(id: nat, r: UploadResult, t: Try, f: Freeing, next: int)

  predicate JoinFits(su: Setup, sc: Scene, local: map<string, Bytes>, j: Joined) {
    && j.id < |sc.db.jobs| && j.f.wish == su.deleteAfterVerify
    && TryOk(j.t, j.r, sc.remote, sc.db.jobs[j.id].spec)
    && (j.t.sent ==> sc.db.jobs[j.id].localPath in local)
  }

  // Recording it, on tables, server and card.
  function Settled(su: Setup, sc: Scene, local: map<string, Bytes>, j: Joined): Scene
    requires JoinFits(su, sc, local, j)
  {
    var job := sc.db.jobs[j.id];
    Scene(Db(SettledRows(sc.db.imported, job, j.r, su.maxAttempts),
             SettledJobs(sc.db.jobs, j.id, j.r, su.maxAttempts, j.next), sc.db.deletes),
          if j.t.sent then sc.remote[job.spec.remotePath := local[job.localPath]] else sc.remote,
          if Removal(j.f, j.r, job.spec) then j.f.mounted - {job.spec.cardSrc.value} else j.f.mounted)
  }

  function Ids(js: seq<Joined>): seq<nat> {
    if js == [] then [] else Ids(js[..|js| - 1]) + [js[|js| - 1].id]
  }

  // The results of a pass, in the order in which they came in: each job of
  // `claimed` at most once.
  predicate Joinable(su: Setup, sc: Scene, local: map<string, Bytes>, claimed: set<nat>, js: seq<Joined>)
    decreases |js|, 0
  {
    js == []
    || var n := |js| - 1;
       Joinable(su, sc, local, claimed, js[..n])
       && js[n].id in claimed && js[n].id !in Ids(js[..n])
       && JoinFits(su, SettledAll(su, sc, local, claimed, js[..n]), local, js[n])
  }

  function SettledAll(su: Setup, sc: Scene, local: map<string, Bytes>, claimed: set<nat>, js: seq<Joined>): Scene
    requires Joinable(su, sc, local, claimed, js)
    decreases |js|, 1
  {
    if js == [] then sc
    else Settled(su, SettledAll(su, sc, local, claimed, js[..|js| - 1]), local, js[|js| - 1])
  }

  // How many jobs have left the queue.
  function Terminal(su: Setup, claimed: map<nat, Job>, js: seq<Joined>): nat {
    if js == [] then 0
    else
      var j := js[|js| - 1];
      Terminal(su, claimed, js[..|js| - 1]) + One(j.id in claimed && !Retries(claimed[j.id], j.r, su.maxAttempts))
  }

  function LandedIn(landed: set<nat>, js: seq<Joined>): set<nat> {
    if js == [] then landed else WithLanded(LandedIn(landed, js[..|js| - 1]), js[|js| - 1].id, js[|js| - 1].r)
  }

  lemma JoinOneMore(su: Setup, sc: Scene, local: map<string, Bytes>, claimed: map<nat, Job>, js: seq<Joined>, j: Joined,
                   landed: set<nat>)
    requires Joinable(su, sc, local, claimed.Keys, js) && j.id in claimed && j.id !in Ids(js)
    requires JoinFits(su, SettledAll(su, sc, local, claimed.Keys, js), local, j)
    ensures Joinable(su, sc, local, claimed.Keys, js + [j]) && Ids(js + [j]) == Ids(js) + [j.id]
    ensures SettledAll(su, sc, local, claimed.Keys, js + [j]) == Settled(su, SettledAll(su, sc, local, claimed.Keys, js), local, j)
    ensures Terminal(su, claimed, js + [j]) == Terminal(su, claimed, js) + One(!Retries(claimed[j.id], j.r, su.maxAttempts))
    ensures LandedIn(landed, js + [j]) == WithLanded(LandedIn(landed, js), j.id, j.r)
  {
    assert (js + [j])[..|js|] == js;
  }

  // The join loop so far: the jobs of `left` are still to be recorded, and their
  // rows stand as claimed.
  ghost predicate JoinedSoFar(su: Setup, sc0: Scene, sc: Scene, local: map<string, Bytes>, claimed: map<nat, Job>,
                              left: set<nat>, js: seq<Joined>, terminal: nat) {
    && Joinable(su, sc0, local, claimed.Keys, js) && sc == SettledAll(su, sc0, local, claimed.Keys, js)
    && (forall id :: id in left <==> id in claimed && id !in Ids(js))
    && (forall id :: id in left ==> id < |sc.db.jobs| && sc.db.jobs[id] == claimed[id])
    && terminal == Terminal(su, claimed, js)
  }

  lemma JoinsFurther(su: Setup, sc0: Scene, sc: Scene, sc': Scene, local: map<string, Bytes>, claimed: map<nat, Job>,
                     left: set<nat>, js: seq<Joined>, j: Joined, terminal: nat, landed: set<nat>)
    requires JoinedSoFar(su, sc0, sc, local, claimed, left, js, terminal) && j.id in left
    requires JoinFits(su, sc, local, j) && sc' == Settled(su, sc, local, j)
    ensures JoinedSoFar(su, sc0, sc', local, claimed, left - {j.id}, js + [j],
                        terminal + One(!Retries(claimed[j.id], j.r, su.maxAttempts)))
    ensures Ids(js + [j]) == Ids(js) + [j.id]
    ensures LandedIn(landed, js + [j]) == WithLanded(LandedIn(landed, js), j.id, j.r)
  {
    JoinOneMore(su, sc0, local, claimed, js, j, landed);
  }

  // The story `h` has led to these tables, server and card, with the drain at `w`;
  // the local files are those that were committed.
  ghost predicate SeesAt(h: Story, sc: Scene, local: map<string, Bytes>, w: Q.Worker) {
    && Lawful(h) && Tells(h, sc.db, Outside(sc.remote, sc.card, Final(h).payload, Final(h).freed), w)
    && LocalOk(local, sc.db.jobs, Final(h).payload)
  }

  // Where the story stands after some results: everything the join loop keeps.
  lemma {:induction false} JoinedAll(su: Setup, start: Start, db: Db, out: Outside, claimed: map<nat, Job>, landed: set<nat>,
                                     h: Story, js: seq<Joined>)
    returns (out': Outside, left: set<nat>, h': Story)
    requires InPass(start, db, out, claimed, claimed.Keys, landed, h)
    requires Joinable(su, Scene(db, out.remote, out.card), start.local, claimed.Keys, js)
    ensures var sc := SettledAll(su, Scene(db, out.remote, out.card), start.local, claimed.Keys, js);
            && sc == Scene(sc.db, out'.remote, out'.card)
            && InPass(start, sc.db, out', claimed, left, LandedIn(landed, js), h')
    ensures (forall x :: x in left <==> x in claimed && x !in Ids(js)) && Continues(h, h') && out'.payload == out.payload
    ensures !su.deleteAfterVerify ==> out'.freed == out.freed
    decreases |js|
  {
    if js == [] {
      out', left, h' := out, claimed.Keys, h;
    } else {
      var init, j := js[..|js| - 1], js[|js| - 1];
      var sc0 := Scene(db, out.remote, out.card);
      var out1, left1, h1 := JoinedAll(su, start, db, out, claimed, landed, h, init);
      var sc := SettledAll(su, sc0, start.local, claimed.Keys, init);
      PassEntry(start, sc.db, out1, claimed, left1, LandedIn(landed, init), h1, j.id);
      PassStep(start, sc.db, out1, claimed, left1, LandedIn(landed, init), h1, j.id, j.r, j.t, j.f, su.maxAttempts, j.next);
      out' := SettledOutside(out1, j.t, j.f, j.id, j.r, sc.db.jobs[j.id].spec);
      left := left1 - {j.id};
      var steps := UploadEvents(h.p, j.id, sc.db.jobs[j.id], j.r, j.t, j.f, su.maxAttempts, j.next);
      h' := Then(h1, steps);
      ContinuesFurther(h, h1, steps);
    }
  }

  // A whole pass that has claimed something and joined all of it.
  lemma PassDone(su: Setup, start: Start, db: Db, out: Outside, ids: seq<nat>, claimed: map<nat, Job>, landed: set<nat>,
                 h: Story, js: seq<Joined>)
    returns (h': Story)
    requires InPass(start, db, out, claimed, claimed.Keys, landed, h)
    requires Joinable(su, Scene(db, out.remote, out.card), start.local, claimed.Keys, js)
    requires forall id :: id in claimed ==> id in Ids(js)
    ensures var sc := SettledAll(su, Scene(db, out.remote, out.card), start.local, claimed.Keys, js);
            && Continues(h, h') && SeesAt(h', sc, start.local, Q.Draining)
            && StatusBacked(start.imported, sc.db.imported, sc.db.jobs)
            && FreedFits(sc.db.jobs, Final(h').freed, start.freed, LandedIn(landed, js))
            && (!su.deleteAfterVerify ==> Final(h').freed == out.freed)
  {
    var out', left, h1 := JoinedAll(su, start, db, out, claimed, landed, h, js);
    assert left == {};
    var sc := SettledAll(su, Scene(db, out.remote, out.card), start.local, claimed.Keys, js);
    EndStep(h1, sc.db, out', claimed);
    ContinuesFurther(h, h1, [S.Table(Q.EndPass(h.p))]);
    h' := Then(h1, [S.Table(Q.EndPass(h.p))]);
  }

  // As many results as jobs: `all` holds those that have been joined.
  lemma {:induction false} IdsDistinct(su: Setup, sc: Scene, local: map<string, Bytes>, claimed: set<nat>, js: seq<Joined>,
                                       all: set<nat>)
    requires Joinable(su, sc, local, claimed, js) && forall id :: id in all <==> id in Ids(js)
    ensures |Ids(js)| == |js| == |all|
    ensures forall id :: id in Ids(js) ==> id in claimed
    decreases |js|
  {
    if js == [] {
      assert all == {};
    } else {
      var init, last := js[..|js| - 1], js[|js| - 1].id;
      IdsDistinct(su, sc, local, claimed, init, all - {last});
    }
  }

  /* ----- the idle backstop ----- */

  // One turn of the drain loop: the two clock readings, what the pass did, and
  // the job table after it.
  datatype Turned = Turned(now: int, finished: nat, terminal: nat, jobs: seq<Job>, after: int)

  predicate AllPendingDue(jobs: seq<Job>, now: int) {
    forall i :: 0 <= i < |jobs| && Pending(jobs[i]) ==> Due(jobs[i], now)
  }

  // What sends the drain into the backstop: no job left the queue in the pass,
  // and by the second reading every job still pending is due.
  predicate BacksOff(t: Turned) {
    t.terminal == 0 && AllPendingDue(t.jobs, t.after)
  }

  // "No retry is scheduled" is not "nothing is claimable": it means that all of
  // it is.
  lemma {:induction false} NoneParkedIffAllDue(jobs: seq<Job>, now: int)
    requires NoneUploading(jobs)
    ensures NoneParked(jobs, now) <==> AllPendingDue(jobs, now)
  {
    if NoneParked(jobs, now) {
      forall i | 0 <= i < |jobs| && Pending(jobs[i]) ensures Due(jobs[i], now) {
        assert Parked(now)(jobs[i]) == 0;
      }
    } else {
      var i :| 0 <= i < |jobs| && Parked(now)(jobs[i]) != 0;
      assert Pending(jobs[i]) && !Due(jobs[i], now);
    }
  }

  // The first turn, as far as clock and queue determine it.
  predicate FirstTurn(jobs: seq<Job>, start: int, ticks: seq<nat>, limit: nat, t: Turned) {
    && (|ticks| >= 2 ==> t.now == start + ticks[0])
    && (DueIds(jobs, 0, t.now, limit) == [] ==>
          t.finished == 0 && t.terminal == 0 && t.jobs == jobs && (|ticks| >= 2 ==> t.after == t.now + ticks[1]))
  }

  datatype Outcome = Skipped | Drained | Backstop

  datatype View = View(jobs: seq<Job>, imported: seq<Imported>, log: seq<nat>, now: int, ticks: seq<nat>)

  // What one pass over the queue does: it attempts exactly the due jobs, each
  // once, and leaves none uploading.
  predicate Passed(su: Setup, a: View, b: View, now: int, terminal: nat, finished: nat) {
    var due := DueIds(a.jobs, 0, now, su.maxConcurrency);
    && NoneUploading(b.jobs) && Preserves(a.jobs, b.jobs)
    && finished == |due| && Attempted(a.log, b.log, due) && |b.log| == |a.log| + finished
    && Budget(b.jobs, su.maxAttempts) + finished <= Budget(a.jobs, su.maxAttempts)
    && PendingCount(b.jobs) + terminal == PendingCount(a.jobs)
    && a.now <= b.now
    && (finished == 0 ==> b == a && terminal == 0)
  }

  // One turn of the drain loop: a pass between two clock readings, then the
  // backstop if and only if no job left the queue and all that is pending is due.
  predicate TurnOk(su: Setup, a: View, b: View, stop: bool, t: Turned) {
    && NoneUploading(b.jobs) && Preserves(a.jobs, b.jobs) && a.now <= b.now
    && Budget(b.jobs, su.maxAttempts) + t.finished <= Budget(a.jobs, su.maxAttempts)
    && |b.log| == |a.log| + t.finished
    && (stop <==> BacksOff(t)) && (stop ==> t.after == b.now)
    && t.jobs == b.jobs && t.finished == |DueIds(a.jobs, 0, t.now, su.maxConcurrency)|
    && PendingCount(b.jobs) + t.terminal == PendingCount(a.jobs)
    && FirstTurn(a.jobs, a.now, a.ticks, su.maxConcurrency, t)
    && (!stop && t.finished == 0 ==>
          b.jobs == a.jobs && SomeDue(b.jobs, b.now) && Sum(b.jobs, Parked(b.now)) < Sum(a.jobs, Parked(a.now)))
    && (SomeDue(a.jobs, a.now) && su.maxConcurrency >= 1 ==> t.finished >= 1)
  }

  // The drain loop so far, from `a` to `b`: `idleRun` is the longest run of
  // turns that claimed nothing, `idle` the current one.
  predicate LoopOk(su: Setup, a: View, b: View, uploads: nat, idle: nat, idleRun: nat, turns: seq<Turned>) {
    && Looped(su, a, b, uploads, idleRun, turns)
    && (idle > 0 ==> SomeDue(b.jobs, b.now)) && (su.maxConcurrency >= 1 ==> idle <= 1)
  }

  predicate Looped(su: Setup, a: View, b: View, uploads: nat, idleRun: nat, turns: seq<Turned>) {
    && NoneUploading(b.jobs) && Preserves(a.jobs, b.jobs)
    && |b.log| == |a.log| + uploads
    && Budget(b.jobs, su.maxAttempts) + uploads <= Budget(a.jobs, su.maxAttempts)
    && (su.maxConcurrency >= 1 ==> idleRun <= 1)
    && (forall k :: 0 <= k < |turns| - 1 ==> !BacksOff(turns[k]))
    && (if turns == [] then b == a else FirstTurn(a.jobs, a.now, a.ticks, su.maxConcurrency, turns[0]))
  }

  predicate LastBacksOff(turns: seq<Turned>) {
    turns != [] && BacksOff(turns[|turns| - 1])
  }

  // How a drain that held the lock ended: it hands back with jobs pending exactly
  // when a turn backs off, which is then the last one.
  predicate Ended(outcome: Outcome, turns: seq<Turned>, jobs: seq<Job>, now: int) {
    && outcome == (if PendingCount(jobs) == 0 then Drained else Backstop)
    && (outcome == Backstop <==> LastBacksOff(turns))
    && (forall k :: 0 <= k < |turns| - 1 ==> !BacksOff(turns[k]))
    && (outcome == Backstop ==> turns[|turns| - 1].jobs == jobs && turns[|turns| - 1].after == now)
  }

  lemma LoopStep(su: Setup, a: View, b: View, c: View, uploads: nat, idle: nat, idleRun: nat, turns: seq<Turned>,
                 stop: bool, t: Turned)
    requires LoopOk(su, a, b, uploads, idle, idleRun, turns) && !LastBacksOff(turns)
    requires PendingCount(b.jobs) > 0 && TurnOk(su, b, c, stop, t)
    ensures var idle' := if t.finished == 0 then idle + 1 else 0;
            LoopOk(su, a, c, uploads + t.finished, if stop then 0 else idle', if idle' > idleRun then idle' else idleRun, turns + [t])
    ensures stop ==> Ended(Backstop, turns + [t], c.jobs, c.now)
    ensures !stop ==> !LastBacksOff(turns + [t])
    ensures !stop && t.finished == 0 ==> Budget(c.jobs, su.maxAttempts) == Budget(b.jobs, su.maxAttempts)
                                         && Sum(c.jobs, Parked(c.now)) < Sum(b.jobs, Parked(b.now))
    ensures t.finished > 0 ==> Budget(c.jobs, su.maxAttempts) < Budget(b.jobs, su.maxAttempts)
  {
  }

  // The drain has slept until a parked job is due.
  lemma SleepEnds(jobs: seq<Job>, before: int, now: int, woken: int)
    requires before <= now <= woken
    requires exists i :: 0 <= i < |jobs| && Parked(now)(jobs[i]) == 1 && jobs[i].nextRetry.value <= woken
    ensures SomeDue(jobs, woken) && Sum(jobs, Parked(woken)) < Sum(jobs, Parked(before))
  {
    var i :| 0 <= i < |jobs| && Parked(now)(jobs[i]) == 1 && jobs[i].nextRetry.value <= woken;
    ParkedFalls(jobs, before, now);
    ParkedFalls(jobs, now, woken);
    assert Due(jobs[i], woken);
  }

  lemma DueStays(jobs: seq<Job>, now: int, later: int)
    requires now <= later
    ensures SomeDue(jobs, now) ==> SomeDue(jobs, later)
  {
    if i :| 0 <= i < |jobs| && Due(jobs[i], now) {
      assert Due(jobs[i], later);
    }
  }

  // The turn from its parts.
  lemma TurnFrom(su: Setup, a: View, b: View, c: View, d: View, terminal: nat, finished: nat, stop: bool, t: Turned)
    requires NoneUploading(a.jobs) && PendingCount(a.jobs) > 0
    requires b == a.(now := b.now, ticks := b.ticks) && a.now <= b.now
    requires if a.ticks == [] then b.ticks == [] else b.now == a.now + a.ticks[0] && b.ticks == a.ticks[1..]
    requires Passed(su, b, c, b.now, terminal, finished)
    requires t.now == b.now && t.finished == finished && t.terminal == terminal && t.jobs == c.jobs == d.jobs && d.log == c.log
    requires terminal > 0 ==> d == c && !stop
    requires terminal == 0 ==>
               && c.now <= t.after <= d.now && (c.ticks != [] ==> t.after == c.now + c.ticks[0])
               && (stop <==> NoneParked(c.jobs, t.after)) && (stop ==> d.now == t.after)
               && (!stop ==> exists i :: 0 <= i < |c.jobs| && Parked(t.after)(c.jobs[i]) == 1 && c.jobs[i].nextRetry.value <= d.now)
    ensures TurnOk(su, a, d, stop, t)
  {
    if terminal == 0 {
      NoneParkedIffAllDue(c.jobs, t.after);
      if !stop {
        SleepEnds(c.jobs, a.now, t.after, d.now);
      }
    }
    DueStays(a.jobs, a.now, b.now);
  }

  // Since `before`, each of the distinct `ids` has been attempted exactly once
  // and no other job.
  predicate Attempted(before: seq<nat>, log: seq<nat>, ids: seq<nat>) {
    && before <= log && |log| == |before| + |ids|
    && (forall id :: id in ids ==> id in log[|before|..]) && (forall id :: id in log[|before|..] ==> id in ids)
  }

  // A claim that takes something starts the join loop.
  lemma PassBegins(start: Start, db: Db, out: Outside, ids: seq<nat>, now: int, claimed: map<nat, Job>, landed: set<nat>, h: Story)
    requires start.jobs == db.jobs && start.freed == |out.freed| && NoneUploading(db.jobs)
    requires forall k :: 0 <= k < |ids| ==> ids[k] < |db.jobs| && Due(db.jobs[ids[k]], now)
    requires claimed.Keys == set id | id in ids
    requires forall id :: id in ids ==> id < |db.jobs| && claimed[id] == db.jobs[id].(state := Uploading)
    requires StatusBacked(start.imported, db.imported, db.jobs) && LocalOk(start.local, db.jobs, out.payload)
    requires TellsPass(h, db.(jobs := ClaimRows(db.jobs, ids)), out, claimed, claimed.Keys)
    ensures InPass(start, db.(jobs := ClaimRows(db.jobs, ids)), out, claimed, claimed.Keys, landed, h)
  {
    ClaimStartsPass(db.jobs, ids, now, claimed);
    StatusKept(start.imported, db.imported, db.jobs, ClaimRows(db.jobs, ids));
  }

  // A claim that takes nothing.
  lemma NothingClaimed(h: Story, db: Db, out: Outside, now: int, limit: nat)
    requires Tells(h, db, out, Q.Draining) && DueIds(db.jobs, 0, now, limit) == []
    ensures var h' := Then(h, [S.Table(Q.Claim(h.p, now, limit))]);
            Tells(h', db, out, Q.Draining) && Continues(h, h') && ClaimRows(db.jobs, []) == db.jobs
  {
    ClaimStep(h, db, out, now, limit, map[]);
    ContinuesFurther(h, h, [S.Table(Q.Claim(h.p, now, limit))]);
  }

  lemma PassStarts(start: Start, db: Db, out: Outside, landed: set<nat>, now: int, limit: nat, ids: seq<nat>,
                   claimed: map<nat, Job>, h: Story)
    returns (h1: Story)
    requires start.jobs == db.jobs && start.freed == |out.freed| && NoneUploading(db.jobs)
    requires StatusBacked(start.imported, db.imported, db.jobs)
    requires Tells(h, db, out, Q.Draining) && LocalOk(start.local, db.jobs, out.payload)
    requires ids == DueIds(db.jobs, 0, now, limit) != [] && ClaimedFrom(claimed, db.jobs, ids)
    ensures Continues(h, h1) && InPass(start, db.(jobs := ClaimRows(db.jobs, ids)), out, claimed, claimed.Keys, landed, h1)
  {
    h1 := Then(h, [S.Table(Q.Claim(h.p, now, limit))]);
    ClaimStep(h, db, out, now, limit, claimed);
    ContinuesFurther(h, h, [S.Table(Q.Claim(h.p, now, limit))]);
    PassBegins(start, db, out, ids, now, claimed, landed, h1);
  }

  // A pass from the claim to its last record, as a story of the queue.
  lemma PassAsStory(su: Setup, db: Db, sc1: Scene, out: Outside, landed: set<nat>, imported0: seq<Imported>,
                    local: map<string, Bytes>, now: int, ids: seq<nat>, claimed: map<nat, Job>, h: Story, js: seq<Joined>)
    returns (h': Story)
    requires NoneUploading(db.jobs) && StatusBacked(imported0, db.imported, db.jobs)
    requires Tells(h, db, out, Q.Draining) && LocalOk(local, db.jobs, out.payload)
    requires ids == DueIds(db.jobs, 0, now, su.maxConcurrency) != [] && ClaimedFrom(claimed, db.jobs, ids)
    requires sc1 == Scene(db.(jobs := ClaimRows(db.jobs, ids)), out.remote, out.card)
    requires Joinable(su, sc1, local, claimed.Keys, js) && forall id :: id in claimed ==> id in Ids(js)
    ensures var sc := SettledAll(su, sc1, local, claimed.Keys, js);
            && Continues(h, h') && SeesAt(h', sc, local, Q.Draining)
            && StatusBacked(imported0, sc.db.imported, sc.db.jobs)
            && FreedFits(sc.db.jobs, Final(h').freed, |out.freed|, LandedIn(landed, js))
            && (!su.deleteAfterVerify ==> Final(h').freed == out.freed)
  {
    var start := Start(db.jobs, imported0, |out.freed|, local);
    var h1 := PassStarts(start, db, out, landed, now, su.maxConcurrency, ids, claimed, h);
    h' := PassDone(su, start, sc1.db, out, ids, claimed, landed, h1, js);
    ContinuesOn(h, h1, h');
  }

  // ... and what it has done to the queue.
  lemma PassCounts(su: Setup, a: View, db: Db, sc1: Scene, local: map<string, Bytes>, now: int, ids: seq<nat>,
                   claimed: map<nat, Job>, js: seq<Joined>, c: View)
    requires a.jobs == db.jobs && NoneUploading(db.jobs)
    requires ids == DueIds(db.jobs, 0, now, su.maxConcurrency) != [] && ClaimedFrom(claimed, db.jobs, ids)
    requires sc1.db == db.(jobs := ClaimRows(db.jobs, ids))
    requires Joinable(su, sc1, local, claimed.Keys, js) && forall id :: id in claimed ==> id in Ids(js)
    requires c.jobs == SettledAll(su, sc1, local, claimed.Keys, js).db.jobs
    requires c.log == a.log + Ids(js) && a.now <= c.now
    ensures Passed(su, a, c, now, Terminal(su, claimed, js), |ids|)
  {
    AllJoined(su, sc1, local, claimed, js, ids);
    assert c.log[|a.log|..] == Ids(js);
    assert Attempted(a.log, c.log, ids);
    JobsAfterPass(su, db, sc1, local, now, ids, claimed, js);
  }

  lemma JobsAfterPass(su: Setup, db: Db, sc1: Scene, local: map<string, Bytes>, now: int, ids: seq<nat>,
                      claimed: map<nat, Job>, js: seq<Joined>)
    requires NoneUploading(db.jobs) && ids == DueIds(db.jobs, 0, now, su.maxConcurrency) && ClaimedFrom(claimed, db.jobs, ids)
    requires sc1.db == db.(jobs := ClaimRows(db.jobs, ids))
    requires Joinable(su, sc1, local, claimed.Keys, js) && |js| == |ids| && forall id :: id in claimed ==> id in Ids(js)
    ensures var jobs := SettledAll(su, sc1, local, claimed.Keys, js).db.jobs;
            && NoneUploading(jobs) && Preserves(db.jobs, jobs)
            && Budget(jobs, su.maxAttempts) + |ids| <= Budget(db.jobs, su.maxAttempts)
            && PendingCount(jobs) + Terminal(su, claimed, js) == PendingCount(db.jobs)
  {
    assert claimed.Keys == set i | i in ids;
    ClaimKeepsBudget(db.jobs, ids, now, su.maxAttempts);
    ClaimStartsPass(db.jobs, ids, now, claimed);
    var left := JoinedJobs(su, db.jobs, sc1, local, claimed, js);
    assert left == {};
  }

  lemma AllJoined(su: Setup, sc1: Scene, local: map<string, Bytes>, claimed: map<nat, Job>, js: seq<Joined>, ids: seq<nat>)
    requires Joinable(su, sc1, local, claimed.Keys, js) && forall id :: id in claimed ==> id in Ids(js)
    requires Ascending(ids) && forall id :: id in claimed <==> id in ids
    ensures |Ids(js)| == |js| == |claimed.Keys| == |ids| && forall id :: id in Ids(js) <==> id in claimed
  {
    var all := set id | id in Ids(js);
    IdsDistinct(su, sc1, local, claimed.Keys, js, all);
    assert all == claimed.Keys;
    IdsCount(ids, claimed.Keys);
  }

  // The job table alone, through the results of a pass.
  lemma {:induction false} JoinedJobs(su: Setup, before: seq<Job>, sc1: Scene, local: map<string, Bytes>,
                                      claimed: map<nat, Job>, js: seq<Joined>) returns (left: set<nat>)
    requires Joinable(su, sc1, local, claimed.Keys, js) && MidPass(before, sc1.db.jobs, claimed, claimed.Keys)
    ensures var jobs := SettledAll(su, sc1, local, claimed.Keys, js).db.jobs;
            && MidPass(before, jobs, claimed, left)
            && Budget(jobs, su.maxAttempts) + |js| <= Budget(sc1.db.jobs, su.maxAttempts)
            && PendingCount(jobs) + Terminal(su, claimed, js) == PendingCount(sc1.db.jobs)
    ensures forall x :: x in left <==> x in claimed && x !in Ids(js)
    decreases |js|
  {
    left := claimed.Keys;
    if js != [] {
      var init, j := js[..|js| - 1], js[|js| - 1];
      left := JoinedJobs(su, before, sc1, local, claimed, init);
      var jobs := SettledAll(su, sc1, local, claimed.Keys, init).db.jobs;
      SettledFacts(jobs, j.id, j.r, su.maxAttempts, j.next);
      FinishKeepsPass(before, jobs, SettledJobs(jobs, j.id, j.r, su.maxAttempts, j.next), claimed, left, j.id);
      left := left - {j.id};
    }
  }

  class CloudWorker {
    const ledger: Ledger
    const uploader: Uploader
    const card: Card
    const clock: Clock
    const maxConcurrency: nat
    const maxAttempts: nat
    const deleteAfterVerify: bool

    constructor (ledger: Ledger, uploader: Uploader, card: Card, clock: Clock, maxConcurrency: nat, maxAttempts: nat,
                 deleteAfterVerify: bool)
      ensures this.ledger == ledger && this.uploader == uploader && this.card == card && this.clock == clock
      ensures this.maxConcurrency == maxConcurrency && this.maxAttempts == maxAttempts
      ensures this.deleteAfterVerify == deleteAfterVerify
    {
      this.ledger, this.uploader, this.card, this.clock := ledger, uploader, card, clock;
      this.maxConcurrency, this.maxAttempts, this.deleteAfterVerify := maxConcurrency, maxAttempts, deleteAfterVerify;
    }

    // The drain stands at `w` of its story, which has led to the ledger, the
    // server and the card as they are.
    ghost predicate Sees(h: Story, w: Q.Worker)
      reads ledger, uploader, card
    {
      SeesAt(h, Current(), uploader.local, w)
    }

    function Viewed(): View
      reads ledger, uploader, clock
    {
      View(ledger.jobs, ledger.imported, uploader.log, clock.now, clock.ticks)
    }

    function Current(): Scene
      reads ledger, uploader, card
    {
      Scene(ledger.Value(), uploader.remote, card.files)
    }

    function HowSet(): Setup {
      Setup(maxConcurrency, maxAttempts, deleteAfterVerify)
    }

    // Record the result of one finished upload. `terminal` tells whether the job
    // left the queue, `next` when a retry was scheduled for, `f` what the drain
    // found and did at the card.
    method Finish(id: nat, job: Job, r: UploadResult)
      returns (terminal: bool, event: Option<A.CloudEvent>, cleanup: Option<A.CloudEvent>, ghost next: int, ghost f: Freeing)
      requires id < |ledger.jobs| && ledger.jobs[id].attempts == job.attempts
      requires ledger.jobs[id].spec == job.spec && ledger.jobs[id].importedId == job.importedId
      modifies ledger`jobs, ledger`imported, clock, card
      ensures ledger.jobs == SettledJobs(old(ledger.jobs), id, r, maxAttempts, next)
      ensures ledger.imported == SettledRows(old(ledger.imported), old(ledger.jobs)[id], r, maxAttempts)
      ensures terminal <==> !Retries(job, r, maxAttempts)
      ensures !terminal ==> next >= old(clock.now) + 2
      ensures event == if terminal then Some(Announced(ledger.jobs[id])) else None
      ensures f.wish == deleteAfterVerify
      ensures card.files == if Removal(f, r, job.spec) then f.mounted - {job.spec.cardSrc.value} else f.mounted
      ensures cleanup == if r.Landed? && deleteAfterVerify && job.spec.cardSrc.Some? then Some(CleanupEvent(f, r, job.spec)) else None
      ensures clock.now >= old(clock.now)
    {
      event, cleanup, next := None, None, 0;
      card.MayBeSwapped();
      f := Freeing(card.files, deleteAfterVerify, false);
      match r {
        case AlreadyPresent =>
          ledger.MarkJobDone(id);
          ledger.SetCloudStatus(job.importedId, StatusDone);
          event := Some(A.Mirrored(job.spec.remotePath));
          terminal := true;
        case Landed =>
          ledger.SaveJobProgress(id, job.spec.total);
          ledger.MarkJobDone(id);
          ledger.SetCloudStatus(job.importedId, StatusDone);
          event := Some(A.Mirrored(job.spec.remotePath));
          terminal := true;
          if deleteAfterVerify && job.spec.cardSrc.Some? {
            var removed := card.Remove(job.spec.cardSrc.value);
            f := f.(works := removed);
            cleanup := Some(if removed then A.Freed(job.spec.cardSrc.value)
                            else A.FreeFailed(job.spec.cardSrc.value, "post-upload delete failed"));
          }
        case Refused(error, retryable) =>
          var attempt := job.attempts + 1;
          if retryable && attempt < maxAttempts {
            var failedAt := clock.Read();
            var draw: int := *;
            var jitter := draw % 4000;
            DelayBounds(attempt, jitter);
            var due := failedAt + DelaySecs(attempt, jitter);
            ledger.MarkJobFailed(id, error, Some(due));
            terminal, next := false, due;
          } else {
            ledger.MarkJobFailed(id, error, None);
            ledger.SetCloudStatus(job.importedId, StatusFailed);
            event := Some(A.CloudFailed(job.spec.remotePath, error));
            terminal := true;
          }
      }
    }

    // One upload task and the record of its result.
    method UploadOne(id: nat, job: Job)
      returns (r: UploadResult, terminal: bool, event: Option<A.CloudEvent>, ghost t: Try, ghost f: Freeing, ghost next: int)
      requires id < |ledger.jobs| && ledger.jobs[id] == job
      modifies ledger`jobs, ledger`imported, uploader, clock, card
      ensures ledger.jobs == SettledJobs(old(ledger.jobs), id, r, maxAttempts, next)
      ensures ledger.imported == SettledRows(old(ledger.imported), job, r, maxAttempts)
      ensures terminal <==> !Retries(job, r, maxAttempts)
      ensures !terminal ==> next >= old(clock.now) + 2
      ensures event == if terminal then Some(Announced(ledger.jobs[id])) else None
      ensures TryOk(t, r, old(uploader.remote), job.spec) && (t.sent ==> job.localPath in uploader.local)
      ensures uploader.remote == if t.sent then old(uploader.remote)[job.spec.remotePath := uploader.local[job.localPath]]
                                 else old(uploader.remote)
      ensures f.wish == deleteAfterVerify
      ensures card.files == if Removal(f, r, job.spec) then f.mounted - {job.spec.cardSrc.value} else f.mounted
      ensures uploader.landed == WithLanded(old(uploader.landed), id, r)
      ensures uploader.log == old(uploader.log) + [id] && clock.now >= old(clock.now)
    {
      var cleanup;
      r, t := uploader.Attempt(id, job);
      terminal, event, cleanup, next, f := Finish(id, job, r);
    }

    // The next upload to finish, whichever it is (`join_next`), and its record.
    method JoinNext(claimed: map<nat, Job>, left: set<nat>)
      returns (id: nat, event: Option<A.CloudEvent>, ghost j: Joined)
      requires left != {}
      requires forall id :: id in left ==> id in claimed && id < |ledger.jobs| && ledger.jobs[id] == claimed[id]
      modifies ledger`jobs, ledger`imported, uploader, clock, card
      ensures j.id == id && id in left && JoinFits(HowSet(), old(Current()), uploader.local, j)
      ensures Current() == Settled(HowSet(), old(Current()), uploader.local, j)
      ensures event.Some? <==> !Retries(claimed[j.id], j.r, maxAttempts)
      ensures uploader.log == old(uploader.log) + [j.id]
      ensures uploader.landed == WithLanded(old(uploader.landed), j.id, j.r)
      ensures clock.now >= old(clock.now)
    {
      id :| id in left;
      var r, done;
      ghost var t, f, next;
      r, done, event, t, f, next := UploadOne(id, claimed[id]);
      j := Joined(id, r, t, f, next);
    }

    // The join loop: it ends when every claimed upload has been recorded.
    method JoinAll(claimed: map<nat, Job>)
      returns (terminal: nat, events: seq<A.CloudEvent>, ghost js: seq<Joined>)
      requires forall id :: id in claimed ==> id < |ledger.jobs| && ledger.jobs[id] == claimed[id]
      modifies ledger`jobs, ledger`imported, uploader, clock, card
      ensures Joinable(HowSet(), old(Current()), uploader.local, claimed.Keys, js)
      ensures Current() == SettledAll(HowSet(), old(Current()), uploader.local, claimed.Keys, js)
      ensures forall id :: id in claimed ==> id in Ids(js)
      ensures terminal == |events| == Terminal(HowSet(), claimed, js)
      ensures uploader.log == old(uploader.log) + Ids(js) && uploader.landed == LandedIn(old(uploader.landed), js)
      ensures clock.now >= old(clock.now)
    {
      terminal, events, js := 0, [], [];
      var left := claimed.Keys;
      ghost var sc0 := Current();
      while left != {}
        invariant JoinedSoFar(HowSet(), sc0, Current(), uploader.local, claimed, left, js, terminal) && terminal == |events|
        invariant uploader.log == old(uploader.log) + Ids(js) && uploader.landed == LandedIn(old(uploader.landed), js)
        invariant clock.now >= old(clock.now)
        decreases left
      {
        var id, event;
        ghost var j;
        ghost var sc := Current();
        id, event, j := JoinNext(claimed, left);
        JoinsFurther(HowSet(), sc0, sc, Current(), uploader.local, claimed, left, js, j, terminal, old(uploader.landed));
        js, left := js + [j], left - {id};
        if event.Some? {
          events, terminal := events + [event.value], terminal + 1;
        }
      }
    }

    // One pass: claim, upload concurrently, record every result.
    method RunOnce(now: int, ghost imported0: seq<Imported>, ghost h: Story)
      returns (terminal: nat, finished: nat, events: seq<A.CloudEvent>, ghost h': Story)
      requires NoneUploading(ledger.jobs) && StatusBacked(imported0, ledger.imported, ledger.jobs) && Sees(h, Q.Draining)
      modifies ledger`jobs, ledger`imported, uploader, clock, card
      ensures Continues(h, h') && Sees(h', Q.Draining)
      ensures Passed(HowSet(), old(Viewed()), Viewed(), now, terminal, finished)
      ensures StatusBacked(imported0, ledger.imported, ledger.jobs) && |events| == terminal
      ensures Lawful(h) && Lawful(h') && FreedFits(ledger.jobs, Final(h').freed, |Final(h).freed|, uploader.landed)
      ensures !deleteAfterVerify ==> Final(h').freed == Final(h).freed
    {
      terminal, events := 0, [];
      ghost var a, db, out, landed := Viewed(), ledger.Value(), OutsideOf(Final(h)), uploader.landed;
      var ids, claimed := ledger.ClaimDueCloudJobs(now, maxConcurrency);
      finished := |ids|;
      if ids == [] {
        NothingClaimed(h, db, out, now, maxConcurrency);
        h' := Then(h, [S.Table(Q.Claim(h.p, now, maxConcurrency))]);
        assert ledger.jobs == db.jobs;
        return;
      }
      ghost var sc1 := Current();
      ghost var js;
      assert sc1 == Scene(db.(jobs := ClaimRows(db.jobs, ids)), out.remote, out.card);
      terminal, events, js := JoinAll(claimed);
      h' := PassAsStory(HowSet(), db, sc1, out, landed, imported0, uploader.local, now, ids, claimed, h, js);
      PassCounts(HowSet(), a, db, sc1, uploader.local, now, ids, claimed, js, Viewed());
    }

    method SecsUntilNextRetry(now: int) returns (secs: Option<nat>)
      ensures secs.None? <==> NoneParked(ledger.jobs, now)
      ensures secs.Some? ==> secs.value > 0
                             && exists i :: 0 <= i < |ledger.jobs| && Parked(now)(ledger.jobs[i]) == 1
                                            && ledger.jobs[i].nextRetry.value == now + secs.value
      ensures secs.Some? ==> forall i :: 0 <= i < |ledger.jobs| && Parked(now)(ledger.jobs[i]) == 1 ==>
                                           now + secs.value <= ledger.jobs[i].nextRetry.value
    {
      secs := None;
      for i := 0 to |ledger.jobs|
        invariant secs.None? <==> forall k :: 0 <= k < i ==> Parked(now)(ledger.jobs[k]) == 0
        invariant secs.Some? ==> secs.value > 0
                                 && exists k :: 0 <= k < i && Parked(now)(ledger.jobs[k]) == 1
                                                && ledger.jobs[k].nextRetry.value == now + secs.value
        invariant secs.Some? ==> forall k :: 0 <= k < i && Parked(now)(ledger.jobs[k]) == 1 ==>
                                               now + secs.value <= ledger.jobs[k].nextRetry.value
      {
        var j := ledger.jobs[i];
        if j.state == Failed && j.nextRetry.Some? && j.nextRetry.value > now {
          if secs.None? || j.nextRetry.value - now < secs.value {
            secs := Some(j.nextRetry.value - now);
          }
        }
      }
    }

    // One turn of the drain loop while jobs are pending: a pass, then, if no job
    // left the queue, either a sleep until the nearest retry or the backstop.
    method Turn(ghost imported0: seq<Imported>, ghost h: Story) returns (stop: bool, finished: nat, ghost t: Turned, ghost h': Story)
      requires NoneUploading(ledger.jobs) && PendingCount(ledger.jobs) > 0
      requires StatusBacked(imported0, ledger.imported, ledger.jobs) && Sees(h, Q.Draining)
      modifies ledger`jobs, ledger`imported, uploader, clock, card
      ensures Continues(h, h') && Sees(h', Q.Draining)
      ensures StatusBacked(imported0, ledger.imported, ledger.jobs)
      ensures TurnOk(HowSet(), old(Viewed()), Viewed(), stop, t) && t.finished == finished
    {
      ghost var a := Viewed();
      var now := clock.Read();
      ghost var b := Viewed();
      var terminal, events;
      terminal, finished, events, h' := RunOnce(now, imported0, h);
      ghost var c := Viewed();
      stop, t := false, Turned(now, finished, terminal, ledger.jobs, clock.now);
      if terminal == 0 {
        var after := clock.Read();
        t := Turned(now, finished, terminal, ledger.jobs, after);
        var secs := SecsUntilNextRetry(after);
        if secs.None? {
          stop := true;
        } else {
          clock.Sleep(secs.value);
        }
      }
      TurnFrom(HowSet(), a, b, c, Viewed(), terminal, finished, stop, t);
    }

    // The claim/sleep loop, with the lock held. `idleRun` is the longest run of
    // consecutive passes that claimed nothing.
    method DrainLoop(ghost h: Story)
      returns (outcome: Outcome, uploads: nat, idleRun: nat, ghost turns: seq<Turned>, ghost h': Story)
      requires NoneUploading(ledger.jobs) && Sees(h, Q.Draining)
      modifies ledger`jobs, ledger`imported, uploader, clock, card
      ensures Continues(h, h') && Sees(h', Q.Draining)
      ensures StatusBacked(old(ledger.imported), ledger.imported, ledger.jobs)
      ensures Ended(outcome, turns, ledger.jobs, clock.now)
      ensures Looped(HowSet(), old(Viewed()), Viewed(), uploads, idleRun, turns)
    {
      uploads, idleRun, outcome, turns, h' := 0, 0, Drained, [], h;
      var idle := 0;
      ghost var a := Viewed();
      while PendingCount(ledger.jobs) > 0
        invariant Continues(h, h') && Sees(h', Q.Draining)
        invariant StatusBacked(a.imported, ledger.imported, ledger.jobs)
        invariant LoopOk(HowSet(), a, Viewed(), uploads, idle, idleRun, turns) && !LastBacksOff(turns)
        decreases Budget(ledger.jobs, maxAttempts), Sum(ledger.jobs, Parked(clock.now))
      {
        var stop, finished;
        ghost var t;
        ghost var h1, b := h', Viewed();
        stop, finished, t, h' := Turn(a.imported, h1);
        ContinuesOn(h, h1, h');
        LoopStep(HowSet(), a, b, Viewed(), uploads, idle, idleRun, turns, stop, t);
        turns := turns + [t];
        uploads := uploads + finished;
        idle := if finished == 0 then idle + 1 else 0;
        idleRun := if idle > idleRun then idle else idleRun;
        if stop {
          return Backstop, uploads, idleRun, turns, h';
        }
      }
    }

    // Terminates for every server, card and forward clock, and whatever it does
    // is a history of the shared queue. It hands back with work pending exactly
    // when a turn backs off, which the last one then is and no earlier one was.
    method RunUntilDrained(lockFree: bool, ghost h: Story)
      returns (outcome: Outcome, uploads: nat, idleRun: nat, ghost turns: seq<Turned>, ghost h': Story)
      requires Lawful(h) && Tells(h, ledger.Value(), OutsideOf(Final(h)), Q.Idle)
      requires Final(h).remote == uploader.remote && LocalOk(uploader.local, ledger.jobs, Final(h).payload)
      requires lockFree <==> Final(h).q.lock.None?
      modifies ledger`jobs, ledger`imported, uploader, clock, card
      ensures Continues(h, h') && Lawful(h') && Tells(h', ledger.Value(), OutsideOf(Final(h')), Q.Idle)
      ensures Final(h').remote == uploader.remote && (lockFree ==> Final(h').card == card.files)
      ensures !lockFree ==> outcome == Skipped && ledger.jobs == old(ledger.jobs) && ledger.imported == old(ledger.imported)
      ensures lockFree ==> NoneUploading(ledger.jobs) && Preserves(Reclaim(old(ledger.jobs)), ledger.jobs)
      ensures lockFree ==> Ended(outcome, turns, ledger.jobs, clock.now)
      ensures lockFree && PendingCount(old(ledger.jobs)) > 0 ==>
                turns != [] && FirstTurn(Reclaim(old(ledger.jobs)), old(clock.now), old(clock.ticks), maxConcurrency, turns[0])
      ensures StatusBacked(old(ledger.imported), ledger.imported, ledger.jobs)
      ensures |uploader.log| == |old(uploader.log)| + uploads
      ensures Budget(ledger.jobs, maxAttempts) + uploads <= Budget(old(ledger.jobs), maxAttempts)
      ensures maxConcurrency >= 1 ==> idleRun <= 1
    {
      ghost var db, out := ledger.Value(), OutsideOf(Final(h));
      if !lockFree {
        LockedOut(h, db, out);
        ContinuesFurther(h, h, [S.Table(Q.TryLock(h.p))]);
        return Skipped, 0, 0, [], Then(h, [S.Table(Q.TryLock(h.p))]);
      }
      Begin(h, db, out, card.files);
      ghost var h1 := Then(h, Beginning(h.p, card.files));
      ContinuesFurther(h, h, Beginning(h.p, card.files));
      ReclaimKeepsBudget(ledger.jobs, maxAttempts);
      ReclaimFrees(ledger.jobs, clock.now);
      var _ := ledger.ReclaimOrphanedUploading();
      assert OutsideOf(Final(h1)) == out.(card := card.files);
      outcome, uploads, idleRun, turns, h' := DrainLoop(h1);
      ContinuesOn(h, h1, h');
      ReleaseStep(h', ledger.Value(), OutsideOf(Final(h')));
      ContinuesFurther(h, h', [S.Table(Q.Release(h.p))]);
      h' := Then(h', [S.Table(Q.Release(h.p))]);
    }
  }

  /* ----- what a drain comes to ----- */

  // If no two jobs with different bytes share a remote path, every job marked
  // Done after a drain has its file on the server, whatever was done to the
  // ledger and the server since both were empty.
  lemma MirroredMeansStored(h: Story, db: Db)
    requires h.s0 == S.EMPTY && Records(h, db) && StoreSafety.NoClash(Final(h))
    ensures forall j :: 0 <= j < |db.jobs| && db.jobs[j].state == Done ==>
              j < |Final(h).payload| && Lookup(Final(h).remote, db.jobs[j].spec.remotePath) == Some(Final(h).payload[j])
  {
    S.StoreReachable(h.es);
    StoreSafety.NoClashStores(Final(h));
    forall j | 0 <= j < |db.jobs| && db.jobs[j].state == Done
      ensures j < |Final(h).payload| && Lookup(Final(h).remote, db.jobs[j].spec.remotePath) == Some(Final(h).payload[j])
    {
      assert StoreSafety.IsStored(Final(h), j);
    }
  }

  // The backstop is reachable by correct code: the clock ticks past the only
  // retry time between the start of an empty pass and the look at the schedule,
  // and the drain hands back with a job that is already due.
  method BackstopDespiteDueWork(t: int, job: Job, remote: map<string, Bytes>, maxConcurrency: nat, maxAttempts: nat)
    returns (outcome: Outcome, ledger: Ledger, clock: Clock)
    requires job.state == Failed && job.nextRetry == Some(t)
    ensures outcome == Backstop && ledger.jobs == [job] && clock.now == t && Due(job, t)
  {
    ledger := new Ledger();
    clock := new Clock(t - 1, [0, 1]);
    ledger.jobs := [job];
    var uploader := new Uploader(map[], remote);
    var card := new Card(map[], true);
    var worker := new CloudWorker(ledger, uploader, card, clock, maxConcurrency, maxAttempts, true);
    ghost var h := Story(S.EMPTY.(q := Q.INIT.(jobs := [job]), payload := [[]], sources := [None], remote := remote), 0, []);
    OnlyJob(job, t, maxConcurrency);
    var uploads, idleRun;
    ghost var turns, h';
    outcome, uploads, idleRun, turns, h' := worker.RunUntilDrained(true, h);
    assert BacksOff(turns[0]);
  }

  lemma OnlyJob(job: Job, t: int, limit: nat)
    requires job.state == Failed && job.nextRetry == Some(t)
    ensures DueIds([job], 0, t - 1, limit) == [] && PendingCount([job]) == 1
    ensures Reclaim([job]) == [job] && AllPendingDue([job], t)
  {
    assert DueIds([job], 1, t - 1, limit) == [] && !Due([job][0], t - 1);
    assert [job] == [] + [job];
    SumAppend([], job, IsPending);
  }
}
