/**
  The persisted cloud queue as a concurrent state machine: drains in any number
  of processes, offloads, manual requeues, the startup reclaim that takes no
  lock, and the camera reap interleave at the granularity of single committed
  SQL statements, and any process may die between two of them.
 */
module CloudQueue {
  import opened Wrappers
  import opened Tables

  // Where the join loop of one pass stands (worker.rs, the body of `run_once`).
  datatype Stage = Joining | Confirmed(job: nat) | MarkedDone(job: nat) | MarkedFailed(job: nat)

  // One drain (`run_until_drained`). `inFlight` holds the spawned uploads, each
  // with the attempt count of the row as it was claimed.
  datatype Worker = Idle | Locked | Draining | Passing(claimed: set<nat>, inFlight: map<nat, nat>, stage: Stage)

  datatype Media = Media(dir: string, name: string, size: nat, captured: int)

  datatype DeleteReply = Deleted200 | NotFound404 | OtherError

  // A delete request sent to a camera, with the marker row that caused it.
  datatype Issue = Issue(row: nat, media: Media)

  // One reap (`reap_camera_deletes`): the due markers still before it, and
  // whether the camera has just answered for the first of them.
  datatype Reap = Reap(due: seq<nat>, answered: bool)

  datatype State = State(
    imported: seq<Imported>, jobs: seq<Job>, deletes: seq<DeleteRow>,
    lock: Option<nat>, workers: map<nat, Worker>,
    owed: set<DeleteRow>,          // markers an offload has yet to insert
    reaps: map<nat, Reap>,         // by process
    // history
    confirmed: set<nat>,           // jobs the uploader reported as landed
    mirrored: set<nat>,            // imported rows committed under Auto or Manual
    enqueued: nat,
    issued: seq<Issue>)

  datatype Event =
    | TryLock(p: nat)
    | ReclaimUnderLock(p: nat)
    | Claim(p: nat, now: int, limit: nat)
    | Progress(p: nat, job: nat, uploaded: nat)
    | Confirm(p: nat, job: nat)
    | StoreDone(p: nat)
    | StampDone(p: nat)
    | Fail(p: nat, job: nat, error: string, retryable: bool, maxAttempts: nat, next: int)
    | StampFailed(p: nat)
    | EndPass(p: nat)
    | Release(p: nat)
    | Crash(p: nat)
    | StartupReclaim
    | RequeueFailed
    | Commit(key: Key, dest: string, hash: Option<Digest>, spec: Option<JobSpec>, deferDir: Option<string>)
    | InsertMarker(row: DeleteRow)
    | DropMarkers
    | ReapQuery(r: nat, serial: string)
    | ReapClear(r: nat, listing: seq<Media>)
    | ReapDelete(r: nat, listing: seq<Media>, reply: DeleteReply)
    | ReapMark(r: nat)
    | ReapStop(r: nat)

  function At(s: State, p: nat): Worker {
    if p in s.workers then s.workers[p] else Idle
  }

  function InFlight(s: State, p: nat): set<nat> {
    if At(s, p).Passing? then At(s, p).inFlight.Keys else {}
  }

  function ReapOf(s: State, r: nat): Reap {
    if r in s.reaps then s.reaps[r] else Reap([], false)
  }

  // The marker that reap `r` is at.
  predicate AtMarker(s: State, r: nat) {
    ReapOf(s, r).due != [] && ReapOf(s, r).due[0] < |s.deletes|
  }

  function Marker(s: State, r: nat): DeleteRow
    requires AtMarker(s, r)
  {
    s.deletes[ReapOf(s, r).due[0]]
  }

  // `listing.iter().find(same dir and name)`
  function Find(listing: seq<Media>, dir: string, name: string): (m: Option<Media>)
    ensures m.Some? ==> m.value in listing && m.value.dir == dir && m.value.name == name
  {
    if listing == [] then None
    else if listing[0].dir == dir && listing[0].name == name then Some(listing[0])
    else Find(listing[1..], dir, name)
  }

  predicate SameRecording(row: DeleteRow, listing: seq<Media>) {
    var m := Find(listing, row.dir, row.name);
    m.Some? && m.value.size == row.size && m.value.captured == row.captured
  }

  predicate Joins(s: State, p: nat, j: nat) {
    At(s, p).Passing? && At(s, p).stage == Joining && j in At(s, p).inFlight
  }

  predicate Enabled(s: State, e: Event) {
    match e
    case TryLock(p) => At(s, p).Idle?
    case ReclaimUnderLock(p) => At(s, p).Locked?
    case Claim(p, now, limit) => At(s, p).Draining?
    case Progress(p, j, uploaded) =>
      At(s, p).Passing? && j < |s.jobs| && (j in At(s, p).inFlight || At(s, p).stage == Confirmed(j))
    case Confirm(p, j) => Joins(s, p, j)
    case StoreDone(p) => At(s, p).Passing? && At(s, p).stage.Confirmed? && At(s, p).stage.job < |s.jobs|
    case StampDone(p) => At(s, p).Passing? && At(s, p).stage.MarkedDone? && At(s, p).stage.job < |s.jobs|
    case Fail(p, j, _, _, _, _) => Joins(s, p, j) && j < |s.jobs|
    case StampFailed(p) => At(s, p).Passing? && At(s, p).stage.MarkedFailed? && At(s, p).stage.job < |s.jobs|
    case EndPass(p) => At(s, p).Passing? && At(s, p).inFlight == map[] && At(s, p).stage == Joining
    case Release(p) => At(s, p).Draining?
    case InsertMarker(row) => row in s.owed
    case ReapClear(r, listing) => AtMarker(s, r) && !ReapOf(s, r).answered && !SameRecording(Marker(s, r), listing)
    case ReapDelete(r, listing, _) => AtMarker(s, r) && !ReapOf(s, r).answered && SameRecording(Marker(s, r), listing)
    case ReapMark(r) => AtMarker(s, r) && ReapOf(s, r).answered
    case _ => true
  }

  function Move(s: State, p: nat, w: Worker): State {
    s.(workers := s.workers[p := w])
  }

  // A pass that has just claimed `ids`, with the attempt counts it has read.
  function NewPass(jobs: seq<Job>, ids: seq<nat>): Worker {
    Passing(set i | i in ids, map i | i in ids && i < |jobs| :: jobs[i].attempts, Joining)
  }

  // `mark_job_failed` either parks the job for a retry or gives up; only giving
  // up is followed by a status stamp.
  predicate GivesUp(s: State, e: Event)
    requires e.Fail? && Enabled(s, e)
  {
    !(e.retryable && At(s, e.p).inFlight[e.job] + 1 < e.maxAttempts)
  }

  function Next(s: State, e: Event): State
    requires Enabled(s, e)
  {
    match e
    case TryLock(p) =>
      if s.lock.None? then Move(s, p, Locked).(lock := Some(p)) else s
    case ReclaimUnderLock(p) =>
      Move(s, p, Draining).(jobs := Reclaim(s.jobs))
    case Claim(p, now, limit) =>
      var ids := DueIds(s.jobs, 0, now, limit);
      if ids == [] then s
      else
        Move(s, p, NewPass(s.jobs, ids)).(jobs := ClaimRows(s.jobs, ids))
    case Progress(p, j, uploaded) =>
      s.(jobs := SaveProgress(s.jobs, j, uploaded))
    case Confirm(p, j) =>
      var w := At(s, p);
      Move(s, p, w.(inFlight := w.inFlight - {j}, stage := Confirmed(j))).(confirmed := s.confirmed + {j})
    case StoreDone(p) =>
      var w := At(s, p);
      Move(s, p, w.(stage := MarkedDone(w.stage.job))).(jobs := MarkDone(s.jobs, w.stage.job))
    case StampDone(p) =>
      var w := At(s, p);
      Move(s, p, w.(stage := Joining)).(imported := SetStatus(s.imported, s.jobs[w.stage.job].importedId, StatusDone))
    case Fail(p, j, error, retryable, maxAttempts, next) =>
      var w := At(s, p);
      var giveUp := GivesUp(s, e);
      Move(s, p, w.(inFlight := w.inFlight - {j}, stage := if giveUp then MarkedFailed(j) else Joining))
        .(jobs := MarkFailed(s.jobs, j, error, if giveUp then None else Some(next)))
    case StampFailed(p) =>
      var w := At(s, p);
      Move(s, p, w.(stage := Joining)).(imported := SetStatus(s.imported, s.jobs[w.stage.job].importedId, StatusFailed))
    case EndPass(p) => Move(s, p, Draining)
    case Release(p) => Move(s, p, Idle).(lock := None)
    case Crash(p) =>
      Move(s, p, Idle).(lock := if s.lock == Some(p) then None else s.lock)
    case StartupReclaim => s.(jobs := Reclaim(s.jobs))
    case RequeueFailed => s.(jobs := Requeue(s.jobs))
    case Commit(key, dest, hash, spec, deferDir) =>
      var (rows, id) := Upsert(s.imported, key, dest, hash);
      var s1 := s.(imported := rows);
      var s2 := if spec.None? then s1 else
                  s1.(jobs := s.jobs + [NewJob(id, dest, spec.value)],
                      mirrored := s.mirrored + {id}, enqueued := s.enqueued + 1);
      if spec.None? || deferDir.None? then s2
      else s2.(owed := s.owed + {DeleteRow(key.serial, deferDir.value, key.name, key.size, key.captured, id, false)})
    case InsertMarker(row) => s.(deletes := s.deletes + [row], owed := s.owed - {row})
    case DropMarkers => s.(owed := {})
    case ReapQuery(r, serial) =>
      s.(reaps := s.reaps[r := Reap(DueDeletes(s.deletes, s.imported, serial, 0), false)])
    case ReapClear(r, listing) =>
      var due := ReapOf(s, r).due;
      s.(deletes := MarkDeleted(s.deletes, due[0]), reaps := s.reaps[r := Reap(due[1..], false)])
    case ReapDelete(r, listing, reply) =>
      var due, row := ReapOf(s, r).due, Marker(s, r);
      s.(issued := s.issued + [Issue(due[0], Find(listing, row.dir, row.name).value)],
         reaps := s.reaps[r := if reply.OtherError? then Reap(due[1..], false) else Reap(due, true)])
    case ReapMark(r) =>
      var due := ReapOf(s, r).due;
      s.(deletes := MarkDeleted(s.deletes, due[0]), reaps := s.reaps[r := Reap(due[1..], false)])
    case ReapStop(r) => s.(reaps := s.reaps - {r})
  }

  const INIT := State([], [], [], None, map[], {}, map[], {}, {}, 0, [])

  // A history is legal when every event is enabled where it happens.
  predicate Legal(s: State, es: seq<Event>)
    decreases |es|
  {
    es == [] || (Enabled(s, es[0]) && Legal(Next(s, es[0]), es[1..]))
  }

  function Run(s: State, es: seq<Event>): State
    requires Legal(s, es)
    decreases |es|
  {
    if es == [] then s else Run(Next(s, es[0]), es[1..])
  }

  lemma LegalCons(s: State, e: Event, rest: seq<Event>)
    requires Enabled(s, e) && Legal(Next(s, e), rest)
    ensures Legal(s, [e] + rest) && Run(s, [e] + rest) == Run(Next(s, e), rest)
  {
  }

  lemma {:induction false} LegalAppend(s: State, es: seq<Event>, e: Event)
    requires Legal(s, es) && Enabled(Run(s, es), e)
    ensures Legal(s, es + [e]) && Run(s, es + [e]) == Next(Run(s, es), e)
    decreases |es|
  {
    if es == [] {
      LegalCons(s, e, []);
      assert es + [e] == [e] + [];
    } else {
      LegalAppend(Next(s, es[0]), es[1..], e);
      assert es + [e] == [es[0]] + (es[1..] + [e]);
      LegalCons(s, es[0], es[1..] + [e]);
    }
  }

  lemma {:induction false} LegalSplit(s: State, es: seq<Event>, more: seq<Event>)
    requires Legal(s, es + more)
    ensures Legal(s, es) && Legal(Run(s, es), more) && Run(s, es + more) == Run(Run(s, es), more)
    decreases |es|
  {
    if es == [] {
      assert es + more == more;
    } else {
      assert (es + more)[1..] == es[1..] + more;
      LegalSplit(Next(s, es[0]), es[1..], more);
    }
  }

  /* ----- the inductive invariant ----- */

  // The advisory lock is held by exactly the drains that are under way.
  ghost predicate LockInv(s: State) {
    forall p: nat :: At(s, p) != Idle <==> s.lock == Some(p)
  }

  predicate Unsettled(j: Job) {
    j.state == Uploading || j.state == Queued
  }

  // What one pass knows about the rows it works on. A row in flight may have
  // been flipped back to Queued by the startup reclaim, but nothing else.
  predicate PassOk(jobs: seq<Job>, confirmed: set<nat>, w: Worker)
  {
    w.Passing? ==>
      && w.inFlight.Keys <= w.claimed
      && (forall j :: j in w.claimed ==> j < |jobs|)
      && (forall j :: j in w.inFlight ==> j < |jobs| && Unsettled(jobs[j]) && jobs[j].attempts == w.inFlight[j])
      && (!w.stage.Joining? ==> w.stage.job in w.claimed && w.stage.job < |jobs| && w.stage.job !in w.inFlight)
      && (w.stage.Confirmed? ==> w.stage.job < |jobs| && Unsettled(jobs[w.stage.job]) && w.stage.job in confirmed)
      && (w.stage.MarkedDone? ==> w.stage.job < |jobs| && jobs[w.stage.job].state == Done)
      && (w.stage.MarkedFailed? ==> w.stage.job < |jobs| && jobs[w.stage.job].state != Done)
  }

  // Is a row in state Uploading accounted for by drain `w`, the lock holder?
  predicate Accounted(w: Worker, j: nat) {
    match w
    case Passing(_, inFlight, stage) => j in inFlight || stage == Confirmed(j)
    case Draining => false
    case _ => true // not yet reclaimed: an orphan of an earlier drain
  }

  predicate AllAccounted(jobs: seq<Job>, w: Worker) {
    forall j :: 0 <= j < |jobs| && jobs[j].state == Uploading ==> Accounted(w, j)
  }

  ghost predicate WorkInv(s: State) {
    && LockInv(s)
    && (forall p: nat :: PassOk(s.jobs, s.confirmed, At(s, p)))
    && (s.lock.Some? ==> AllAccounted(s.jobs, At(s, s.lock.value)))
  }

  // Some job of this imported row is Done and the uploader confirmed it.
  ghost predicate Backed(s: State, id: nat) {
    exists j :: 0 <= j < |s.jobs| && s.jobs[j].importedId == id && s.jobs[j].state == Done && j in s.confirmed
  }

  predicate MarkerOk(imported: seq<Imported>, row: DeleteRow) {
    && row.importedId < |imported|
    && imported[row.importedId].key == Key(row.serial, row.name, row.size, row.captured)
  }

  ghost predicate TableInv(s: State) {
    && UniqueKeys(s.imported)
    && |s.jobs| == s.enqueued
    && (forall j :: 0 <= j < |s.jobs| ==> s.jobs[j].importedId < |s.imported|)
    && (forall j :: 0 <= j < |s.jobs| && s.jobs[j].state == Done ==> j in s.confirmed)
    && (forall id :: id in s.mirrored ==> exists j :: 0 <= j < |s.jobs| && s.jobs[j].importedId == id)
    && (forall i :: 0 <= i < |s.imported| && s.imported[i].cloudStatus == StatusDone ==> Backed(s, i))
  }

  ghost predicate IssueOk(s: State, i: Issue) {
    && i.row < |s.deletes|
    && var row := s.deletes[i.row];
    && i.media == Media(row.dir, row.name, row.size, row.captured)
    && Backed(s, row.importedId)
  }

  ghost predicate DueOk(s: State, r: nat) {
    forall i :: i in ReapOf(s, r).due ==> i < |s.deletes| && Backed(s, s.deletes[i].importedId)
  }

  ghost predicate ReapInv(s: State) {
    && (forall r :: r in s.owed ==> MarkerOk(s.imported, r))
    && (forall i :: 0 <= i < |s.deletes| ==> MarkerOk(s.imported, s.deletes[i]))
    && (forall r: nat :: DueOk(s, r))
    && (forall k :: 0 <= k < |s.issued| ==> IssueOk(s, s.issued[k]))
  }

  ghost predicate Inv(s: State) {
    WorkInv(s) && TableInv(s) && ReapInv(s)
  }

  /* ----- every event keeps it ----- */

  // The drain that moves in event `e`, if any.
  predicate Worked(e: Event) {
    e.TryLock? || e.ReclaimUnderLock? || e.Claim? || e.Progress? || e.Confirm? || e.StoreDone? || e.StampDone?
    || e.Fail? || e.StampFailed? || e.EndPass? || e.Release? || e.Crash?
  }

  lemma LockKept(s: State, e: Event)
    requires LockInv(s) && Enabled(s, e)
    ensures LockInv(Next(s, e))
  {
    var t := Next(s, e);
    if Worked(e) {
      forall p: nat ensures At(t, p) != Idle <==> t.lock == Some(p) {
        assert At(s, p) != Idle <==> s.lock == Some(p);
        assert At(s, e.p) != Idle <==> s.lock == Some(e.p);
      }
    } else {
      forall p: nat ensures At(t, p) != Idle <==> t.lock == Some(p) {
        assert At(t, p) == At(s, p);
      }
    }
  }

  // A pass survives any event of another drain: the lock keeps those idle, so
  // none of them can touch the job table.
  lemma BystanderPass(s: State, e: Event, p: nat)
    requires WorkInv(s) && Enabled(s, e) && Worked(e) && p != e.p && At(s, p).Passing?
    ensures Next(s, e).jobs == s.jobs && Next(s, e).confirmed == s.confirmed && At(Next(s, e), p) == At(s, p)
  {
  }

  // ... and the events that belong to no drain: flips between Uploading and
  // Queued, requeues of given-up rows, new rows.
  lemma OutsidePass(s: State, e: Event, p: nat)
    requires Enabled(s, e) && !Worked(e) && PassOk(s.jobs, s.confirmed, At(s, p))
    ensures PassOk(Next(s, e).jobs, Next(s, e).confirmed, At(Next(s, e), p))
  {
    var t := Next(s, e);
    assert At(t, p) == At(s, p) && t.confirmed == s.confirmed;
    assert |s.jobs| <= |t.jobs|;
    assert forall j :: 0 <= j < |s.jobs| && Unsettled(s.jobs[j]) ==>
                         Unsettled(t.jobs[j]) && t.jobs[j].attempts == s.jobs[j].attempts;
    assert forall j :: 0 <= j < |s.jobs| ==> (s.jobs[j].state == Done <==> t.jobs[j].state == Done);
  }

  // The claim starts a pass, other events outside the join loop end or precede it.
  lemma OwnClaim(s: State, e: Event)
    requires Enabled(s, e) && e.Claim? && PassOk(s.jobs, s.confirmed, At(s, e.p))
    ensures PassOk(Next(s, e).jobs, Next(s, e).confirmed, At(Next(s, e), e.p))
  {
  }

  lemma OwnSuccess(s: State, e: Event)
    requires Enabled(s, e) && (e.Confirm? || e.StoreDone? || e.StampDone?) && PassOk(s.jobs, s.confirmed, At(s, e.p))
    ensures PassOk(Next(s, e).jobs, Next(s, e).confirmed, At(Next(s, e), e.p))
  {
  }

  lemma OwnFailure(s: State, e: Event)
    requires Enabled(s, e) && (e.Progress? || e.Fail? || e.StampFailed?) && PassOk(s.jobs, s.confirmed, At(s, e.p))
    ensures PassOk(Next(s, e).jobs, Next(s, e).confirmed, At(Next(s, e), e.p))
  {
  }

  lemma OwnPass(s: State, e: Event)
    requires Enabled(s, e) && Worked(e) && PassOk(s.jobs, s.confirmed, At(s, e.p))
    ensures PassOk(Next(s, e).jobs, Next(s, e).confirmed, At(Next(s, e), e.p))
  {
    match e
    case Claim(_, _, _) => OwnClaim(s, e);
    case Confirm(_, _) => OwnSuccess(s, e);
    case StoreDone(_) => OwnSuccess(s, e);
    case StampDone(_) => OwnSuccess(s, e);
    case Progress(_, _, _) => OwnFailure(s, e);
    case Fail(_, _, _, _, _, _) => OwnFailure(s, e);
    case StampFailed(_) => OwnFailure(s, e);
    case _ =>
  }

  lemma PassKept(s: State, e: Event, p: nat)
    requires WorkInv(s) && Enabled(s, e)
    ensures PassOk(Next(s, e).jobs, Next(s, e).confirmed, At(Next(s, e), p))
  {
    assert PassOk(s.jobs, s.confirmed, At(s, p));
    if !Worked(e) {
      OutsidePass(s, e, p);
    } else if p == e.p {
      OwnPass(s, e);
    } else if At(s, p).Passing? {
      BystanderPass(s, e, p);
    } else {
      assert At(Next(s, e), p) == At(s, p);
    }
  }

  lemma ClaimAccounted(s: State, e: Event)
    requires Enabled(s, e) && e.Claim? && AllAccounted(s.jobs, At(s, e.p))
    ensures AllAccounted(Next(s, e).jobs, At(Next(s, e), e.p))
  {
  }

  lemma OwnAccounted(s: State, e: Event)
    requires Enabled(s, e) && Worked(e) && At(s, e.p) != Idle && PassOk(s.jobs, s.confirmed, At(s, e.p))
    requires AllAccounted(s.jobs, At(s, e.p))
    ensures AllAccounted(Next(s, e).jobs, At(Next(s, e), e.p))
  {
    if e.Claim? {
      ClaimAccounted(s, e);
    } else {
      var t := Next(s, e);
      assert forall j :: 0 <= j < |t.jobs| && t.jobs[j].state == Uploading ==> j < |s.jobs| && s.jobs[j].state == Uploading;
    }
  }

  lemma AccountedKept(s: State, e: Event)
    requires WorkInv(s) && Enabled(s, e) && Next(s, e).lock.Some?
    ensures AllAccounted(Next(s, e).jobs, At(Next(s, e), Next(s, e).lock.value))
  {
    var t := Next(s, e);
    var h := t.lock.value;
    if !Worked(e) {
      assert At(t, h) == At(s, h) && t.lock == s.lock;
      assert forall j :: 0 <= j < |t.jobs| && t.jobs[j].state == Uploading ==> j < |s.jobs| && s.jobs[j].state == Uploading;
    } else {
      assert At(s, e.p) != Idle <==> s.lock == Some(e.p);
      if At(s, e.p) != Idle {
        assert PassOk(s.jobs, s.confirmed, At(s, e.p));
        OwnAccounted(s, e);
      } else {
        assert t.jobs == s.jobs && (At(t, h) == Locked || (s.lock == t.lock && At(t, h) == At(s, h)));
      }
    }
  }

  lemma WorkKept(s: State, e: Event)
    requires WorkInv(s) && Enabled(s, e)
    ensures WorkInv(Next(s, e))
  {
    LockKept(s, e);
    forall p: nat ensures PassOk(Next(s, e).jobs, Next(s, e).confirmed, At(Next(s, e), p)) {
      PassKept(s, e, p);
    }
    if Next(s, e).lock.Some? {
      AccountedKept(s, e);
    }
  }

  // One row of the job table, from one event to the next.
  predicate RowGrows(a: Job, b: Job) {
    b.importedId == a.importedId && b.spec == a.spec && b.localPath == a.localPath && (a.state == Done ==> b.state == Done)
  }

  // What every event preserves about finished jobs.
  ghost predicate Grows(s: State, t: State) {
    && |s.jobs| <= |t.jobs| && |s.imported| <= |t.imported|
    && s.confirmed <= t.confirmed
    && (forall j :: 0 <= j < |s.jobs| ==> RowGrows(s.jobs[j], t.jobs[j]))
    && (forall i :: 0 <= i < |s.imported| ==> t.imported[i].key == s.imported[i].key)
  }

  lemma OwnJobsGrow(s: State, e: Event)
    requires Enabled(s, e) && Worked(e) && PassOk(s.jobs, s.confirmed, At(s, e.p))
    ensures |s.jobs| == |Next(s, e).jobs|
    ensures forall j :: 0 <= j < |s.jobs| ==> RowGrows(s.jobs[j], Next(s, e).jobs[j])
  {
  }

  lemma OtherJobsGrow(s: State, e: Event)
    requires Enabled(s, e) && !Worked(e)
    ensures |s.jobs| <= |Next(s, e).jobs|
    ensures forall j :: 0 <= j < |s.jobs| ==> RowGrows(s.jobs[j], Next(s, e).jobs[j])
  {
  }

  lemma RowsGrow(s: State, e: Event)
    requires Enabled(s, e)
    ensures |s.imported| <= |Next(s, e).imported| && s.confirmed <= Next(s, e).confirmed
    ensures forall i :: 0 <= i < |s.imported| ==> Next(s, e).imported[i].key == s.imported[i].key
  {
  }

  lemma StepGrows(s: State, e: Event)
    requires WorkInv(s) && Enabled(s, e)
    ensures Grows(s, Next(s, e))
  {
    if Worked(e) {
      assert PassOk(s.jobs, s.confirmed, At(s, e.p));
      OwnJobsGrow(s, e);
    } else {
      OtherJobsGrow(s, e);
    }
    RowsGrow(s, e);
  }

  lemma BackedGrows(s: State, t: State, id: nat)
    requires Grows(s, t) && Backed(s, id)
    ensures Backed(t, id)
  {
  }

  // Rows of the two tables: dedup keys stay unique, jobs point at rows, a Done
  // job was confirmed, and the job table is exactly what was enqueued.
  lemma KeysKept(s: State, e: Event)
    requires UniqueKeys(s.imported) && Enabled(s, e)
    ensures UniqueKeys(Next(s, e).imported)
  {
  }

  // Only a commit under Auto or Manual adds a job or a mirrored row.
  lemma OnlyCommitsEnqueue(s: State, e: Event)
    requires Enabled(s, e) && !e.Commit?
    ensures |Next(s, e).jobs| == |s.jobs| && Next(s, e).enqueued == s.enqueued && Next(s, e).mirrored == s.mirrored
  {
  }

  lemma GrowsOn(s: State, t: State, u: State)
    requires Grows(s, t) && Grows(t, u)
    ensures Grows(s, u)
  {
    forall j | 0 <= j < |s.jobs| ensures RowGrows(s.jobs[j], u.jobs[j]) {
      assert RowGrows(s.jobs[j], t.jobs[j]) && RowGrows(t.jobs[j], u.jobs[j]);
    }
  }

  // A drain stands where it stood unless it moves.
  lemma OthersStand(s: State, e: Event, p: nat)
    requires Enabled(s, e) && !(Worked(e) && e.p == p)
    ensures At(Next(s, e), p) == At(s, p)
  {
  }

  lemma OnlyConfirmConfirms(s: State, e: Event)
    requires Enabled(s, e)
    ensures Next(s, e).confirmed == s.confirmed + if e.Confirm? then {e.job} else {}
  {
  }

  // What a commit adds.
  lemma CommitAdds(s: State, e: Event)
    requires e.Commit?
    ensures var t := Next(s, e); var r := Upsert(s.imported, e.key, e.dest, e.hash);
            && t.imported == r.0 && t.deletes == s.deletes
            && t.jobs == (if e.spec.Some? then s.jobs + [NewJob(r.1, e.dest, e.spec.value)] else s.jobs)
            && (e.spec.Some? && e.deferDir.Some? ==>
                  DeleteRow(e.key.serial, e.deferDir.value, e.key.name, e.key.size, e.key.captured, r.1, false) in t.owed)
  {
  }

  lemma JobRowsKept(s: State, e: Event)
    requires Inv(s) && Enabled(s, e)
    ensures var t := Next(s, e);
            && |t.jobs| == t.enqueued
            && (forall j :: 0 <= j < |t.jobs| ==> t.jobs[j].importedId < |t.imported|)
  {
    StepGrows(s, e);
    if e.Commit? {
      assert forall j :: 0 <= j < |s.jobs| ==> Next(s, e).jobs[j] == s.jobs[j];
    } else {
      OnlyCommitsEnqueue(s, e);
      var t := Next(s, e);
      forall j | 0 <= j < |t.jobs| ensures t.jobs[j].importedId < |t.imported| {
        assert t.jobs[j].importedId == s.jobs[j].importedId;
      }
    }
  }

  lemma DoneKept(s: State, e: Event)
    requires WorkInv(s) && Enabled(s, e)
    requires forall j :: 0 <= j < |s.jobs| && s.jobs[j].state == Done ==> j in s.confirmed
    ensures forall j :: 0 <= j < |Next(s, e).jobs| && Next(s, e).jobs[j].state == Done ==> j in Next(s, e).confirmed
  {
    if Worked(e) {
      assert PassOk(s.jobs, s.confirmed, At(s, e.p));
    }
  }

  lemma MirroredKept(s: State, e: Event)
    requires Inv(s) && Enabled(s, e)
    ensures forall id :: id in Next(s, e).mirrored ==>
                           exists j :: 0 <= j < |Next(s, e).jobs| && Next(s, e).jobs[j].importedId == id
  {
    var t := Next(s, e);
    StepGrows(s, e);
    if !e.Commit? {
      OnlyCommitsEnqueue(s, e);
    }
    forall id | id in t.mirrored ensures exists j :: 0 <= j < |t.jobs| && t.jobs[j].importedId == id {
      if id in s.mirrored {
        var j :| 0 <= j < |s.jobs| && s.jobs[j].importedId == id;
        assert t.jobs[j].importedId == id;
      } else {
        assert t.jobs[|s.jobs|].importedId == id;
      }
    }
  }

  lemma RowsStand(s: State, e: Event)
    requires Enabled(s, e) && !e.Commit? && !e.StampDone? && !e.StampFailed?
    ensures Next(s, e).imported == s.imported
  {
  }

  // A status only becomes "done" in the stamp that follows a stored Done.
  lemma NewStatus(s: State, e: Event, i: nat)
    requires Enabled(s, e)
    requires i < |Next(s, e).imported| && Next(s, e).imported[i].cloudStatus == StatusDone
    ensures (i < |s.imported| && s.imported[i].cloudStatus == StatusDone)
            || (e.StampDone? && i == s.jobs[At(s, e.p).stage.job].importedId)
  {
    if e.Commit? {
      CommitAdds(s, e);
    } else if !e.StampDone? && !e.StampFailed? {
      RowsStand(s, e);
    }
  }

  lemma StatusKept(s: State, e: Event)
    requires Inv(s) && Enabled(s, e)
    ensures forall i :: 0 <= i < |Next(s, e).imported| && Next(s, e).imported[i].cloudStatus == StatusDone ==>
                          Backed(Next(s, e), i)
  {
    var t := Next(s, e);
    forall i | 0 <= i < |t.imported| && t.imported[i].cloudStatus == StatusDone ensures Backed(t, i) {
      NewStatus(s, e, i);
      if i < |s.imported| && s.imported[i].cloudStatus == StatusDone {
        StepGrows(s, e);
        BackedGrows(s, t, i);
      } else {
        var j := At(s, e.p).stage.job;
        assert PassOk(s.jobs, s.confirmed, At(s, e.p));
        assert t.jobs[j].importedId == i && t.jobs[j].state == Done && j in t.confirmed;
      }
    }
  }

  lemma TableKept(s: State, e: Event)
    requires Inv(s) && Enabled(s, e)
    ensures TableInv(Next(s, e))
  {
    KeysKept(s, e);
    JobRowsKept(s, e);
    DoneKept(s, e);
    MirroredKept(s, e);
    StatusKept(s, e);
  }

  predicate SameMarkers(a: seq<DeleteRow>, b: seq<DeleteRow>) {
    && |a| <= |b|
    && forall i :: 0 <= i < |a| ==> b[i].(deleted := false) == a[i].(deleted := false)
  }

  lemma MarkersKept(s: State, e: Event)
    requires Enabled(s, e)
    ensures SameMarkers(s.deletes, Next(s, e).deletes)
    ensures forall i :: |s.deletes| <= i < |Next(s, e).deletes| ==> Next(s, e).deletes[i] in s.owed
  {
    if e.ReapClear? || e.ReapMark? {
      assert Next(s, e).deletes == MarkDeleted(s.deletes, ReapOf(s, e.r).due[0]);
    } else if e.InsertMarker? {
      assert Next(s, e).deletes == s.deletes + [e.row];
    } else {
      assert Next(s, e).deletes == s.deletes;
    }
  }

  lemma OwedKept(s: State, e: Event)
    requires Enabled(s, e)
    ensures forall r :: r in Next(s, e).owed ==> r in s.owed || MarkerOk(Next(s, e).imported, r)
  {
  }

  lemma MarkersOk(s: State, e: Event)
    requires Inv(s) && Enabled(s, e)
    ensures forall r :: r in Next(s, e).owed ==> MarkerOk(Next(s, e).imported, r)
    ensures forall i :: 0 <= i < |Next(s, e).deletes| ==> MarkerOk(Next(s, e).imported, Next(s, e).deletes[i])
  {
    StepGrows(s, e);
    MarkersKept(s, e);
    OwedKept(s, e);
    assert forall r :: MarkerOk(s.imported, r) ==> MarkerOk(Next(s, e).imported, r);
    forall i | 0 <= i < |Next(s, e).deletes| ensures MarkerOk(Next(s, e).imported, Next(s, e).deletes[i]) {
      if i < |s.deletes| {
        assert MarkerOk(s.imported, s.deletes[i]);
        assert Next(s, e).deletes[i].(deleted := false) == s.deletes[i].(deleted := false);
      }
    }
  }

  // What a reap has before it, it has just read or had before it already.
  lemma DueComesFrom(s: State, e: Event, r: nat, i: nat)
    requires Enabled(s, e) && i in ReapOf(Next(s, e), r).due
    ensures i in ReapOf(s, r).due
            || (e.ReapQuery? && i < |s.deletes| && DeleteDue(s.deletes[i], s.imported, e.serial))
  {
  }

  lemma ReapingKept(s: State, e: Event, r: nat)
    requires Inv(s) && Enabled(s, e)
    ensures DueOk(Next(s, e), r)
  {
    var t := Next(s, e);
    MarkersKept(s, e);
    StepGrows(s, e);
    assert DueOk(s, r);
    forall i | i in ReapOf(t, r).due ensures i < |t.deletes| && Backed(t, t.deletes[i].importedId) {
      DueComesFrom(s, e, r, i);
      BackedGrows(s, t, s.deletes[i].importedId);
      assert t.deletes[i].(deleted := false) == s.deletes[i].(deleted := false);
    }
  }

  lemma IssueGrows(s: State, t: State, i: Issue)
    requires Grows(s, t) && IssueOk(s, i) && |s.deletes| <= |t.deletes|
    requires t.deletes[i.row].(deleted := false) == s.deletes[i.row].(deleted := false)
    ensures IssueOk(t, i)
  {
  }

  lemma IssuedKept(s: State, e: Event)
    requires Inv(s) && Enabled(s, e)
    ensures forall k :: 0 <= k < |Next(s, e).issued| ==> IssueOk(Next(s, e), Next(s, e).issued[k])
  {
    var t := Next(s, e);
    MarkersKept(s, e);
    StepGrows(s, e);
    forall k | 0 <= k < |t.issued| ensures IssueOk(t, t.issued[k]) {
      if k < |s.issued| {
        assert t.issued[k] == s.issued[k];
        IssueGrows(s, t, s.issued[k]);
      } else {
        assert IssueOk(s, t.issued[k]) by {
          assert DueOk(s, e.r) && ReapOf(s, e.r).due[0] in ReapOf(s, e.r).due;
        }
        IssueGrows(s, t, t.issued[k]);
      }
    }
  }

  lemma ReapKept(s: State, e: Event)
    requires Inv(s) && Enabled(s, e)
    ensures ReapInv(Next(s, e))
  {
    MarkersOk(s, e);
    forall r: nat ensures DueOk(Next(s, e), r) {
      ReapingKept(s, e, r);
    }
    IssuedKept(s, e);
  }

  lemma {:induction false} Kept(s: State, e: Event)
    requires Inv(s) && Enabled(s, e)
    ensures Inv(Next(s, e))
  {
    WorkKept(s, e);
    TableKept(s, e);
    ReapKept(s, e);
  }

  lemma {:induction false} RunKeeps(s: State, es: seq<Event>)
    requires Inv(s) && Legal(s, es)
    ensures Inv(Run(s, es))
    decreases |es|
  {
    if es != [] {
      Kept(s, es[0]);
      RunKeeps(Next(s, es[0]), es[1..]);
    }
  }

  lemma {:induction false} Reachable(es: seq<Event>)
    requires Legal(INIT, es)
    ensures Inv(Run(INIT, es))
  {
    RunKeeps(INIT, es);
  }
}
