/**
  What holds of every history of the cloud queue: one uploader per job, nothing
  stuck after a pass, no job lost, and when the camera reap may delete.
 */
module QueueSafety {
  import opened Wrappers
  import opened Tables
  import opened CloudQueue

  /* ----- uploads ----- */

  lemma OneUploader(es: seq<Event>, p: nat, q: nat)
    requires Legal(INIT, es) && p != q
    ensures var s := Run(INIT, es);
            InFlight(s, p) !! InFlight(s, q) && (At(s, p).Passing? ==> At(s, q) == Idle)
  {
    Reachable(es);
    var s := Run(INIT, es);
    assert At(s, p) != Idle <==> s.lock == Some(p);
    assert At(s, q) != Idle <==> s.lock == Some(q);
  }

  // `run_once` returning Ok: none of its jobs, indeed no job at all, is still
  // in state Uploading.
  lemma PassLeavesNothingUploading(es: seq<Event>, p: nat)
    requires Legal(INIT, es) && Enabled(Run(INIT, es), EndPass(p))
    ensures forall j :: 0 <= j < |Run(INIT, es).jobs| ==> Run(INIT, es).jobs[j].state != Uploading
  {
    Reachable(es);
    var s := Run(INIT, es);
    assert At(s, p) != Idle <==> s.lock == Some(p);
  }

  // The premise of `reclaim_orphaned_uploading` under the lock: nobody is
  // uploading anything at that moment.
  lemma ReclaimHitsOnlyOrphans(es: seq<Event>, p: nat)
    requires Legal(INIT, es) && Enabled(Run(INIT, es), ReclaimUnderLock(p))
    ensures forall q: nat :: InFlight(Run(INIT, es), q) == {}
  {
    Reachable(es);
    var s := Run(INIT, es);
    assert At(s, p) != Idle <==> s.lock == Some(p);
    forall q: nat ensures InFlight(s, q) == {} {
      assert At(s, q) != Idle <==> s.lock == Some(q);
    }
  }

  // The retry decision is taken on a snapshot of the attempt count, which is
  // still the count in the row although the upload ran without any lock on it.
  lemma RetryDecisionIsCurrent(es: seq<Event>, e: Event)
    requires Legal(INIT, es) && e.Fail? && Enabled(Run(INIT, es), e)
    ensures var s := Run(INIT, es);
            GivesUp(s, e) <==> !(e.retryable && s.jobs[e.job].attempts + 1 < e.maxAttempts)
  {
    Reachable(es);
    var s := Run(INIT, es);
    assert PassOk(s.jobs, s.confirmed, At(s, e.p));
  }

  // Drain `p` keeps uploading job `j` all along.
  predicate StaysInFlight(s: State, es: seq<Event>, p: nat, j: nat)
    requires Legal(s, es)
    decreases |es|
  {
    j in InFlight(s, p) && (es == [] || StaysInFlight(Next(s, es[0]), es[1..], p, j))
  }

  lemma FlightOwn(s: State, e: Event, p: nat, j: nat)
    requires Enabled(s, e) && Worked(e) && e.p == p && PassOk(s.jobs, s.confirmed, At(s, p))
    requires j in InFlight(s, p) && j in InFlight(Next(s, e), p)
    ensures j < |s.jobs| == |Next(s, e).jobs| && Next(s, e).jobs[j].state == s.jobs[j].state
  {
  }

  lemma FlightOutside(s: State, e: Event, j: nat)
    requires Enabled(s, e) && !Worked(e) && j < |s.jobs| && Unsettled(s.jobs[j])
    ensures j < |Next(s, e).jobs|
    ensures Next(s, e).jobs[j].state == if e.StartupReclaim? then Queued else s.jobs[j].state
  {
  }

  lemma FlightStep(s: State, e: Event, p: nat, j: nat)
    requires WorkInv(s) && Enabled(s, e) && j in InFlight(s, p) && j in InFlight(Next(s, e), p)
    ensures j < |s.jobs| && j < |Next(s, e).jobs|
    ensures Next(s, e).jobs[j].state == if e.StartupReclaim? then Queued else s.jobs[j].state
  {
    assert PassOk(s.jobs, s.confirmed, At(s, p));
    if !Worked(e) {
      FlightOutside(s, e, j);
    } else if e.p == p {
      FlightOwn(s, e, p, j);
    } else {
      BystanderPass(s, e, p);
    }
  }

  lemma {:induction false} FlightAlong(s: State, es: seq<Event>, p: nat, j: nat)
    requires Inv(s) && Legal(s, es) && StaysInFlight(s, es, p, j)
    ensures j < |s.jobs| && j < |Run(s, es).jobs|
    ensures Run(s, es).jobs[j].state == if StartupReclaim in es then Queued else s.jobs[j].state
    decreases |es|
  {
    if es == [] {
      assert PassOk(s.jobs, s.confirmed, At(s, p));
    } else {
      FlightStep(s, es[0], p, j);
      Kept(s, es[0]);
      FlightAlong(Next(s, es[0]), es[1..], p, j);
      assert StartupReclaim in es <==> es[0] == StartupReclaim || StartupReclaim in es[1..];
    }
  }

  // A drain has just claimed jobs.
  predicate EndsInClaim(es: seq<Event>, p: nat) {
    es != [] && es[|es| - 1].Claim? && es[|es| - 1].p == p
  }

  // The startup reclaim holds no lock, so "in flight implies Uploading" is
  // false: a row in flight is Queued exactly when a startup reclaim has run
  // since its claim.
  lemma {:induction false} FlippedExactlyWhen(es: seq<Event>, p: nat, more: seq<Event>, j: nat)
    requires Legal(INIT, es) && EndsInClaim(es, p)
    requires Legal(Run(INIT, es), more) && StaysInFlight(Run(INIT, es), more, p, j)
    ensures var jobs := Run(Run(INIT, es), more).jobs;
            j < |jobs| && jobs[j].state == if StartupReclaim in more then Queued else Uploading
  {
    Reachable(es);
    JustClaimed(es, p, j);
    FlightAlong(Run(INIT, es), more, p, j);
  }

  lemma JustClaimed(es: seq<Event>, p: nat, j: nat)
    requires Legal(INIT, es) && EndsInClaim(es, p) && j in InFlight(Run(INIT, es), p)
    ensures j < |Run(INIT, es).jobs| && Run(INIT, es).jobs[j].state == Uploading
  {
    var n := |es| - 1;
    var claim := es[n];
    assert es == es[..n] + [claim];
    LegalSplit(INIT, es[..n], [claim]);
    var s := Run(INIT, es[..n]);
    assert Run(INIT, es) == Next(s, claim);
    var ids := DueIds(s.jobs, 0, claim.now, claim.limit);
    assert ids != [] ==> j in ids;
  }

  /* ----- no job is lost ----- */

  function Enqueues(es: seq<Event>): nat {
    if es == [] then 0
    else Enqueues(es[..|es| - 1]) + One(es[|es| - 1].Commit? && es[|es| - 1].spec.Some?)
  }

  lemma {:induction false} EnqueuesCons(e: Event, rest: seq<Event>)
    ensures Enqueues([e] + rest) == One(e.Commit? && e.spec.Some?) + Enqueues(rest)
  {
    if rest != [] {
      assert ([e] + rest)[..|rest|] == [e] + rest[..|rest| - 1];
      EnqueuesCons(e, rest[..|rest| - 1]);
    } else {
      assert [e] + rest == [e] && [e][..0] == [];
    }
  }

  lemma {:induction false} RunEnqueues(s: State, es: seq<Event>)
    requires Legal(s, es)
    ensures Run(s, es).enqueued == s.enqueued + Enqueues(es)
    decreases |es|
  {
    if es != [] {
      RunEnqueues(Next(s, es[0]), es[1..]);
      assert es == [es[0]] + es[1..];
      EnqueuesCons(es[0], es[1..]);
    }
  }

  // Every job ever enqueued is Done, pending or given up; and a row committed
  // under Auto or Manual has a job.
  lemma NoJobLost(es: seq<Event>)
    requires Legal(INIT, es)
    ensures var s := Run(INIT, es);
            && DoneCount(s.jobs) + PendingCount(s.jobs) + FailedCount(s.jobs) == Enqueues(es)
            && forall id :: id in s.mirrored ==> exists j :: 0 <= j < |s.jobs| && s.jobs[j].importedId == id
  {
    Reachable(es);
    RunEnqueues(INIT, es);
    CountsPartition(Run(INIT, es).jobs);
  }

  lemma {:induction false} GrowsAlong(s: State, es: seq<Event>)
    requires Inv(s) && Legal(s, es)
    ensures Grows(s, Run(s, es))
    decreases |es|
  {
    if es != [] {
      StepGrows(s, es[0]);
      Kept(s, es[0]);
      GrowsAlong(Next(s, es[0]), es[1..]);
    }
  }

  // No event whatsoever takes a job out of Done.
  lemma DoneForever(es: seq<Event>, more: seq<Event>, j: nat)
    requires Legal(INIT, es) && Legal(Run(INIT, es), more)
    requires j < |Run(INIT, es).jobs| && Run(INIT, es).jobs[j].state == Done
    ensures var t := Run(Run(INIT, es), more); j < |t.jobs| && t.jobs[j].state == Done && j in t.confirmed
  {
    Reachable(es);
    GrowsAlong(Run(INIT, es), more);
    RunKeeps(Run(INIT, es), more);
  }

  /* ----- camera deletes ----- */

  // Every delete the reap ever sent named a listed file with the size and
  // capture time of its marker, whose dedup key is that of an imported row with
  // a Done job that the uploader confirmed.
  lemma CameraDeletesAreBacked(es: seq<Event>, k: nat)
    requires Legal(INIT, es) && k < |Run(INIT, es).issued|
    ensures var s := Run(INIT, es); var i := s.issued[k];
            && i.row < |s.deletes|
            && var row := s.deletes[i.row];
            && i.media == Media(row.dir, row.name, row.size, row.captured)
            && row.importedId < |s.imported|
            && s.imported[row.importedId].key == Key(row.serial, i.media.name, i.media.size, i.media.captured)
            && Backed(s, row.importedId)
  {
    Reachable(es);
    var s := Run(INIT, es);
    assert IssueOk(s, s.issued[k]);
    assert MarkerOk(s.imported, s.deletes[s.issued[k].row]);
  }

  // A reap query reads every undeleted marker of its camera whose row is marked
  // done, and whatever it reads names its recording's row, which has a Done job
  // that the uploader confirmed.
  lemma ReapReadsBackedRows(es: seq<Event>, p: nat, serial: string, r: nat)
    requires Legal(INIT, es)
    ensures var s := Run(INIT, es);
            r in ReapOf(Next(s, ReapQuery(p, serial)), p).due
            <==> r < |s.deletes| && DeleteDue(s.deletes[r], s.imported, serial)
                 && s.imported[s.deletes[r].importedId].key
                    == Key(serial, s.deletes[r].name, s.deletes[r].size, s.deletes[r].captured)
                 && Backed(s, s.deletes[r].importedId)
  {
    Reachable(es);
    var s := Run(INIT, es);
    if r < |s.deletes| && DeleteDue(s.deletes[r], s.imported, serial) {
      assert MarkerOk(s.imported, s.deletes[r]);
      assert Backed(s, s.deletes[r].importedId);
    }
  }

  // "No commit re-records a key": what a caller can check before committing.
  predicate NeverRerecords(s: State, es: seq<Event>)
    requires Legal(s, es)
    decreases |es|
  {
    es == [] || ((es[0].Commit? ==> FindKey(s.imported, es[0].key).None?) && NeverRerecords(Next(s, es[0]), es[1..]))
  }

  predicate SoleJobs(s: State) {
    forall i, j :: 0 <= i < j < |s.jobs| ==> s.jobs[i].importedId != s.jobs[j].importedId
  }

  lemma SoleKept(s: State, e: Event)
    requires Inv(s) && SoleJobs(s) && Enabled(s, e)
    requires e.Commit? ==> FindKey(s.imported, e.key).None?
    ensures SoleJobs(Next(s, e))
  {
    StepGrows(s, e);
    if !e.Commit? {
      OnlyCommitsEnqueue(s, e);
    }
  }

  lemma {:induction false} SoleAlong(s: State, es: seq<Event>)
    requires Inv(s) && SoleJobs(s) && Legal(s, es) && NeverRerecords(s, es)
    ensures SoleJobs(Run(s, es))
    decreases |es|
  {
    if es != [] {
      SoleKept(s, es[0]);
      Kept(s, es[0]);
      SoleAlong(Next(s, es[0]), es[1..]);
    }
  }

  // If no commit re-records a key, a delete is only ever sent after every job
  // of the deleted recording's row is Done and confirmed ...
  lemma DistinctKeysNeverDeleteEarly(es: seq<Event>, k: nat, j: nat)
    requires Legal(INIT, es) && NeverRerecords(INIT, es)
    requires k < |Run(INIT, es).issued| && j < |Run(INIT, es).jobs|
    requires Run(INIT, es).issued[k].row < |Run(INIT, es).deletes|
    requires Run(INIT, es).jobs[j].importedId == Run(INIT, es).deletes[Run(INIT, es).issued[k].row].importedId
    ensures Run(INIT, es).jobs[j].state == Done && j in Run(INIT, es).confirmed
  {
    var s := Run(INIT, es);
    CameraDeletesAreBacked(es, k);
    SoleAlong(INIT, es);
    var id := s.jobs[j].importedId;
    var b :| 0 <= b < |s.jobs| && s.jobs[b].importedId == id && s.jobs[b].state == Done && b in s.confirmed;
    assert b == j;
  }

  // ... and for any key shared by two directories of one card it can be sent
  // early: B's original goes although B's own upload has not even started,
  // because both files share one imported row, already marked done by A.
  lemma SharedKeyDeletesEarly(key: Key, dirA: string, dirB: string, spec: JobSpec) returns (es: seq<Event>)
    requires dirA != dirB
    ensures Legal(INIT, es)
    ensures var s := Run(INIT, es);
            && |s.issued| == 1 && s.issued[0].media == Media(dirB, key.name, key.size, key.captured)
            && |s.jobs| == 2 && s.jobs[1].localPath == "b" && s.jobs[1].state == Queued && 1 !in s.confirmed
            && s.issued[0].row < |s.deletes| && s.deletes[s.issued[0].row].importedId == s.jobs[1].importedId
  {
    var rowA := MarkerFor(key, dirA);
    var rowB := MarkerFor(key, dirB);
    var onCard := [Media(dirB, key.name, key.size, key.captured)];
    var s;
    es, s := FirstFileMirrored(key, dirA, spec);
    es, s := Extend(es, s, Commit(key, "b", None, Some(spec), Some(dirB)));
    assert s.imported[0].cloudStatus == StatusDone && |s.imported| == 1;
    assert s.jobs[1] == NewJob(0, "b", spec) && |s.jobs| == 2 && s.confirmed == {0} && s.owed == {rowB};
    es, s := Extend(es, s, InsertMarker(rowB));
    assert s.deletes == [rowA, rowB];
    es, s := QueryTwo(es, s, rowA, rowB);
    es, s := ReapSecond(es, s, rowA, rowB, onCard[0]);
  }

  // The file of the first marker is gone from the card, that of the second is
  // still there.
  lemma ReapSecond(es: seq<Event>, s: State, a: DeleteRow, b: DeleteRow, m: Media) returns (es': seq<Event>, s': State)
    requires Legal(INIT, es) && s == Run(INIT, es)
    requires s.deletes == [a, b] && ReapOf(s, 0) == Reap([0, 1], false) && s.issued == []
    requires m == Media(b.dir, b.name, b.size, b.captured) && a.dir != b.dir
    ensures Legal(INIT, es') && s' == Run(INIT, es') && s'.issued == [Issue(1, m)]
    ensures s'.jobs == s.jobs && s'.confirmed == s.confirmed && |s'.deletes| == 2 && s'.deletes[1] == b
  {
    es', s' := Extend(es, s, ReapClear(0, [m]));
    assert ReapOf(s', 0) == Reap([1], false) && s'.deletes[1] == b;
    es', s' := Extend(es', s', ReapDelete(0, [m], Deleted200));
  }

  function MarkerFor(key: Key, dir: string): DeleteRow {
    DeleteRow(key.serial, dir, key.name, key.size, key.captured, 0, false)
  }

  lemma FirstFileMirrored(key: Key, dir: string, spec: JobSpec) returns (es: seq<Event>, s: State)
    ensures Legal(INIT, es) && s == Run(INIT, es)
    ensures |s.imported| == 1 && s.imported[0].key == key && s.imported[0].cloudStatus == StatusDone
    ensures |s.jobs| == 1 && s.confirmed == {0} && s.deletes == [MarkerFor(key, dir)] && s.owed == {}
    ensures s.issued == []
  {
    es, s := FirstFileClaimed(key, dir, spec);
    assert Joins(s, 0, 0);
    es, s := Extend(es, s, Confirm(0, 0));
    es, s := Extend(es, s, StoreDone(0));
    es, s := Extend(es, s, StampDone(0));
  }

  lemma FirstFileClaimed(key: Key, dir: string, spec: JobSpec) returns (es: seq<Event>, s: State)
    ensures Legal(INIT, es) && s == Run(INIT, es)
    ensures |s.imported| == 1 && s.imported[0].key == key && s.deletes == [MarkerFor(key, dir)] && s.owed == {}
    ensures |s.jobs| == 1 && s.jobs[0].importedId == 0 && s.confirmed == {}
    ensures s.issued == []
    ensures At(s, 0).Passing? && At(s, 0).inFlight.Keys == {0} && At(s, 0).stage == Joining
  {
    es, s := Extend([], INIT, Commit(key, "a", None, Some(spec), Some(dir)));
    es, s := Extend(es, s, InsertMarker(MarkerFor(key, dir)));
    assert s.jobs == [NewJob(0, "a", spec)] && s.deletes == [MarkerFor(key, dir)];
    es, s := StartPass(es, s, NewJob(0, "a", spec));
  }

  lemma StartPass(es: seq<Event>, s: State, job: Job) returns (es': seq<Event>, s': State)
    requires Legal(INIT, es) && s == Run(INIT, es)
    requires s.jobs == [job] && job.state == Queued && s.workers == map[] && s.lock.None?
    ensures Legal(INIT, es') && s' == Run(INIT, es')
    ensures At(s', 0).Passing? && At(s', 0).inFlight.Keys == {0} && At(s', 0).stage == Joining
    ensures s' == s.(jobs := [job.(state := Uploading)], workers := s'.workers, lock := Some(0))
  {
    es', s' := Extend(es, s, TryLock(0));
    es', s' := Extend(es', s', ReclaimUnderLock(0));
    assert s'.jobs == [job];
    assert DueIds([job], 1, 0, 0) == [];
    assert DueIds([job], 0, 0, 1) == [0];
    es', s' := Extend(es', s', Claim(0, 0, 1));
  }

  lemma QueryTwo(es: seq<Event>, s: State, a: DeleteRow, b: DeleteRow) returns (es': seq<Event>, s': State)
    requires Legal(INIT, es) && s == Run(INIT, es) && s.deletes == [a, b] && a.serial == b.serial
    requires DeleteDue(a, s.imported, a.serial) && DeleteDue(b, s.imported, a.serial)
    ensures Legal(INIT, es') && s' == Run(INIT, es') && s' == s.(reaps := s.reaps[0 := Reap([0, 1], false)])
  {
    es', s' := Extend(es, s, ReapQuery(0, a.serial));
    assert DueDeletes(s.deletes, s.imported, a.serial, 2) == [];
    assert DueDeletes(s.deletes, s.imported, a.serial, 1) == [1];
    assert DueDeletes(s.deletes, s.imported, a.serial, 0) == [0] + [1] == [0, 1];
    assert s'.reaps[0] == Reap([0, 1], false);
  }

  lemma Extend(es: seq<Event>, s: State, e: Event) returns (es': seq<Event>, s': State)
    requires Legal(INIT, es) && s == Run(INIT, es) && Enabled(s, e)
    ensures es' == es + [e] && Legal(INIT, es') && s' == Run(INIT, es') && s' == Next(s, e)
  {
    LegalAppend(INIT, es, e);
    es', s' := es + [e], Next(s, e);
  }

  /* ----- the crash between `mark_job_done` and `set_cloud_status` ----- */

  predicate AllDone(s: State, id: nat) {
    && (exists j :: 0 <= j < |s.jobs| && s.jobs[j].importedId == id)
    && (forall j :: 0 <= j < |s.jobs| && s.jobs[j].importedId == id ==> s.jobs[j].state == Done)
  }

  // Drain `p` has stored Done for a job of the row and is about to stamp it.
  predicate AboutToStamp(s: State, p: nat, id: nat) {
    && At(s, p).Passing? && At(s, p).stage.MarkedDone? && At(s, p).stage.job < |s.jobs|
    && s.jobs[At(s, p).stage.job].importedId == id
  }

  // The row's uploads are all over, yet it is not marked done and nobody is
  // about to mark it.
  ghost predicate Stranded(s: State, id: nat) {
    && id < |s.imported| && s.imported[id].cloudStatus != StatusDone && AllDone(s, id)
    && forall p: nat :: !AboutToStamp(s, p, id)
  }

  lemma StillAllDone(s: State, e: Event, id: nat)
    requires WorkInv(s) && Enabled(s, e) && id < |s.imported|
    requires AllDone(Next(s, e), id) && forall p: nat :: !AboutToStamp(Next(s, e), p, id)
    ensures AllDone(s, id)
  {
    StepGrows(s, e);
    SameJobCount(s, e, id);
    var t := Next(s, e);
    forall j | 0 <= j < |s.jobs| && s.jobs[j].importedId == id ensures s.jobs[j].state == Done {
      assert RowGrows(s.jobs[j], t.jobs[j]);
      if s.jobs[j].state != Done {
        NewDone(s, e, j);
      }
    }
    var j :| 0 <= j < |s.jobs| && j < |t.jobs| && t.jobs[j].importedId == id;
    assert RowGrows(s.jobs[j], t.jobs[j]);
  }

  // A commit that queues a job for the row leaves it with a job that is not Done.
  lemma SameJobCount(s: State, e: Event, id: nat)
    requires Enabled(s, e) && AllDone(Next(s, e), id)
    ensures exists j :: 0 <= j < |s.jobs| && j < |Next(s, e).jobs| && Next(s, e).jobs[j].importedId == id
  {
    var t := Next(s, e);
    if !e.Commit? {
      OnlyCommitsEnqueue(s, e);
    }
    var j :| 0 <= j < |t.jobs| && t.jobs[j].importedId == id;
    assert t.jobs[j].state == Done;
  }

  // A job becomes Done only when its drain stores it.
  lemma NewDone(s: State, e: Event, j: nat)
    requires WorkInv(s) && Enabled(s, e) && j < |s.jobs| && s.jobs[j].state != Done
    requires j < |Next(s, e).jobs| && Next(s, e).jobs[j].state == Done
    ensures exists p: nat :: AboutToStamp(Next(s, e), p, Next(s, e).jobs[j].importedId)
  {
    if Worked(e) {
      assert PassOk(s.jobs, s.confirmed, At(s, e.p));
      assert AboutToStamp(Next(s, e), e.p, Next(s, e).jobs[j].importedId);
    }
  }

  // A row marked done is never unmarked while all its jobs are Done.
  lemma StillUnmarked(s: State, e: Event, id: nat)
    requires WorkInv(s) && Enabled(s, e) && id < |s.imported| && AllDone(s, id)
    requires Next(s, e).imported[id].cloudStatus != StatusDone
    ensures s.imported[id].cloudStatus != StatusDone
  {
    if e.StampFailed? {
      assert PassOk(s.jobs, s.confirmed, At(s, e.p));
    }
  }

  // A row gets stranded in exactly one way: a crash between the two writes that
  // follow an upload, when no job of the row is left to be stored as Done.
  lemma StrandsExactlyWhen(es: seq<Event>, e: Event, id: nat)
    requires Legal(INIT, es) && Enabled(Run(INIT, es), e)
    ensures var s := Run(INIT, es);
            !Stranded(s, id) && Stranded(Next(s, e), id)
            <==> e.Crash? && AboutToStamp(s, e.p, id) && AllDone(s, id)
                 && id < |s.imported| && s.imported[id].cloudStatus != StatusDone
  {
    Reachable(es);
    var s := Run(INIT, es);
    var t := Next(s, e);
    if e.Crash? && AboutToStamp(s, e.p, id) && AllDone(s, id) && id < |s.imported| {
      forall p: nat ensures !AboutToStamp(t, p, id) {
        assert At(s, p) != Idle <==> s.lock == Some(p);
        assert At(s, e.p) != Idle <==> s.lock == Some(e.p);
      }
    }
    if !Stranded(s, id) && Stranded(t, id) {
      RowExisted(s, e, id);
      StillAllDone(s, e, id);
      StillUnmarked(s, e, id);
      var p: nat :| AboutToStamp(s, p, id);
      StampOrCrash(s, e, p, id);
    }
  }

  lemma RowExisted(s: State, e: Event, id: nat)
    requires Inv(s) && Enabled(s, e) && AllDone(Next(s, e), id)
    ensures id < |s.imported|
  {
    var t := Next(s, e);
    var j :| 0 <= j < |t.jobs| && t.jobs[j].importedId == id;
    assert t.jobs[j].state == Done;
    StepGrows(s, e);
    if j < |s.jobs| {
      assert s.jobs[j].importedId == id;
    } else if !e.Commit? {
      OnlyCommitsEnqueue(s, e);
    }
  }

  lemma StampOrCrash(s: State, e: Event, p: nat, id: nat)
    requires WorkInv(s) && Enabled(s, e) && AboutToStamp(s, p, id) && id < |s.imported|
    requires !AboutToStamp(Next(s, e), p, id) && Next(s, e).imported[id].cloudStatus != StatusDone
    ensures e == Crash(p)
  {
    StepGrows(s, e);
    if !(Worked(e) && e.p == p) {
      OthersStand(s, e, p);
    }
  }

  lemma StrandedStatus(s: State, e: Event, id: nat)
    requires Inv(s) && Enabled(s, e) && Stranded(s, id)
    ensures id < |Next(s, e).imported| && Next(s, e).imported[id].cloudStatus != StatusDone
  {
    StepGrows(s, e);
    assert e.StampDone? ==> !AboutToStamp(s, e.p, id);
    if Next(s, e).imported[id].cloudStatus == StatusDone {
      NewStatus(s, e, id);
    }
  }

  lemma StrandedJobs(s: State, e: Event, id: nat)
    requires Inv(s) && Enabled(s, e) && Stranded(s, id)
    requires e.Commit? ==> e.key != s.imported[id].key
    ensures AllDone(Next(s, e), id)
  {
    StepGrows(s, e);
    if !e.Commit? {
      OnlyCommitsEnqueue(s, e);
    }
    var k :| 0 <= k < |s.jobs| && s.jobs[k].importedId == id;
    assert Next(s, e).jobs[k].importedId == id;
    forall j | 0 <= j < |Next(s, e).jobs| && Next(s, e).jobs[j].importedId == id ensures Next(s, e).jobs[j].state == Done {
      if j < |s.jobs| {
        assert s.jobs[j].importedId == id;
      }
    }
  }

  lemma StageComesFrom(s: State, e: Event, p: nat)
    requires Enabled(s, e) && At(Next(s, e), p).Passing? && At(Next(s, e), p).stage.MarkedDone?
    ensures e == StoreDone(p) || At(Next(s, e), p) == At(s, p)
    ensures e == StoreDone(p) ==> At(s, p).stage.Confirmed? && At(Next(s, e), p).stage.job == At(s, p).stage.job
  {
  }

  lemma StrandedStages(s: State, e: Event, id: nat, p: nat)
    requires Inv(s) && Enabled(s, e) && Stranded(s, id)
    ensures !AboutToStamp(Next(s, e), p, id)
  {
    StepGrows(s, e);
    assert PassOk(s.jobs, s.confirmed, At(s, p)) && !AboutToStamp(s, p, id);
    assert e == StoreDone(p) ==> Unsettled(s.jobs[At(s, p).stage.job]);
    if AboutToStamp(Next(s, e), p, id) {
      StageComesFrom(s, e, p);
    }
  }

  // A stranded row stays stranded until its key is committed again: the delay
  // of its camera delete is not bounded by any number of further drains.
  lemma {:induction false} StrandedForGood(s: State, es: seq<Event>, id: nat)
    requires Inv(s) && Legal(s, es) && Stranded(s, id)
    requires forall i :: 0 <= i < |es| && es[i].Commit? ==> es[i].key != s.imported[id].key
    ensures Stranded(Run(s, es), id)
    decreases |es|
  {
    if es != [] {
      StrandedStatus(s, es[0], id);
      StrandedJobs(s, es[0], id);
      forall p: nat ensures !AboutToStamp(Next(s, es[0]), p, id) {
        StrandedStages(s, es[0], id, p);
      }
      StepGrows(s, es[0]);
      Kept(s, es[0]);
      StrandedForGood(Next(s, es[0]), es[1..], id);
    }
  }
}
