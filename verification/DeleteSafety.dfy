/**
  When a camera original can be deleted although an upload queued for its row is
  not finished: exactly which tables and processes allow it, short of new commits.
 */
module DeleteSafety {
  import opened Wrappers
  import opened Tables
  import opened CloudStore
  import opened QueueSafety
  import opened StoreSafety
  import Q = CloudQueue

  predicate Unfinished(s: Q.State, id: nat, j: nat) {
    j < |s.jobs| && s.jobs[j].importedId == id && s.jobs[j].state != Done
  }

  // Reap `r` has read marker `k` and has it, still unanswered, at place `n`.
  predicate Waits(s: Q.State, k: nat, r: nat, n: nat) {
    var reap := Q.ReapOf(s, r);
    n < |reap.due| && reap.due[n] == k && (n == 0 ==> !reap.answered)
  }

  predicate MarkedDone(s: Q.State, id: nat) {
    id < |s.imported| && s.imported[id].cloudStatus == StatusDone
  }

  // The reap lets the marker through now, or will as soon as a drain has stamped
  // the row.
  ghost predicate Released(s: Q.State, k: nat)
    requires k < |s.deletes|
  {
    || (exists r: nat, n: nat :: Waits(s, k, r, n))
    || (!s.deletes[k].deleted
        && (MarkedDone(s, s.deletes[k].importedId) || exists p: nat :: AboutToStamp(s, p, s.deletes[k].importedId)))
  }

  // A job of the marker's row is unfinished, and the marker is released all the
  // same or will be by another unfinished job of the row.
  ghost predicate MayGoEarly(s: Q.State, k: nat)
    requires k < |s.deletes|
  {
    exists j: nat :: Unfinished(s, s.deletes[k].importedId, j) && (Released(s, k) || Rivalled(s, k, j))
  }

  ghost predicate Rivalled(s: Q.State, k: nat, j: nat)
    requires k < |s.deletes|
  {
    !s.deletes[k].deleted && exists i: nat :: i != j && Unfinished(s, s.deletes[k].importedId, i)
  }

  // Step `e` sends the delete of marker `k` with a job of its row unfinished.
  ghost predicate DeletesEarly(s: Store, e: Step, k: nat) {
    && e.Table? && e.e.ReapDelete? && Enabled(s, e) && Q.ReapOf(s.q, e.e.r).due[0] == k
    && k < |s.q.deletes| && exists j: nat :: Unfinished(s.q, s.q.deletes[k].importedId, j)
  }

  ghost predicate GoesEarly(s: Store, k: nat) {
    exists more: seq<Step>, e: Step :: Legal(s, more) && NoRecords(more) && DeletesEarly(Run(s, more), e, k)
  }

  /* ----- it never goes early otherwise ----- */

  lemma UnfinishedBefore(s: Q.State, e: Q.Event, id: nat, j: nat)
    requires Q.WorkInv(s) && Q.Enabled(s, e) && !e.Commit? && Unfinished(Q.Next(s, e), id, j)
    ensures Unfinished(s, id, j)
  {
    Q.StepGrows(s, e);
    Q.OnlyCommitsEnqueue(s, e);
    assert Q.RowGrows(s.jobs[j], Q.Next(s, e).jobs[j]);
  }

  lemma MarkerBefore(s: Q.State, e: Q.Event, k: nat)
    requires Q.Enabled(s, e) && k < |s.deletes|
    ensures var t := Q.Next(s, e);
            k < |t.deletes| && t.deletes[k].importedId == s.deletes[k].importedId && (s.deletes[k].deleted ==> t.deletes[k].deleted)
  {
    Q.MarkersKept(s, e);
    var row := s.deletes[k].(deleted := false);
    assert row == Q.Next(s, e).deletes[k].(deleted := false);
    assert row.importedId == Q.Next(s, e).deletes[k].importedId;
  }

  lemma WaitsBefore(s: Q.State, e: Q.Event, k: nat, r: nat, n: nat) returns (m: nat)
    requires Q.Enabled(s, e) && Waits(Q.Next(s, e), k, r, n)
    ensures Waits(s, k, r, m) || (e.ReapQuery? && k < |s.deletes| && DeleteDue(s.deletes[k], s.imported, e.serial))
  {
    var past := (e.ReapClear? || e.ReapMark? || (e.ReapDelete? && e.reply.OtherError?)) && e.r == r;
    m := if past then n + 1 else n;
  }

  lemma StampBefore(s: Q.State, e: Q.Event, p: nat, id: nat)
    requires Q.Inv(s) && Q.Enabled(s, e) && !e.Commit? && AboutToStamp(Q.Next(s, e), p, id)
    ensures AboutToStamp(s, p, id)
            || (exists i: nat :: Unfinished(s, id, i) && !Unfinished(Q.Next(s, e), id, i))
  {
    var t := Q.Next(s, e);
    Q.StepGrows(s, e);
    Q.OnlyCommitsEnqueue(s, e);
    var i := Q.At(t, p).stage.job;
    assert Q.RowGrows(s.jobs[i], t.jobs[i]);
    if e.StoreDone? && e.p == p {
      assert Q.PassOk(s.jobs, s.confirmed, Q.At(s, p));
      assert Unfinished(s, id, i) && !Unfinished(t, id, i);
    }
  }

  lemma ReleasedBefore(s: Q.State, e: Q.Event, k: nat)
    requires Q.Inv(s) && Q.Enabled(s, e) && !e.Commit? && k < |s.deletes| && k < |Q.Next(s, e).deletes|
    requires Released(Q.Next(s, e), k)
    ensures Released(s, k)
            || (!s.deletes[k].deleted
                && exists i: nat :: Unfinished(s, s.deletes[k].importedId, i) && !Unfinished(Q.Next(s, e), s.deletes[k].importedId, i))
  {
    var t, id := Q.Next(s, e), s.deletes[k].importedId;
    MarkerBefore(s, e, k);
    if r: nat, n: nat :| Waits(t, k, r, n) {
      var m := WaitsBefore(s, e, k, r, n);
    } else if MarkedDone(t, id) {
      Q.NewStatus(s, e, id);
      assert MarkedDone(s, id) || AboutToStamp(s, e.p, id);
    } else {
      var p: nat :| AboutToStamp(t, p, id);
      StampBefore(s, e, p, id);
    }
  }

  lemma StaysSafe(s: Q.State, e: Q.Event, k: nat)
    requires Q.Inv(s) && Q.Enabled(s, e) && !e.Commit? && k < |s.deletes|
    ensures k < |Q.Next(s, e).deletes| && (MayGoEarly(Q.Next(s, e), k) ==> MayGoEarly(s, k))
  {
    var t, id := Q.Next(s, e), s.deletes[k].importedId;
    MarkerBefore(s, e, k);
    if MayGoEarly(t, k) {
      var j: nat :| Unfinished(t, id, j) && (Released(t, k) || Rivalled(t, k, j));
      UnfinishedBefore(s, e, id, j);
      if Released(t, k) {
        ReleasedBefore(s, e, k);
      } else {
        var i: nat :| i != j && Unfinished(t, id, i);
        UnfinishedBefore(s, e, id, i);
      }
    }
  }

  lemma {:induction false} SafeAlong(s: Store, more: seq<Step>, k: nat)
    requires StoreInv(s) && Legal(s, more) && NoRecords(more) && k < |s.q.deletes| && !MayGoEarly(s.q, k)
    ensures k < |Run(s, more).q.deletes| && !MayGoEarly(Run(s, more).q, k)
    decreases |more|
  {
    if more != [] {
      StoreKept(s, more[0]);
      StepsTables(s, more[0]);
      if Statement(more[0]) != [] {
        StaysSafe(s.q, Statement(more[0])[0], k);
      }
      SafeAlong(Next(s, more[0]), more[1..], k);
    }
  }

  /* ----- and otherwise it can ----- */

  lemma EarlyAt(s: Store, more: seq<Step>, t: Store, e: Step, k: nat)
    requires Legal(s, more) && NoRecords(more) && t == Run(s, more) && DeletesEarly(t, e, k)
    ensures GoesEarly(s, k)
  {
  }

  lemma GoesAfter(s: Store, es: seq<Step>, k: nat)
    requires Legal(s, es) && NoRecords(es) && GoesEarly(Run(s, es), k)
    ensures GoesEarly(s, k)
  {
    var t := Run(s, es);
    var more: seq<Step>, e: Step :| Legal(t, more) && NoRecords(more) && DeletesEarly(Run(t, more), e, k);
    LegalJoin(s, es, more);
    EarlyAt(s, es + more, Run(t, more), e, k);
  }

  lemma GoesNext(s: Store, e: Step, k: nat)
    requires Enabled(s, e) && !e.Record? && GoesEarly(Next(s, e), k)
    ensures GoesEarly(s, k)
  {
    Chain(s, e, []);
    GoesAfter(s, [e] + [], k);
  }

  lemma FrontExists(s: Q.State, r: nat)
    requires Q.Inv(s) && Q.ReapOf(s, r).due != []
    ensures Q.AtMarker(s, r)
  {
    assert Q.DueOk(s, r) && Q.ReapOf(s, r).due[0] in Q.ReapOf(s, r).due;
  }

  lemma FrontGoes(s: Store, k: nat, r: nat, j: nat)
    requires Q.AtMarker(s.q, r) && Waits(s.q, k, r, 0) && Unfinished(s.q, s.q.deletes[k].importedId, j)
    ensures GoesEarly(s, k)
  {
    var row := s.q.deletes[k];
    var e := Table(Q.ReapDelete(r, [Q.Media(row.dir, row.name, row.size, row.captured)], Q.Deleted200));
    assert DeletesEarly(Run(s, []), e, k);
  }

  // What is before the marker is cleared.
  function Skip(s: Q.State, r: nat): Q.Event {
    if Q.ReapOf(s, r).answered then Q.ReapMark(r) else Q.ReapClear(r, [])
  }

  lemma SkipGains(s: Q.State, k: nat, r: nat, n: nat, m: nat)
    requires Q.AtMarker(s, r) && Waits(s, k, r, n) && n == m + 1 && k < |s.deletes|
    ensures Q.Enabled(s, Skip(s, r))
    ensures var t := Q.Next(s, Skip(s, r));
            && Waits(t, k, r, m) && t.jobs == s.jobs
            && k < |t.deletes| && t.deletes[k].importedId == s.deletes[k].importedId
  {
  }

  lemma Skipped(s: Store, k: nat, r: nat, n: nat, m: nat) returns (e: Step)
    requires StoreInv(s) && Waits(s.q, k, r, n) && n == m + 1 && k < |s.q.deletes|
    ensures Enabled(s, e) && !e.Record? && StoreInv(Next(s, e))
    ensures var t := Next(s, e).q;
            && Waits(t, k, r, m) && t.jobs == s.q.jobs
            && k < |t.deletes| && t.deletes[k].importedId == s.q.deletes[k].importedId
  {
    FrontExists(s.q, r);
    SkipGains(s.q, k, r, n, m);
    e := Table(Skip(s.q, r));
    StoreKept(s, e);
  }

  // The reap comes to the marker, clearing whatever is before it.
  lemma {:induction false} ReapsOn(s: Store, k: nat, r: nat, n: nat, j: nat)
    requires StoreInv(s) && k < |s.q.deletes| && Waits(s.q, k, r, n) && Unfinished(s.q, s.q.deletes[k].importedId, j)
    ensures GoesEarly(s, k)
    decreases n
  {
    if n == 0 {
      FrontExists(s.q, r);
      FrontGoes(s, k, r, j);
    } else {
      var e := Skipped(s, k, r, n, n - 1);
      ReapsOn(Next(s, e), k, r, n - 1, j);
      GoesNext(s, e, k);
    }
  }

  lemma QueryReads(s: Store, k: nat, j: nat)
    requires StoreInv(s) && k < |s.q.deletes| && !s.q.deletes[k].deleted && MarkedDone(s.q, s.q.deletes[k].importedId)
    requires Unfinished(s.q, s.q.deletes[k].importedId, j)
    ensures GoesEarly(s, k)
  {
    var e := Table(Q.ReapQuery(0, s.q.deletes[k].serial));
    var t := Next(s, e);
    StoreKept(s, e);
    var due := DueDeletes(s.q.deletes, s.q.imported, s.q.deletes[k].serial, 0);
    assert k in due && Q.ReapOf(t.q, 0) == Q.Reap(due, false);
    var n: nat :| n < |due| && due[n] == k;
    assert Waits(t.q, k, 0, n);
    ReapsOn(t, k, 0, n, j);
    GoesNext(s, e, k);
  }

  // A drain about to stamp the row may first have a card file to deal with.
  lemma StampComes(s: Store, k: nat, p: nat, j: nat)
    requires StoreInv(s) && k < |s.q.deletes| && !s.q.deletes[k].deleted && AboutToStamp(s.q, p, s.q.deletes[k].importedId)
    requires Unfinished(s.q, s.q.deletes[k].importedId, j)
    ensures GoesEarly(s, k)
  {
    if p in s.freeing {
      var e := Free(p, false, false);
      assert FreeingOk(s, p);
      StoreKept(s, e);
      Stamped(Next(s, e), k, p, j);
      GoesNext(s, e, k);
    } else {
      Stamped(s, k, p, j);
    }
  }

  lemma Stamped(s: Store, k: nat, p: nat, j: nat)
    requires StoreInv(s) && k < |s.q.deletes| && !s.q.deletes[k].deleted && AboutToStamp(s.q, p, s.q.deletes[k].importedId)
    requires Unfinished(s.q, s.q.deletes[k].importedId, j) && p !in s.freeing
    ensures GoesEarly(s, k)
  {
    var e := Table(Q.StampDone(p));
    StoreKept(s, e);
    QueryReads(Next(s, e), k, j);
    GoesNext(s, e, k);
  }

  // Two unfinished jobs: all drains die, one starts afresh and finishes one.
  lemma OneOfTwoComes(s: Store, k: nat, i: nat, j: nat)
    requires StoreInv(s) && k < |s.q.deletes| && !s.q.deletes[k].deleted && i != j
    requires Unfinished(s.q, s.q.deletes[k].importedId, i) && Unfinished(s.q, s.q.deletes[k].importedId, j)
    ensures GoesEarly(s, k)
  {
    var es, t := BothReady(s, i, j);
    StoreKeeps(s, es);
    assert t.q.jobs[i].state != Done && CanUpload(t, 0, i);
    UploadRuns(t, 0, i, false);
    StoreKeeps(t, UploadSteps(t, 0, i, false));
    QueryReads(Uploaded(t, 0, i, false), k, j);
    GoesAfter(t, UploadSteps(t, 0, i, false), k);
    GoesAfter(s, es, k);
  }

  lemma EarlyIfAllowed(s: Store, k: nat)
    requires StoreInv(s) && k < |s.q.deletes| && MayGoEarly(s.q, k)
    ensures GoesEarly(s, k)
  {
    var id := s.q.deletes[k].importedId;
    var j: nat :| Unfinished(s.q, id, j) && (Released(s.q, k) || Rivalled(s.q, k, j));
    if Rivalled(s.q, k, j) {
      var i: nat :| i != j && Unfinished(s.q, id, i);
      OneOfTwoComes(s, k, i, j);
    } else if r: nat, n: nat :| Waits(s.q, k, r, n) {
      ReapsOn(s, k, r, n, j);
    } else if MarkedDone(s.q, id) {
      QueryReads(s, k, j);
    } else {
      var p: nat :| AboutToStamp(s.q, p, id);
      StampComes(s, k, p, j);
    }
  }

  lemma EarlyIsAllowed(s: Store, e: Step, k: nat)
    requires DeletesEarly(s, e, k)
    ensures MayGoEarly(s.q, k)
  {
    assert Waits(s.q, k, e.e.r, 0);
  }

  lemma OnlyIfAllowed(s: Store, k: nat)
    requires StoreInv(s) && k < |s.q.deletes| && GoesEarly(s, k)
    ensures MayGoEarly(s.q, k)
  {
    var more: seq<Step>, e: Step :| Legal(s, more) && NoRecords(more) && DeletesEarly(Run(s, more), e, k);
    EarlyIsAllowed(Run(s, more), e, k);
    if !MayGoEarly(s.q, k) {
      SafeAlong(s, more, k);
    }
  }

  // Short of new commits, the delete of a marker can be sent with an upload of
  // its row unfinished exactly when there is such an upload and the marker is
  // already released, or there are two.
  lemma {:induction false} GoesEarlyIff(es: seq<Step>, k: nat)
    requires Legal(EMPTY, es) && k < |Run(EMPTY, es).q.deletes|
    ensures GoesEarly(Run(EMPTY, es), k) <==> MayGoEarly(Run(EMPTY, es).q, k)
  {
    StoreReachable(es);
    if MayGoEarly(Run(EMPTY, es).q, k) {
      EarlyIfAllowed(Run(EMPTY, es), k);
    }
    if GoesEarly(Run(EMPTY, es), k) {
      OnlyIfAllowed(Run(EMPTY, es), k);
    }
  }
}
