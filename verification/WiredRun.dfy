/** A whole wired run: what it keeps, and when exactly the circuit breaker trips. */
module WiredRun {
  import opened Wrappers
  import opened Tables
  import opened LedgerModule
  import opened Naming
  import opened Transfer
  import opened RunTrace
  import opened Storage
  import opened SdOffload
  import opened SdRun
  import opened QueueSteps
  import opened Wired
  import opened SdSafety
  import opened Rearm
  import A = AppStateModule
  import D = Download
  import Q = CloudQueue

  /* ----- the circuit breaker ----- */

  // The counter of the loop: retryable download failures in a row, up to now.
  function Streak(offline: seq<bool>): nat {
    if offline == [] || !offline[|offline| - 1] then 0 else Streak(offline[..|offline| - 1]) + 1
  }

  // What it stands for: the downloads up to `i` all failed, as many as it takes.
  predicate Window(offline: seq<bool>, i: nat) {
    MAX_CONSECUTIVE_OFFLINE_FILES <= i + 1 <= |offline|
    && forall j :: i + 1 - MAX_CONSECUTIVE_OFFLINE_FILES <= j <= i ==> offline[j]
  }

  lemma {:induction false} StreakCounts(offline: seq<bool>, n: nat)
    ensures Streak(offline) >= n <==> n <= |offline| && forall j :: |offline| - n <= j < |offline| ==> offline[j]
  {
    if n > 0 && offline != [] {
      var init := offline[..|offline| - 1];
      StreakCounts(init, n - 1);
      if offline[|offline| - 1] && Streak(init) >= n - 1 {
        forall j | |offline| - n <= j < |offline| - 1 ensures offline[j] {
          assert init[j];
        }
      }
      if n <= |offline| && forall j :: |offline| - n <= j < |offline| ==> offline[j] {
        assert offline[|offline| - 1];
        forall j | |init| - (n - 1) <= j < |init| ensures init[j] {
          assert offline[j];
        }
      }
    }
  }

  // How a run over `total` files went, in terms of windows only.
  predicate Trips(total: nat, offline: seq<bool>, aborted: bool) {
    && |offline| <= total
    && (forall i: nat :: i + 1 < |offline| ==> !Window(offline, i))
    && (aborted <==> |offline| < total)
    && (aborted ==> offline != [] && Window(offline, |offline| - 1))
  }

  // No window has ended before the last file of the plan.
  predicate Untripped(total: nat, offline: seq<bool>) {
    |offline| <= total && forall i: nat :: i < |offline| && i + 1 < total ==> !Window(offline, i)
  }

  // One more download: the counter moves as the loop moves it, and comparing it
  // to the limit decides whether a window ends here.
  lemma BreakerStep(total: nat, offline: seq<bool>, off: bool)
    requires Untripped(total, offline) && |offline| < total
    ensures Streak(offline + [off]) == if off then Streak(offline) + 1 else 0
    ensures var trips := off && Streak(offline + [off]) >= MAX_CONSECUTIVE_OFFLINE_FILES && |offline| + 1 < total;
            if trips then Trips(total, offline + [off], true) else Untripped(total, offline + [off])
  {
    assert (offline + [off])[..|offline|] == offline;
    StreakCounts(offline + [off], MAX_CONSECUTIVE_OFFLINE_FILES);
    forall i: nat | i < |offline| ensures Window(offline + [off], i) <==> Window(offline, i) {
      assert forall j :: 0 <= j <= i ==> (offline + [off])[j] == offline[j];
    }
  }

  // Whatever every download of the plan would have done (`would`), the run
  // aborts exactly when some window ends before the last file, and it stops at
  // the first such window.
  lemma AbortsExactlyWhen(would: seq<bool>, offline: seq<bool>, aborted: bool)
    requires Trips(|would|, offline, aborted) && offline <= would
    ensures aborted <==> exists i: nat :: i + 1 < |would| && Window(would, i)
    ensures aborted ==> Window(would, |offline| - 1) && forall i: nat :: i + 1 < |offline| ==> !Window(would, i)
  {
    forall i: nat | i < |offline| ensures Window(offline, i) <==> Window(would, i) {
      assert forall j :: 0 <= j <= i ==> offline[j] == would[j];
    }
    if aborted {
      assert Window(would, |offline| - 1);
    }
  }

  /* ----- the run ----- */

  // One run: its settings, its plan, and all it works on before it.
  datatype Connect = Connect(cfg: Config, serial: string, plan: seq<PlannedCopy>, u0: Usb)

  function TripOf(t: Connect): Trip {
    Trip(t.cfg, t.serial, t.plan, t.u0.w)
  }

  // The camera's file of item `i`, as far as the listing announces it.
  function InListing(t: Connect, i: nat): Bytes
    requires i < |t.plan| && SourceOk(t.plan, t.u0.w.card)
  {
    Announced(t.u0.w.card[t.plan[i].entry.src], t.plan[i].entry.size)
  }

  // The `.part` that item `i` finds is one that a download may resume.
  predicate Resumable(t: Connect, i: nat)
    requires i < |t.plan| && SourceOk(t.plan, t.u0.w.card)
  {
    D.Usable(Lookup(t.u0.parts, t.plan[i].dest), t.u0.w.card[t.plan[i].entry.src], t.plan[i].entry.size)
  }

  // `got`, by camera path: what the downloads of the run have yielded. It is
  // what the camera holds whenever the `.part` was fit to resume.
  predicate GotOk(t: Connect, got: map<string, Bytes>, at: seq<Option<string>>)
    requires |at| <= |t.plan| && SourceOk(t.plan, t.u0.w.card) && SourceOk(t.plan, got)
  {
    forall i :: 0 <= i < |at| ==>
      && (at[i].Some? ==> |got[t.plan[i].entry.src]| == t.plan[i].entry.size)
      && (Resumable(t, i) ==> got[t.plan[i].entry.src] == InListing(t, i))
  }

  // The `.part` files of items not yet reached are as they were; those of the
  // others, if fit to resume, are as they were or hold a prefix of the file.
  predicate PartsKept(t: Connect, parts: map<string, Bytes>, n: nat)
    requires n <= |t.plan| && SourceOk(t.plan, t.u0.w.card)
  {
    && (forall i :: n <= i < |t.plan| ==> Lookup(parts, t.plan[i].dest) == Lookup(t.u0.parts, t.plan[i].dest))
    && (forall i :: 0 <= i < n ==>
          D.Usable(Lookup(t.u0.parts, t.plan[i].dest), t.u0.w.card[t.plan[i].entry.src], t.plan[i].entry.size) ==>
            Lookup(parts, t.plan[i].dest) == Lookup(t.u0.parts, t.plan[i].dest)
            || D.Clean(Lookup(parts, t.plan[i].dest), t.u0.w.card[t.plan[i].entry.src]))
    && parts - Dests(t.plan) == t.u0.parts - Dests(t.plan)
  }

  lemma PartsStep(t: Connect, parts: map<string, Bytes>, parts': map<string, Bytes>, n: nat)
    requires n < |t.plan| && SourceOk(t.plan, t.u0.w.card) && PlanFree(t.plan, t.u0.w.files.Keys) && PartsKept(t, parts, n)
    requires SameElsewhere(parts, parts', t.plan[n].dest)
    requires PartStep(t.u0.w.card[t.plan[n].entry.src], t.plan[n].entry.size,
                      Lookup(parts, t.plan[n].dest), Lookup(parts', t.plan[n].dest))
    ensures PartsKept(t, parts', n + 1)
  {
    SameButOne(parts, parts', t.plan[n].dest);
    assert t.plan[n].dest in Dests(t.plan);
    forall i | 0 <= i < |t.plan| && i != n ensures Lookup(parts', t.plan[i].dest) == Lookup(parts, t.plan[i].dest) {
      assert t.plan[i].dest != t.plan[n].dest;
    }
    assert parts' - Dests(t.plan) == parts - Dests(t.plan);
  }

  predicate MarkerFits(serial: string, item: PlannedCopy, landing: Option<string>, m: DeleteRow, rows: seq<Imported>) {
    landing.Some? && m == MarkerFor(serial, item.entry, m.importedId) && Q.MarkerOk(rows, m)
  }

  // Every marker of the run names a file it committed, and the row of its key.
  ghost predicate MarkersOk(t: Connect, u: Usb, at: seq<Option<string>>) {
    && t.u0.deletes <= u.deletes && |at| <= |t.plan|
    && (u.deletes != t.u0.deletes ==> Defers(t.cfg))
    && forall k :: |t.u0.deletes| <= k < |u.deletes| ==>
         exists i :: 0 <= i < |at| && MarkerFits(t.serial, t.plan[i], at[i], u.deletes[k], u.w.rows)
  }

  lemma MarkersKept(t: Connect, u: Usb, u': Usb, at: seq<Option<string>>, r: Result)
    requires MarkersOk(t, u, at) && |at| < |t.plan|
    requires |u.w.rows| <= |u'.w.rows| && forall i :: 0 <= i < |u.w.rows| ==> u'.w.rows[i].key == u.w.rows[i].key
    requires MarkerStep(t.cfg, t.serial, t.plan[|at|], r, u.deletes, u'.deletes, u'.w.rows)
    ensures MarkersOk(t, u', at + [Landing(t.plan[|at|], r)])
  {
  }

  // Every clause that the loop keeps. As in an SD run, with three differences:
  // what must reach the disk is what was downloaded, the jobs carry no card path,
  // and there are markers and `.part` files.
  ghost predicate WiredProgress(t: Connect, got: map<string, Bytes>, u: Usb, at: seq<Option<string>>) {
    && PlanFree(t.plan, t.u0.w.files.Keys) && SourceOk(t.plan, t.u0.w.card)
    && RunInv(t.cfg, t.serial, t.plan, got, t.u0.w.files, u.w.files, u.w.rows, at)
    && OnlySafeDeletes(t.cfg, t.plan, at, t.u0.w.card, u.w.card)
    && StillKnown(t.u0.w.rows, u.w.rows)
    && JobsOk(TripOf(t), true, u.w, at)
    && MarkersOk(t, u, at)
    && GotOk(t, got, at)
    && PartsKept(t, u.parts, |at|)
  }

  // A later download does not change what earlier ones have yielded.
  lemma GotMore(t: Connect, got: map<string, Bytes>, u: Usb, at: seq<Option<string>>, bytes: Bytes)
    requires WiredProgress(t, got, u, at) && |at| < |t.plan|
    ensures WiredProgress(t, got[t.plan[|at|].entry.src := bytes], u, at)
  {
    var got' := got[t.plan[|at|].entry.src := bytes];
    forall i | 0 <= i < |at| ensures got'[t.plan[i].entry.src] == got[t.plan[i].entry.src] {
      assert t.plan[i].entry.src != t.plan[|at|].entry.src;
    }
  }

  lemma WiredProgressStep(t: Connect, got: map<string, Bytes>, u: Usb, u': Usb, at: seq<Option<string>>, r: Result)
    requires WiredProgress(t, got, u, at) && |at| < |t.plan|
    requires Downloaded(t.cfg, t.serial, t.plan[|at|], got[t.plan[|at|].entry.src], u, u', r)
    requires Resumable(t, |at|) ==> got[t.plan[|at|].entry.src] == InListing(t, |at|)
    requires PartStep(t.u0.w.card[t.plan[|at|].entry.src], t.plan[|at|].entry.size,
                      Lookup(u.parts, t.plan[|at|].dest), Lookup(u'.parts, t.plan[|at|].dest))
    ensures WiredProgress(t, got, u', at + [Landing(t.plan[|at|], r)])
    ensures StartKept(u.w.files, u'.w.files)
  {
    var item := t.plan[|at|];
    RunInvStep(t.cfg, t.serial, t.plan, got, t.u0.w.files, u.w.files, u'.w.files, u.w.rows, u'.w.rows, at, r);
    StillKnownStep(t.cfg, t.serial, item, Some(got[item.entry.src]), r, u.w.files, u'.w.files, u.w.rows, u'.w.rows);
    DeletesStep(t.cfg, t.plan, at, at + [Landing(item, r)], t.u0.w.card, u.w.card, u'.w.card, Landing(item, r));
    JobsKept(TripOf(t), true, u.w, u'.w, at, r);
    MarkersKept(t, u, u', at, r);
    PartsStep(t, u.parts, u'.parts, |at|);
    FilesKept(t.plan, t.u0.w.files, u.w.files, u'.w.files, |at|);
  }

  /* ----- what the shared queue knows of the jobs of the run ----- */

  // The bytes entered for each job of the run are those of its local file.
  ghost predicate FilesEntered(t: Connect, w: World, h0: Story, h: Story) {
    && Lawful(h0) && Lawful(h)
    && Final(h0).payload <= Final(h).payload && |Final(h0).payload| == |t.u0.w.jobs| && |Final(h).payload| == |w.jobs|
    && forall k :: |t.u0.w.jobs| <= k < |w.jobs| ==> Lookup(w.files, w.jobs[k].localPath) == Some(Final(h).payload[k])
  }

  lemma FilesEnteredStep(t: Connect, u: Usb, u': Usb, item: PlannedCopy, got: Bytes, r: Result, h0: Story, h: Story, h': Story)
    requires FilesEntered(t, u.w, h0, h) && StartKept(u.w.files, u'.w.files)
    requires Downloaded(t.cfg, t.serial, item, got, u, u', r) && EntersStep(t.cfg, item, r, None, u'.w.files, h, h')
    ensures FilesEntered(t, u'.w, h0, h')
  {
  }

  /* ----- the record of the run ----- */

  // A file lands at its destination or not at all; never after a failed download.
  predicate LandsAtDest(plan: seq<PlannedCopy>, offline: seq<bool>, at: seq<Option<string>>) {
    && |offline| <= |at| <= |plan|
    && forall i :: 0 <= i < |at| ==> at[i].None? || (at[i] == Some(plan[i].dest) && i < |offline| && !offline[i])
  }

  // What the events say of each file is what happened to it.
  ghost predicate Account(t: Connect, got: map<string, Bytes>, offline: seq<bool>, log: Log) {
    && |offline| == |log.traces| <= |log.at| && LandsAtDest(t.plan, offline, log.at)
    && SourceOk(t.plan, got) && TracesFit(t.plan, got, log.at, log.traces)
  }

  lemma AccountMore(t: Connect, got: map<string, Bytes>, offline: seq<bool>, log: Log, bytes: Bytes)
    requires Account(t, got, offline, log) && |log.traces| == |log.at| < |t.plan|
    ensures Account(t, got[t.plan[|log.at|].entry.src := bytes], offline, log)
  {
    var got' := got[t.plan[|log.at|].entry.src := bytes];
    forall i | 0 <= i < |log.traces| ensures Reports(t.plan[i], got'[t.plan[i].entry.src], log.at[i], log.traces[i]) {
      assert t.plan[i].entry.src != t.plan[|log.at|].entry.src;
    }
  }

  function OfflineAfter(offline: seq<bool>, off: bool, r: Result): seq<bool> {
    if r.Crashed? then offline else offline + [off]
  }

  lemma AccountStep(t: Connect, got: map<string, Bytes>, offline: seq<bool>, log: Log, off: bool, u: Usb, u': Usb, r: Result)
    requires Account(t, got, offline, log) && |log.traces| == |log.at| < |t.plan| && (off ==> r.NotCommitted?)
    requires Downloaded(t.cfg, t.serial, t.plan[|log.at|], got[t.plan[|log.at|].entry.src], u, u', r)
    ensures Account(t, got, OfflineAfter(offline, off, r), Logged(log, t.plan[|log.at|], r))
  {
  }

  function Landed(at: seq<Option<string>>): nat {
    if at == [] then 0 else Landed(at[..|at| - 1]) + One(at[|at| - 1].Some?)
  }

  lemma {:induction false} LandedAll(at: seq<Option<string>>)
    ensures Landed(at) <= |at|
    ensures Landed(at) == |at| <==> forall i :: 0 <= i < |at| ==> at[i].Some?
  {
    if at != [] {
      LandedAll(at[..|at| - 1]);
    }
  }

  // The counters: the bytes are those of the copied files, nothing is adopted, and
  // they tell how many files have landed and how many jobs and markers are new.
  predicate Tallied(t: Connect, u: Usb, log: Log) {
    && log.c == CountOf(log.traces) && log.c.adopted == 0 && log.c.copied == Landed(log.at)
    && |u.w.jobs| == |t.u0.w.jobs| + log.c.queued && log.c.queued == (if Mirrors(t.cfg) then log.c.copied else 0)
    && |u.deletes| == |t.u0.deletes| + if Defers(t.cfg) then log.c.copied else 0
  }

  // What one file adds, in numbers.
  predicate Adds(t: Connect, u: Usb, u': Usb, r: Result) {
    && !r.AdoptedAt? && (r.NotCommitted? ==> r.trace.Broken?)
    && (r.CopiedTo? ==> r.trace.Copied? && r.trace.queued == Mirrors(t.cfg))
    && |u'.w.jobs| == |u.w.jobs| + One(Commits(r) && Mirrors(t.cfg))
    && |u'.deletes| == |u.deletes| + One(Commits(r) && Defers(t.cfg))
  }

  lemma DownloadedAdds(t: Connect, item: PlannedCopy, got: Bytes, u: Usb, u': Usb, r: Result)
    requires Downloaded(t.cfg, t.serial, item, got, u, u', r)
    ensures Adds(t, u, u', r)
  {
  }

  lemma TalliedStep(t: Connect, u: Usb, u': Usb, log: Log, r: Result, item: PlannedCopy)
    requires Tallied(t, u, log) && |log.traces| == |log.at| && Adds(t, u, u', r)
    ensures Tallied(t, u', Logged(log, item, r))
  {
    var log' := Logged(log, item, r);
    assert log'.at[..|log.at|] == log.at;
    assert !r.Crashed? ==> log'.traces[..|log.traces|] == log.traces;
  }

  // All that the loop keeps, but for the breaker.
  ghost predicate Going(t: Connect, got: map<string, Bytes>, u: Usb, offline: seq<bool>, log: Log, h0: Story, h: Story) {
    && WiredProgress(t, got, u, log.at)
    && Account(t, got, offline, log)
    && Tallied(t, u, log)
    && FilesEntered(t, u.w, h0, h)
  }

  lemma GoingStep(t: Connect, got: map<string, Bytes>, u: Usb, u': Usb, offline: seq<bool>, log: Log, off: bool, bytes: Bytes,
                  r: Result, h0: Story, h: Story, h': Story)
    requires Going(t, got, u, offline, log, h0, h) && |log.traces| == |log.at| < |t.plan| && (off ==> r.NotCommitted?)
    requires Downloaded(t.cfg, t.serial, t.plan[|log.at|], bytes, u, u', r)
    requires EntersStep(t.cfg, t.plan[|log.at|], r, None, u'.w.files, h, h')
    requires Resumable(t, |log.at|) ==> bytes == InListing(t, |log.at|)
    requires PartStep(t.u0.w.card[t.plan[|log.at|].entry.src], t.plan[|log.at|].entry.size,
                      Lookup(u.parts, t.plan[|log.at|].dest), Lookup(u'.parts, t.plan[|log.at|].dest))
    ensures Going(t, got[t.plan[|log.at|].entry.src := bytes], u', OfflineAfter(offline, off, r),
                  Logged(log, t.plan[|log.at|], r), h0, h')
  {
    var got' := got[t.plan[|log.at|].entry.src := bytes];
    GotMore(t, got, u, log.at, bytes);
    AccountMore(t, got, offline, log, bytes);
    WiredProgressStep(t, got', u, u', log.at, r);
    AccountStep(t, got', offline, log, off, u, u', r);
    DownloadedAdds(t, t.plan[|log.at|], bytes, u, u', r);
    TalliedStep(t, u, u', log, r, t.plan[|log.at|]);
    FilesEnteredStep(t, u, u', t.plan[|log.at|], bytes, r, h0, h, h');
  }

  /* ----- the loop ----- */

  // One iteration of the loop.
  method FetchNext(cfg: Config, serial: string, plan: seq<PlannedCopy>, camera: Card, spool: Spool, disk: Disk,
                   ledger: Ledger, maxAttempts: nat, log: Log, ghost t: Connect, ghost got: map<string, Bytes>,
                   ghost offline: seq<bool>, ghost h0: Story, ghost h: Story)
    returns (r: Result, off: bool, log': Log, ghost got': map<string, Bytes>, ghost h': Story)
    requires Records(h, ledger.Value()) && t == Connect(cfg, serial, plan, t.u0)
    requires Going(t, got, NowUsb(camera, spool, disk, ledger), offline, log, h0, h) && |log.traces| == |log.at| < |plan|
    modifies camera, spool, disk, ledger`imported, ledger`jobs, ledger`deletes
    ensures Continues(h, h') && Records(h', ledger.Value()) && log' == Logged(log, plan[|log.at|], r)
    ensures Going(t, got', NowUsb(camera, spool, disk, ledger), OfflineAfter(offline, off, r), log', h0, h')
    ensures !r.Crashed? ==> |log'.traces| == |log'.at| == |log.at| + 1
  {
    ghost var u, item := NowUsb(camera, spool, disk, ledger), plan[|log.at|];
    ghost var bytes;
    StillOnCard(cfg, plan, log.at, t.u0.w.card, camera.files);
    r, off, bytes, h' := FetchItem(cfg, serial, plan[|log.at|], camera, spool, disk, ledger, maxAttempts, h);
    log' := Logged(log, plan[|log.at|], r);
    got' := got[item.entry.src := bytes];
    GoingStep(t, got, u, NowUsb(camera, spool, disk, ledger), offline, log, off, bytes, r, h0, h, h');
  }

  // The loop is alive and its counter is right.
  predicate Alive(total: nat, offline: seq<bool>, log: Log, streak: nat) {
    |offline| == |log.at| == |log.traces| && streak == Streak(offline) && Untripped(total, offline)
  }

  lemma AliveStep(total: nat, offline: seq<bool>, log: Log, log': Log, streak: nat, off: bool)
    requires Alive(total, offline, log, streak) && |offline| < total
    requires |log'.traces| == |log'.at| == |log.at| + 1
    ensures var streak' := if off then streak + 1 else 0;
            if off && streak' >= MAX_CONSECUTIVE_OFFLINE_FILES && |log'.at| < total then Trips(total, offline + [off], true)
            else Alive(total, offline + [off], log', streak')
  {
    BreakerStep(total, offline, off);
  }

  lemma AliveAtEnd(total: nat, offline: seq<bool>, log: Log, streak: nat)
    requires Alive(total, offline, log, streak) && |log.at| == total
    ensures Trips(total, offline, false)
  {
  }

  // How the loop ended: at the end of the plan, by the breaker, or the process died.
  datatype Ending = Whole | Aborted | Died

  lemma LoopBegins(t: Connect, db: Db, h: Story)
    requires PlanFree(t.plan, t.u0.w.files.Keys) && UniqueKeys(t.u0.w.rows) && SourceOk(t.plan, t.u0.w.card)
    requires Records(h, db) && db.jobs == t.u0.w.jobs
    ensures Going(t, t.u0.w.card, t.u0, [], NEW, h, h)
  {
  }

  // The loop over the plan, with its breaker.
  method RunWired(cfg: Config, serial: string, plan: seq<PlannedCopy>, camera: Card, spool: Spool, disk: Disk, ledger: Ledger,
                  maxAttempts: nat, ghost h: Story)
    returns (end: Ending, offline: seq<bool>, log: Log, ghost got: map<string, Bytes>, ghost h': Story)
    requires Records(h, ledger.Value()) && UniqueKeys(ledger.imported)
    requires PlanFree(plan, disk.files.Keys) && SourceOk(plan, camera.files)
    modifies camera, spool, disk, ledger`imported, ledger`jobs, ledger`deletes
    ensures Going(Connect(cfg, serial, plan, old(NowUsb(camera, spool, disk, ledger))), got, NowUsb(camera, spool, disk, ledger),
                  offline, log, h, h')
    ensures Continues(h, h') && Records(h', ledger.Value())
    ensures !end.Died? ==> Trips(|plan|, offline, end.Aborted?) && |log.traces| == |log.at|
  {
    ghost var t := Connect(cfg, serial, plan, NowUsb(camera, spool, disk, ledger));
    end, offline, log, got, h' := Whole, [], NEW, camera.files, h;
    LoopBegins(t, ledger.Value(), h);
    var streak := 0;
    for i := 0 to |plan|
      invariant Alive(|plan|, offline, log, streak) && |log.at| == i
      invariant Going(t, got, NowUsb(camera, spool, disk, ledger), offline, log, h, h')
      invariant Continues(h, h') && Records(h', ledger.Value())
    {
      var r, off;
      ghost var h1, log0 := h', log;
      r, off, log, got, h' :=
        FetchNext(cfg, serial, plan, camera, spool, disk, ledger, maxAttempts, log, t, got, offline, h, h1);
      ContinuesOn(h, h1, h');
      if r.Crashed? {
        end := Died;
        return;
      }
      AliveStep(|plan|, offline, log0, log, streak, off);
      offline := offline + [off];
      streak := if off then streak + 1 else 0;
      if off && streak >= MAX_CONSECUTIVE_OFFLINE_FILES && i + 1 < |plan| {
        end := Aborted;
        return;
      }
    }
    AliveAtEnd(|plan|, offline, log, streak);
  }

  // The reap, as OffloadWired needs it.
  predicate ReapDone(cfg: Config, serial: string, media: seq<Q.Media>, imported: seq<Imported>, before: seq<DeleteRow>,
                     reaped: seq<DeleteRow>, issued: seq<nat>, replies: map<nat, Q.DeleteReply>) {
    var due := DueDeletes(before, imported, serial, 0);
    if cfg.deleteAfterVerify then issued == ToDelete(due, before, media) && AfterReap(before, reaped, due, media, replies)
    else issued == [] && reaped == before
  }

  // One connect of the camera: reap, plan, download, report. The `.part` files
  // may be anything; `before` is all there was after the reap.
  method OffloadWired(cfg: Config, serial: string, listing: seq<Entry>, media: seq<Q.Media>, camera: Card, spool: Spool,
                      disk: Disk, ledger: Ledger, maxAttempts: nat, ghost h: Story)
    returns (end: Ending, plan: seq<PlannedCopy>, skipped: nat, offline: seq<bool>, log: Log, events: seq<A.RunEvent>,
             issued: seq<nat>, replies: map<nat, Q.DeleteReply>, ghost before: Usb, ghost got: map<string, Bytes>,
             ghost h1: Story, ghost h': Story)
    requires Records(h, ledger.Value()) && UniqueKeys(ledger.imported)
    requires DistinctSources(listing) && (forall e :: e in listing ==> e.src in camera.files)
    modifies camera, spool, disk, ledger`imported, ledger`jobs, ledger`deletes
    ensures Entries(plan) == Kept(listing, cfg, old(ledger.imported), serial) && PlanOk(plan, old(disk.files).Keys)
    ensures |plan| + skipped == |listing|
    ensures before == old(NowUsb(camera, spool, disk, ledger)).(deletes := before.deletes)
    ensures ReapDone(cfg, serial, media, old(ledger.imported), old(ledger.deletes), before.deletes, issued, replies)
    ensures Going(Connect(cfg, serial, plan, before), got, NowUsb(camera, spool, disk, ledger), offline, log, h1, h')
    ensures Continues(h, h') && Records(h', ledger.Value())
    ensures !end.Died? ==> Trips(|plan|, offline, end.Aborted?) && |log.traces| == |log.at|
    ensures events == Opening(FreedNames(issued, before.deletes, replies), |plan|, PlanBytes(plan)) + ItemsEvents(log.traces, |plan|)
                      + if end.Whole? then [A.RunComplete(Summed(log.c, skipped))] else []
  {
    issued, replies, h1 := ReapCameraDeletes(cfg, serial, media, ledger, h);
    before := NowUsb(camera, spool, disk, ledger);
    var reaped := ledger.deletes;
    plan, skipped := PlanWired(listing, cfg, ledger, serial, disk);
    PlanIsSound(plan, listing, cfg, ledger.imported, serial, camera.files);
    end, offline, log, got, h' := RunWired(cfg, serial, plan, camera, spool, disk, ledger, maxAttempts, h1);
    ContinuesOn(h, h1, h');
    events := Opening(FreedNames(issued, reaped, replies), |plan|, PlanBytes(plan)) + ItemsEvents(log.traces, |plan|)
              + if end.Whole? then [A.RunComplete(Summed(log.c, skipped))] else [];
  }

  /* ----- what that comes to ----- */

  // The detector is re-armed exactly when some planned file was not committed:
  // no clean run leaves work behind, no complete run is repeated.
  lemma RetryIffUnfinished(t: Connect, u: Usb, offline: seq<bool>, aborted: bool, log: Log)
    requires |offline| == |log.at| == |log.traces| && Trips(|t.plan|, offline, aborted) && Tallied(t, u, log)
    ensures RearmNeeded(aborted, log.c.failed) <==> |log.at| < |t.plan| || exists i :: 0 <= i < |log.at| && log.at[i].None?
  {
    LandedAll(log.at);
    CountsAdd(log.traces);
  }

  // With verify on, each committed file has the bytes that were downloaded, which
  // are the camera's if the listing is right and the `.part` found was fit to
  // resume; it is a file that was not there before; its row leads to the last file
  // of its key. A file leaves the camera during the run only if it was committed,
  // and never under Auto.
  lemma {:induction false} WiredFilesAreTheCameras(t: Connect, got: map<string, Bytes>, u: Usb, offline: seq<bool>, at: seq<Option<string>>, i: nat)
    requires t.cfg.verify && WiredProgress(t, got, u, at) && LandsAtDest(t.plan, offline, at) && i < |at|
    ensures at[i].Some? ==> t.plan[i].dest !in t.u0.w.files && Lookup(u.w.files, t.plan[i].dest) == Some(got[t.plan[i].entry.src])
    ensures at[i].Some? && Resumable(t, i) && |t.u0.w.card[t.plan[i].entry.src]| == t.plan[i].entry.size ==>
              Lookup(u.w.files, t.plan[i].dest) == Some(t.u0.w.card[t.plan[i].entry.src])
    ensures at[i].Some? ==>
              exists r: nat, l: nat :: r < |u.w.rows| && u.w.rows[r].key == KeyOf(t.serial, t.plan[i].entry)
                             && LastOfKey(t.serial, t.plan, at, |at|, l) && i <= l && u.w.rows[r].dest == t.plan[l].dest
    ensures t.plan[i].entry.src !in u.w.card ==> at[i].Some? && t.cfg.deleteAfterVerify && Mode(t.cfg) != Auto
  {
    var e := t.plan[i].entry;
    if at[i].Some? {
      assert t.plan[i].dest !in t.u0.w.files.Keys;
      var l := LastAt(t.serial, t.plan, at, |at|, i);
      assert RowsOk(t.serial, t.plan, u.w.rows, at) && LastOfKey(t.serial, t.plan, at, |at|, l);
      var r :| 0 <= r < |u.w.rows| && u.w.rows[r].key == KeyOf(t.serial, t.plan[l].entry) && u.w.rows[r].dest == at[l].value;
    }
    if e.src !in u.w.card {
      var k :| 0 <= k < |at| && t.plan[k].entry.src == e.src && at[k] == Some(t.plan[k].dest);
      assert k == i;
    }
  }
}
