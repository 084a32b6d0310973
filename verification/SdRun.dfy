/** A whole SD run, whole or cut short by a crash, and what it guarantees. */
module SdRun {
  import opened Wrappers
  import opened Tables
  import opened LedgerModule
  import opened Naming
  import opened Transfer
  import opened RunTrace
  import opened QueueSteps
  import opened Storage
  import opened SdOffload
  import A = AppStateModule

  // One run: its settings, its plan, and the world before it.
  datatype Trip = Trip(cfg: Config, serial: string, plan: seq<PlannedCopy>, w0: World)

  // Job `j` uploads what item `i` left at `landing` and points at its row.
  predicate JobFits(cfg: Config, serial: string, wired: bool, item: PlannedCopy, landing: Option<string>, j: Job,
                    rows: seq<Imported>) {
    && Mirrors(cfg) && landing.Some? && j.importedId < |rows| && rows[j.importedId].key == KeyOf(serial, item.entry)
    && j == NewJob(j.importedId, landing.value,
                   SpecFor(cfg, if wired then item.entry.rendered else landing.value, item.entry.size,
                           if wired then None else Some(item.entry.src)).value)
  }

  ghost predicate JobsOk(t: Trip, wired: bool, w: World, at: seq<Option<string>>) {
    && t.w0.jobs <= w.jobs && |at| <= |t.plan|
    && forall k :: |t.w0.jobs| <= k < |w.jobs| ==>
         exists i :: 0 <= i < |at| && JobFits(t.cfg, t.serial, wired, t.plan[i], at[i], w.jobs[k], w.rows)
  }

  lemma JobsKept(t: Trip, wired: bool, w: World, w': World, at: seq<Option<string>>, r: Result)
    requires JobsOk(t, wired, w, at) && |at| < |t.plan|
    requires |w.rows| <= |w'.rows| && forall i :: 0 <= i < |w.rows| ==> w'.rows[i].key == w.rows[i].key
    requires JobsStep(t.cfg, t.serial, t.plan[|at|], r, if wired then None else Some(t.plan[|at|].entry.src),
                      if wired then t.plan[|at|].entry.rendered else CommitName(t.plan[|at|], r), w.jobs, w'.jobs, w'.rows)
    ensures JobsOk(t, wired, w', at + [Landing(t.plan[|at|], r)])
  {
  }

  // Every clause that the loop keeps; `at` says where each item so far landed.
  ghost predicate Progressed(t: Trip, w: World, at: seq<Option<string>>) {
    && PlanFree(t.plan, t.w0.files.Keys)
    && RunInv(t.cfg, t.serial, t.plan, t.w0.card, t.w0.files, w.files, w.rows, at)
    && OnlySafeDeletes(t.cfg, t.plan, at, t.w0.card, w.card)
    && StillKnown(t.w0.rows, w.rows)
    && JobsOk(t, false, w, at)
  }

  // Item `|at|` finds its source on the card and does this to the world.
  ghost predicate ItemDone(t: Trip, w: World, w': World, at: seq<Option<string>>, r: Result, sound: bool) {
    |at| < |t.plan| && Offloaded(t.cfg, t.serial, t.plan[|at|], sound, w, w', r)
  }

  lemma ProgressedStep(t: Trip, w: World, w': World, at: seq<Option<string>>, r: Result, sound: bool)
    requires Progressed(t, w, at) && ItemDone(t, w, w', at, r, sound)
    ensures Progressed(t, w', at + [Landing(t.plan[|at|], r)])
    ensures StartKept(w.files, w'.files)
  {
    var item := t.plan[|at|];
    var source := t.w0.card[item.entry.src];
    StillOnCard(t.cfg, t.plan, at, t.w0.card, w.card);
    RunInvStep(t.cfg, t.serial, t.plan, t.w0.card, t.w0.files, w.files, w'.files, w.rows, w'.rows, at, r);
    StillKnownStep(t.cfg, t.serial, item, Some(source), r, w.files, w'.files, w.rows, w'.rows);
    DeletesStep(t.cfg, t.plan, at, at + [Landing(item, r)], t.w0.card, w.card, w'.card, Landing(item, r));
    JobsKept(t, false, w, w', at, r);
    FilesKept(t.plan, t.w0.files, w.files, w'.files, |at|);
  }

  function Landing(item: PlannedCopy, r: Result): Option<string> {
    if Commits(r) then Some(CommitName(item, r)) else None
  }

  ghost predicate StillKnown(rows: seq<Imported>, rows': seq<Imported>) {
    forall key :: Known(rows, key) ==> Known(rows', key)
  }

  lemma StillKnownStep(cfg: Config, serial: string, item: PlannedCopy, source: Option<Bytes>, r: Result,
                       files: map<string, Bytes>, files': map<string, Bytes>, rows: seq<Imported>, rows': seq<Imported>)
    requires ItemStep(cfg, serial, item, source, r, files, files', rows, rows')
    ensures StillKnown(rows, rows')
    ensures |rows| <= |rows'| && forall i :: 0 <= i < |rows| ==> rows'[i].key == rows[i].key
  {
  }

  lemma StillOnCard(cfg: Config, plan: seq<PlannedCopy>, at: seq<Option<string>>, source: map<string, Bytes>,
                    card: map<string, Bytes>)
    requires OnlySafeDeletes(cfg, plan, at, source, card) && SourceOk(plan, source) && |at| < |plan|
    ensures Lookup(card, plan[|at|].entry.src) == Some(source[plan[|at|].entry.src])
  {
  }

  /* ----- what the shared queue knows of the jobs of the run ----- */

  // The bytes entered for job `k` are those of its local file; its card path held
  // what it held before the run; and with verify on the two are equal.
  predicate PayloadOk(t: Trip, w: World, payload: seq<Bytes>, sources: seq<Option<Bytes>>, k: nat)
    requires k < |w.jobs| && k < |payload| && k < |sources|
  {
    var j := w.jobs[k];
    && j.spec.cardSrc.Some? && Lookup(w.files, j.localPath) == Some(payload[k])
    && sources[k] == Lookup(t.w0.card, j.spec.cardSrc.value)
    && (t.cfg.verify ==> sources[k] == Some(payload[k]))
  }

  // `h0` has led to the world before the run, `h` to `w`.
  ghost predicate PayloadsOk(t: Trip, w: World, h0: Story, h: Story) {
    && Lawful(h0) && Lawful(h)
    && Final(h0).payload <= Final(h).payload && Final(h0).sources <= Final(h).sources
    && |Final(h0).payload| == |t.w0.jobs| && |Final(h).payload| == |w.jobs| == |Final(h).sources|
    && forall k :: |t.w0.jobs| <= k < |w.jobs| ==> PayloadOk(t, w, Final(h).payload, Final(h).sources, k)
  }

  lemma PayloadsStep(t: Trip, w: World, w': World, at: seq<Option<string>>, r: Result, h0: Story, h: Story, h': Story)
    requires SourceOk(t.plan, t.w0.card) && |at| < |t.plan| && PayloadsOk(t, w, h0, h) && StartKept(w.files, w'.files)
    requires var item := t.plan[|at|]; var source := Some(t.w0.card[item.entry.src]);
             && ItemStep(t.cfg, t.serial, item, source, r, w.files, w'.files, w.rows, w'.rows)
             && JobsStep(t.cfg, t.serial, item, r, Some(item.entry.src), CommitName(item, r), w.jobs, w'.jobs, w'.rows)
             && EntersStep(t.cfg, item, r, source, w'.files, h, h')
    ensures PayloadsOk(t, w', h0, h')
  {
    forall k | |t.w0.jobs| <= k < |w'.jobs| ensures PayloadOk(t, w', Final(h').payload, Final(h').sources, k) {
      if k < |w.jobs| {
        assert PayloadOk(t, w, Final(h).payload, Final(h).sources, k);
      }
    }
  }

  // What the event stream says of an item is what happened to it.
  predicate Reports(item: PlannedCopy, source: Bytes, landing: Option<string>, t: ItemTrace) {
    match t
    case Adopted(file, _) => file == item.entry.name && landing == Some(item.entry.rendered)
    case Copied(file, _, _, bytes, _, _) => file == item.entry.name && landing == Some(item.dest) && bytes == |source|
    case Broken(file, _, _, _) => file == item.entry.name && landing.None?
  }

  predicate TracesFit(plan: seq<PlannedCopy>, onCard: map<string, Bytes>, at: seq<Option<string>>, traces: seq<ItemTrace>)
    requires SourceOk(plan, onCard) && |traces| <= |at| <= |plan|
  {
    forall i :: 0 <= i < |traces| ==> Reports(plan[i], onCard[plan[i].entry.src], at[i], traces[i])
  }

  // What a run records: where its items landed, its counters and its events.
  datatype Log = Log(at: seq<Option<string>>, c: Counters, traces: seq<ItemTrace>)

  const NEW := Log([], Counters(0, 0, 0, 0, 0), [])

  // The counters after one more item.
  function Added(c: Counters, t: ItemTrace): Counters {
    match t
    case Broken(_, _, _, _) => c.(failed := c.failed + 1)
    case Adopted(_, queued) => c.(adopted := c.adopted + 1, queued := c.queued + One(queued))
    case Copied(_, _, _, bytes, queued, _) =>
      c.(copied := c.copied + 1, bytes := c.bytes + bytes, queued := c.queued + One(queued))
  }

  function CountOf(traces: seq<ItemTrace>): Counters {
    if traces == [] then NEW.c else Added(CountOf(traces[..|traces| - 1]), traces[|traces| - 1])
  }

  lemma {:induction false} CountsAdd(traces: seq<ItemTrace>)
    ensures Counted(CountOf(traces), traces, CountOf(traces).queued)
  {
    if traces != [] {
      CountsAdd(traces[..|traces| - 1]);
    }
  }

  function Logged(log: Log, item: PlannedCopy, r: Result): Log {
    if r.Crashed? then log.(at := log.at + [None])
    else Log(log.at + [Landing(item, r)], Added(log.c, r.trace), log.traces + [r.trace])
  }

  // What the loop has done, as a whole.
  ghost predicate Going(t: Trip, w: World, log: Log, h0: Story, h: Story) {
    && Progressed(t, w, log.at)
    && |log.traces| <= |log.at| && TracesFit(t.plan, t.w0.card, log.at, log.traces)
    && log.c == CountOf(log.traces) && |w.jobs| == |t.w0.jobs| + log.c.queued
    && PayloadsOk(t, w, h0, h)
  }

  // Counting one more item.
  lemma LogStep(t: Trip, w: World, w': World, log: Log, r: Result, sound: bool)
    requires SourceOk(t.plan, t.w0.card) && |log.traces| == |log.at| < |t.plan|
    requires TracesFit(t.plan, t.w0.card, log.at, log.traces)
    requires log.c == CountOf(log.traces) && |w.jobs| == |t.w0.jobs| + log.c.queued
    requires ItemDone(t, w, w', log.at, r, sound)
    requires Lookup(w.card, t.plan[|log.at|].entry.src) == Some(t.w0.card[t.plan[|log.at|].entry.src])
    ensures var log' := Logged(log, t.plan[|log.at|], r);
            && TracesFit(t.plan, t.w0.card, log'.at, log'.traces)
            && log'.c == CountOf(log'.traces) && |w'.jobs| == |t.w0.jobs| + log'.c.queued
  {
    var item := t.plan[|log.at|];
    assert |w'.jobs| == |w.jobs| + One(Commits(r) && Mirrors(t.cfg));
    if !r.Crashed? {
      assert (log.traces + [r.trace])[..|log.traces|] == log.traces;
      assert Reports(item, t.w0.card[item.entry.src], Landing(item, r), r.trace);
    }
  }

  lemma GoingStep(t: Trip, w: World, w': World, log: Log, r: Result, sound: bool, h0: Story, h: Story, h': Story)
    requires Going(t, w, log, h0, h) && |log.traces| == |log.at| && ItemDone(t, w, w', log.at, r, sound)
    requires EntersStep(t.cfg, t.plan[|log.at|], r, Lookup(w.card, t.plan[|log.at|].entry.src), w'.files, h, h')
    ensures Going(t, w', Logged(log, t.plan[|log.at|], r), h0, h')
  {
    StillOnCard(t.cfg, t.plan, log.at, t.w0.card, w.card);
    ProgressedStep(t, w, w', log.at, r, sound);
    PayloadsStep(t, w, w', log.at, r, h0, h, h');
    LogStep(t, w, w', log, r, sound);
  }

  /* ----- a run on sound storage, step by step ----- */

  datatype Snap = Snap(files: map<string, Bytes>, rows: seq<Imported>)

  function SnapOf(w: World): Snap {
    Snap(w.files, w.rows)
  }

  // A session: a plan, the results of its items as far as it got, and the
  // destination and ledger between them.
  datatype Session = Session(plan: seq<PlannedCopy>, results: seq<Result>, snaps: seq<Snap>)

  ghost predicate StepOk(cfg: Config, serial: string, source: map<string, Bytes>, item: PlannedCopy, r: Result, a: Snap, b: Snap)
  {
    && item.entry.src in source
    && ItemStep(cfg, serial, item, Some(source[item.entry.src]), r, a.files, b.files, a.rows, b.rows)
    && FaultFreeStep(serial, item, Some(source[item.entry.src]), r, a.files, b.files, a.rows)
  }

  // Step `i` of a session.
  ghost predicate StepAt(cfg: Config, serial: string, source: map<string, Bytes>, s: Session, i: nat)
    requires i < |s.results| <= |s.plan| && |s.snaps| == |s.results| + 1
  {
    StepOk(cfg, serial, source, s.plan[i], s.results[i], s.snaps[i], s.snaps[i + 1])
  }

  ghost predicate SessionOk(cfg: Config, serial: string, source: map<string, Bytes>, s: Session) {
    && |s.snaps| == |s.results| + 1 && |s.results| <= |s.plan|
    && (forall i {:trigger StepAt(cfg, serial, source, s, i)} :: 0 <= i < |s.results| ==> StepAt(cfg, serial, source, s, i))
    && (forall i :: 0 <= i < |s.results| - 1 ==> !s.results[i].Crashed?)
  }

  // It was not cut short.
  predicate Completes(s: Session) {
    |s.results| == |s.plan| && forall i :: 0 <= i < |s.results| ==> !s.results[i].Crashed?
  }

  // The session that the loop has been so far, which has led from `w0` to `w`.
  ghost predicate SessionFits(t: Trip, w: World, s: Session) {
    && s.plan == t.plan && SessionOk(t.cfg, t.serial, t.w0.card, s)
    && s.snaps[0] == SnapOf(t.w0) && s.snaps[|s.results|] == SnapOf(w)
  }

  function MoreSession(s: Session, r: Result, w: World): Session {
    Session(s.plan, s.results + [r], s.snaps + [SnapOf(w)])
  }

  lemma SessionStep(t: Trip, w: World, w': World, s: Session, at: seq<Option<string>>, r: Result)
    requires SessionFits(t, w, s) && |s.results| == |at| && forall i :: 0 <= i < |at| ==> !s.results[i].Crashed?
    requires ItemDone(t, w, w', at, r, true) && t.plan[|at|].entry.src in t.w0.card
    requires Lookup(w.card, t.plan[|at|].entry.src) == Some(t.w0.card[t.plan[|at|].entry.src])
    ensures SessionFits(t, w', MoreSession(s, r, w'))
  {
    var s' := MoreSession(s, r, w');
    forall i | 0 <= i < |s'.results| ensures StepAt(t.cfg, t.serial, t.w0.card, s', i) {
      if i < |at| {
        assert StepAt(t.cfg, t.serial, t.w0.card, s, i);
      }
    }
  }

  // Nothing is known of a run on storage that is not sound.
  lemma SessionGoes(t: Trip, w: World, w': World, s: Session, log: Log, r: Result, sound: bool, h0: Story, h: Story)
    requires Going(t, w, log, h0, h) && Handled(log, s) && ItemDone(t, w, w', log.at, r, sound)
    ensures sound && SessionFits(t, w, s) ==> SessionFits(t, w', MoreSession(s, r, w'))
  {
    if sound && SessionFits(t, w, s) {
      StillOnCard(t.cfg, t.plan, log.at, t.w0.card, w.card);
      SessionStep(t, w, w', s, log.at, r);
    }
  }

  /* ----- the loop ----- */

  lemma LoopBegins(t: Trip, db: Db, h: Story)
    requires Progressed(t, t.w0, []) && Records(h, db) && db.jobs == t.w0.jobs
    ensures Going(t, t.w0, NEW, h, h)
    ensures SessionFits(t, t.w0, Session(t.plan, [], [SnapOf(t.w0)])) && Continues(h, h)
  {
  }

  // All items so far have been handled and the process is alive.
  predicate Handled(log: Log, s: Session) {
    |log.at| == |log.traces| == |s.results| && forall k :: 0 <= k < |s.results| ==> !s.results[k].Crashed?
  }

  // One iteration of the loop over the plan.
  method OffloadNext(cfg: Config, serial: string, plan: seq<PlannedCopy>, card: Card, disk: Disk, ledger: Ledger, log: Log,
                     ghost t: Trip, ghost s: Session, ghost h0: Story, ghost h: Story)
    returns (r: Result, log': Log, ghost s': Session, ghost h': Story)
    requires Records(h, ledger.Value()) && t == Trip(cfg, serial, plan, t.w0)
    requires Going(t, Now(card, disk, ledger), log, h0, h) && |log.at| < |plan| && Handled(log, s)
    modifies card, disk, ledger`imported, ledger`jobs
    ensures Continues(h, h') && Records(h', ledger.Value())
    ensures Going(t, Now(card, disk, ledger), log', h0, h')
    ensures |log'.at| == |log.at| + 1 && (!r.Crashed? ==> Handled(log', s'))
    ensures disk.faithful && card.reliable && SessionFits(t, old(Now(card, disk, ledger)), s) ==>
              SessionFits(t, Now(card, disk, ledger), s')
  {
    ghost var w := Now(card, disk, ledger);
    r, h' := OffloadItem(cfg, serial, plan[|log.at|], card, disk, ledger, h);
    log' := Logged(log, plan[|log.at|], r);
    ghost var w' := Now(card, disk, ledger);
    s' := MoreSession(s, r, w');
    GoingStep(t, w, w', log, r, disk.faithful && card.reliable, h0, h, h');
    SessionGoes(t, w, w', s, log, r, disk.faithful && card.reliable, h0, h);
  }

  // The loop over the plan.
  method RunItems(cfg: Config, serial: string, plan: seq<PlannedCopy>, card: Card, disk: Disk, ledger: Ledger, ghost h: Story)
    returns (completed: bool, log: Log, ghost s: Session, ghost h': Story)
    requires Records(h, ledger.Value())
    requires Progressed(Trip(cfg, serial, plan, Now(card, disk, ledger)), Now(card, disk, ledger), [])
    modifies card, disk, ledger`imported, ledger`jobs
    ensures Continues(h, h') && Records(h', ledger.Value())
    ensures Going(Trip(cfg, serial, plan, old(Now(card, disk, ledger))), Now(card, disk, ledger), log, h, h')
    ensures completed ==> |log.at| == |plan| == |log.traces|
    ensures disk.faithful && card.reliable ==>
              && SessionFits(Trip(cfg, serial, plan, old(Now(card, disk, ledger))), Now(card, disk, ledger), s)
              && (completed ==> Completes(s))
  {
    ghost var t := Trip(cfg, serial, plan, Now(card, disk, ledger));
    completed, log, h' := false, NEW, h;
    s := Session(plan, [], [SnapOf(t.w0)]);
    LoopBegins(t, ledger.Value(), h);
    for i := 0 to |plan|
      invariant Handled(log, s) && |log.at| == i
      invariant Going(t, Now(card, disk, ledger), log, h, h')
      invariant Continues(h, h') && Records(h', ledger.Value())
      invariant disk.faithful && card.reliable ==> SessionFits(t, Now(card, disk, ledger), s)
    {
      var r;
      ghost var h1 := h';
      r, log, s, h' := OffloadNext(cfg, serial, plan, card, disk, ledger, log, t, s, h, h1);
      ContinuesOn(h, h1, h');
      if r.Crashed? {
        return;
      }
    }
    completed := true;
  }

  /* ----- scan, then the loop, then the closing event ----- */

  predicate DistinctSources(listing: seq<Entry>) {
    forall i, j :: 0 <= i < j < |listing| ==> listing[i].src != listing[j].src
  }

  function PlanBytes(plan: seq<PlannedCopy>): nat {
    if plan == [] then 0 else PlanBytes(plan[..|plan| - 1]) + plan[|plan| - 1].entry.size
  }

  lemma {:induction false} KeptDistinct(listing: seq<Entry>, cfg: Config, rows: seq<Imported>, serial: string)
    requires DistinctSources(listing)
    ensures DistinctSources(Kept(listing, cfg, rows, serial))
  {
    if listing != [] {
      var n := |listing| - 1;
      KeptDistinct(listing[..n], cfg, rows, serial);
      forall e | e in Kept(listing[..n], cfg, rows, serial) ensures e.src != listing[n].src {
        var i :| 0 <= i < n && listing[i] == e;
      }
    }
  }

  lemma PlanIsSound(plan: seq<PlannedCopy>, listing: seq<Entry>, cfg: Config, rows: seq<Imported>, serial: string,
                    card: map<string, Bytes>)
    requires DistinctSources(listing) && Entries(plan) == Kept(listing, cfg, rows, serial)
    requires forall e :: e in listing ==> e.src in card
    ensures SourceOk(plan, card)
    ensures forall i :: 0 <= i < |plan| ==> plan[i].entry in listing && !Known(rows, KeyOf(serial, plan[i].entry))
    ensures forall e :: e in listing && Wanted(cfg, e) && !Known(rows, KeyOf(serial, e)) ==>
                          exists i :: 0 <= i < |plan| && plan[i].entry == e
  {
    KeptDistinct(listing, cfg, rows, serial);
    var es := Entries(plan);
    assert forall i :: 0 <= i < |plan| ==> es[i] == plan[i].entry;
    assert forall i :: 0 <= i < |plan| ==> plan[i].entry in es;
    forall e | e in listing && Wanted(cfg, e) && !Known(rows, KeyOf(serial, e))
      ensures exists i :: 0 <= i < |plan| && plan[i].entry == e
    {
      assert e in es;
    }
  }

  lemma Begins(t: Trip)
    requires PlanFree(t.plan, t.w0.files.Keys) && UniqueKeys(t.w0.rows) && SourceOk(t.plan, t.w0.card)
    ensures Progressed(t, t.w0, [])
  {
  }

  ghost predicate AllKnown(listing: seq<Entry>, cfg: Config, rows: seq<Imported>, serial: string) {
    forall e :: e in listing && Wanted(cfg, e) ==> Known(rows, KeyOf(serial, e))
  }

  // One run of the app on an inserted card. On sound storage it is a session.
  method RunOffload(cfg: Config, serial: string, listing: seq<Entry>, card: Card, disk: Disk, ledger: Ledger, ghost h: Story)
    returns (completed: bool, plan: seq<PlannedCopy>, log: Log, events: seq<A.RunEvent>, ghost s: Session, ghost h': Story)
    requires Records(h, ledger.Value()) && UniqueKeys(ledger.imported) && DistinctSources(listing)
    requires forall e :: e in listing ==> e.src in card.files
    modifies card, disk, ledger`imported, ledger`jobs
    ensures Continues(h, h') && Records(h', ledger.Value())
    ensures Entries(plan) == Kept(listing, cfg, old(ledger.imported), serial) && PlanOk(plan, old(disk.files).Keys)
    ensures Going(Trip(cfg, serial, plan, old(Now(card, disk, ledger))), Now(card, disk, ledger), log, h, h')
    ensures Counted(log.c, log.traces, |ledger.jobs| - |old(ledger.jobs)|)
    ensures completed ==> |log.at| == |plan| == |log.traces|
    ensures completed ==>
              events == Opening([], |plan|, PlanBytes(plan)) + ItemsEvents(log.traces, |plan|)
                        + [A.RunComplete(Summed(log.c, SkipCount(listing, cfg, old(ledger.imported), serial)))]
    ensures disk.faithful && card.reliable ==>
              && SessionFits(Trip(cfg, serial, plan, old(Now(card, disk, ledger))), Now(card, disk, ledger), s)
              && (completed ==> Completes(s))
  {
    var skipped;
    plan, skipped := Scan(listing, cfg, ledger, serial, disk);
    PlanIsSound(plan, listing, cfg, ledger.imported, serial, card.files);
    Begins(Trip(cfg, serial, plan, Now(card, disk, ledger)));
    completed, log, s, h' := RunItems(cfg, serial, plan, card, disk, ledger, h);
    CountsAdd(log.traces);
    events := Opening([], |plan|, PlanBytes(plan)) + ItemsEvents(log.traces, |plan|);
    if completed {
      events := events + [A.RunComplete(Summed(log.c, skipped))];
    }
  }

  function Summed(c: Counters, skipped: nat): A.Summary {
    A.Summary(c.copied, skipped + c.adopted, c.failed, c.bytes)
  }
}
