/**
  How the statements of a commit (transfer.rs), of a drain (worker.rs) and of the
  camera reap (wired/offload.rs) are steps of the shared queue: the imperative
  methods of the other modules record, for everything they do, a legal history
  of CloudStore with the same tables, the same stored objects and the same card.
 */
module QueueSteps {
  import opened Wrappers
  import opened Tables
  import opened Storage
  import opened S = CloudStore
  import Q = CloudQueue

  // What became of one upload; `AlreadyPresent` is the pre-flight skip.
  datatype UploadResult = AlreadyPresent | Landed | Refused(error: string, retryable: bool)

  predicate Retries(job: Job, r: UploadResult, maxAttempts: nat) {
    r.Refused? && r.retryable && job.attempts + 1 < maxAttempts
  }

  // The job table and the imported rows after one result has been recorded.
  function SettledJobs(jobs: seq<Job>, id: nat, r: UploadResult, maxAttempts: nat, next: int): seq<Job>
    requires id < |jobs|
  {
    match r
    case AlreadyPresent => MarkDone(jobs, id)
    case Landed => MarkDone(SaveProgress(jobs, id, jobs[id].spec.total), id)
    case Refused(error, _) => MarkFailed(jobs, id, error, if Retries(jobs[id], r, maxAttempts) then Some(next) else None)
  }

  function SettledRows(imported: seq<Imported>, job: Job, r: UploadResult, maxAttempts: nat): seq<Imported> {
    if Retries(job, r, maxAttempts) then imported
    else SetStatus(imported, job.importedId, if r.Refused? then StatusFailed else StatusDone)
  }

  // A history of the shared queue in which drain `p` does what the imperative
  // drain does; any other process may have acted before `s0`.
  datatype Story = Story(s0: Store, p: nat, es: seq<Step>)

  function Then(h: Story, more: seq<Step>): Story {
    h.(es := h.es + more)
  }

  ghost predicate Lawful(h: Story) {
    Legal(h.s0, h.es)
  }

  function Final(h: Story): Store
    requires Legal(h.s0, h.es)
  {
    Run(h.s0, h.es)
  }

  ghost predicate Continues(h: Story, h': Story) {
    h'.s0 == h.s0 && h'.p == h.p && h.es <= h'.es
  }

  lemma ContinuesFurther(h: Story, h': Story, more: seq<Step>)
    requires Continues(h, h')
    ensures Continues(h, Then(h', more))
  {
  }

  lemma ContinuesOn(h: Story, h': Story, h'': Story)
    requires Continues(h, h') && Continues(h', h'')
    ensures Continues(h, h'')
  {
  }

  predicate Matched(s: Store) {
    |s.payload| == |s.q.jobs| == |s.sources|
  }

  // The story is legal and leads to these tables.
  ghost predicate Records(h: Story, db: Db) {
    && Legal(h.s0, h.es) && Matched(Final(h))
    && Db(Final(h).q.imported, Final(h).q.jobs, Final(h).q.deletes) == db
  }

  // What a drain sees beside the tables: the server, the card, the local files of
  // the jobs, and what has been freed on the card.
  datatype Outside = Outside(remote: map<string, Bytes>, card: map<string, Bytes>, payload: seq<Bytes>, freed: seq<Freed>)

  function OutsideOf(s: Store): Outside {
    Outside(s.remote, s.card, s.payload, s.freed)
  }

  // ... with the drain standing at `w`.
  ghost predicate Tells(h: Story, db: Db, out: Outside, w: Q.Worker) {
    && Records(h, db)
    && OutsideOf(Final(h)) == out && Q.At(Final(h).q, h.p) == w && h.p !in Final(h).freeing
  }

  lemma OneMore(h: Story, e: Step)
    requires Legal(h.s0, h.es) && Enabled(Final(h), e)
    ensures Legal(h.s0, Then(h, [e]).es) && Final(Then(h, [e])) == S.Next(Final(h), e)
  {
    LegalAppend(h.s0, h.es, e);
  }

  lemma ThenThen(h: Story, a: seq<Step>, b: seq<Step>)
    ensures Then(Then(h, a), b) == Then(h, a + b)
  {
    assert h.es + a + b == h.es + (a + b);
  }

  // A table statement that starts, stamps and ends nothing.
  predicate Plain(e: Q.Event) {
    !e.Commit? && !e.Confirm? && !e.Claim? && !e.StampDone? && !e.Crash?
  }

  lemma OneStatement(h: Story, e: Q.Event)
    requires Legal(h.s0, h.es) && Plain(e) && Q.Enabled(Final(h).q, e) && (Q.Worked(e) ==> e.p !in Final(h).freeing)
    ensures Legal(h.s0, Then(h, [Table(e)]).es)
    ensures Final(Then(h, [Table(e)])) == Final(h).(q := Q.Next(Final(h).q, e))
    ensures Matched(Final(h)) ==> Matched(Final(Then(h, [Table(e)])))
  {
    OneMore(h, Table(e));
    Q.OnlyCommitsEnqueue(Final(h).q, e);
    Q.OnlyConfirmConfirms(Final(h).q, e);
  }

  // The story as far as the card has been left alone; now `card` is mounted.
  lemma CardStep(h: Story, db: Db, card: map<string, Bytes>)
    requires Records(h, db)
    ensures Records(Then(h, [CardChange(card)]), db)
    ensures Final(Then(h, [CardChange(card)])) == Final(h).(card := card)
  {
    OneMore(h, CardChange(card));
  }

  /* ----- a drain ----- */

  function Flight(claimed: map<nat, Job>, left: set<nat>): map<nat, nat> {
    map id | id in left && id in claimed :: claimed[id].attempts
  }

  function Pass(claimed: map<nat, Job>, left: set<nat>): Q.Worker {
    Q.Passing(claimed.Keys, Flight(claimed, left), Q.Joining)
  }

  // In the join loop: the uploads in `left` have not been joined, nor looked at.
  ghost predicate TellsPass(h: Story, db: Db, out: Outside, claimed: map<nat, Job>, left: set<nat>) {
    Tells(h, db, out, Pass(claimed, left)) && forall j :: j in left ==> j !in Final(h).tasks
  }

  // The drain takes the lock, reclaims, and finds `card` mounted.
  function Beginning(p: nat, card: map<string, Bytes>): seq<Step> {
    [CardChange(card), Table(Q.TryLock(p)), Table(Q.ReclaimUnderLock(p))]
  }

  lemma Begin(h: Story, db: Db, out: Outside, card: map<string, Bytes>)
    requires Tells(h, db, out, Q.Idle) && Final(h).q.lock.None?
    ensures Tells(Then(h, Beginning(h.p, card)), db.(jobs := Reclaim(db.jobs)), out.(card := card), Q.Draining)
  {
    CardStep(h, db, card);
    var h1 := Then(h, [CardChange(card)]);
    OneStatement(h1, Q.TryLock(h.p));
    var h2 := Then(h1, [Table(Q.TryLock(h.p))]);
    OneStatement(h2, Q.ReclaimUnderLock(h.p));
    assert h.es + [CardChange(card)] + [Table(Q.TryLock(h.p))] + [Table(Q.ReclaimUnderLock(h.p))]
        == h.es + Beginning(h.p, card);
  }

  lemma LockedOut(h: Story, db: Db, out: Outside)
    requires Tells(h, db, out, Q.Idle) && Final(h).q.lock.Some?
    ensures Tells(Then(h, [Table(Q.TryLock(h.p))]), db, out, Q.Idle)
  {
    OneStatement(h, Q.TryLock(h.p));
  }

  // `claimed` is what the claim returned: the due rows as it left them.
  ghost predicate ClaimedFrom(claimed: map<nat, Job>, jobs: seq<Job>, ids: seq<nat>) {
    && (forall id :: id in claimed <==> id in ids)
    && (forall id :: id in ids ==> id < |jobs| && claimed[id] == jobs[id].(state := Uploading))
  }

  lemma NewPassIs(claimed: map<nat, Job>, jobs: seq<Job>, ids: seq<nat>)
    requires ClaimedFrom(claimed, jobs, ids)
    ensures Q.NewPass(jobs, ids) == Pass(claimed, claimed.Keys)
  {
    assert (set i | i in ids) == claimed.Keys;
    assert (map i | i in ids && i < |jobs| :: jobs[i].attempts) == Flight(claimed, claimed.Keys);
  }

  lemma {:induction false} ClaimStep(h: Story, db: Db, out: Outside, now: int, limit: nat, claimed: map<nat, Job>)
    requires Tells(h, db, out, Q.Draining) && ClaimedFrom(claimed, db.jobs, DueIds(db.jobs, 0, now, limit))
    ensures var ids := DueIds(db.jobs, 0, now, limit);
            var h' := Then(h, [Table(Q.Claim(h.p, now, limit))]);
            if ids == [] then Tells(h', db, out, Q.Draining)
            else TellsPass(h', db.(jobs := ClaimRows(db.jobs, ids)), out, claimed, claimed.Keys)
  {
    OneMore(h, Table(Q.Claim(h.p, now, limit)));
    var ids := DueIds(db.jobs, 0, now, limit);
    if ids != [] {
      NewPassIs(claimed, db.jobs, ids);
      assert forall j :: j in claimed.Keys ==> j in (set i | i in ids);
    }
  }

  // What the upload task itself did: look, then perhaps send. A refusal may come
  // before either, and a transfer reported as failed may have gone through.
  datatype Try = Try(looked: bool, sent: bool)

  predicate TryOk(t: Try, r: UploadResult, remote: map<string, Bytes>, spec: JobSpec) {
    && (t.sent ==> t.looked && !Present(remote, spec))
    && (r.AlreadyPresent? ==> t.looked && !t.sent && Present(remote, spec))
    && (r.Landed? ==> t.sent)
  }

  function RemoteAfter(out: Outside, t: Try, id: nat, path: string): map<string, Bytes> {
    if t.sent && id < |out.payload| then out.remote[path := out.payload[id]] else out.remote
  }

  // What the drain does about the card after a landed upload: `mounted` is the
  // card by then, `wish` the setting, `works` whether the removal succeeds.
  datatype Freeing = Freeing(mounted: map<string, Bytes>, wish: bool, works: bool)

  predicate Removal(f: Freeing, r: UploadResult, spec: JobSpec) {
    r.Landed? && f.wish && f.works && spec.cardSrc.Some? && spec.cardSrc.value in f.mounted
  }

  function SettledOutside(out: Outside, t: Try, f: Freeing, id: nat, r: UploadResult, spec: JobSpec): Outside {
    var removes := Removal(f, r, spec);
    Outside(RemoteAfter(out, t, id, spec.remotePath),
            if removes then f.mounted - {spec.cardSrc.value} else f.mounted,
            out.payload,
            if removes then out.freed + [Freed(id, f.mounted[spec.cardSrc.value])] else out.freed)
  }

  // The statements that record one result, as the join loop issues them.
  function SettleEvents(p: nat, id: nat, job: Job, r: UploadResult, maxAttempts: nat, next: int): seq<Q.Event> {
    match r
    case AlreadyPresent => [Q.Confirm(p, id), Q.StoreDone(p), Q.StampDone(p)]
    case Landed => [Q.Confirm(p, id), Q.Event.Progress(p, id, job.spec.total), Q.StoreDone(p), Q.StampDone(p)]
    case Refused(error, retryable) =>
      [Q.Fail(p, id, error, retryable, maxAttempts, next)] + if Retries(job, r, maxAttempts) then [] else [Q.StampFailed(p)]
  }

  function AsStep(e: Q.Event): Step {
    match e
    case Confirm(p, id) => Join(p, id)
    case _ => Table(e)
  }

  function AsSteps(es: seq<Q.Event>): seq<Step> {
    seq(|es|, i requires 0 <= i < |es| => AsStep(es[i]))
  }

  function TrySteps(p: nat, id: nat, t: Try, landed: bool): seq<Step> {
    (if t.looked then [Preflight(p, id)] else []) + if t.sent then [Put(p, id, landed)] else []
  }

  // One upload from the look at the server to the card.
  function UploadEvents(p: nat, id: nat, job: Job, r: UploadResult, t: Try, f: Freeing, maxAttempts: nat, next: int): seq<Step> {
    TrySteps(p, id, t, r.Landed?) + [CardChange(f.mounted)] + AsSteps(SettleEvents(p, id, job, r, maxAttempts, next))
    + if r.Landed? then [Free(p, f.wish, f.works)] else []
  }

  // The upload task: it touches the server and nothing else.
  ghost predicate Tried(h: Story, db: Db, out: Outside, claimed: map<nat, Job>, left: set<nat>, id: nat, r: UploadResult) {
    && Tells(h, db, out, Pass(claimed, left)) && id in left
    && (forall j :: j in left && j != id ==> j !in Final(h).tasks)
    && (r.AlreadyPresent? ==> id in Final(h).tasks && Final(h).tasks[id] == S.Found)
    && (r.Landed? ==> id in Final(h).tasks && Final(h).tasks[id] == Stored)
  }

  lemma TryStep(h: Story, db: Db, out: Outside, claimed: map<nat, Job>, left: set<nat>, id: nat, r: UploadResult, t: Try)
    requires TellsPass(h, db, out, claimed, left) && id in left && left <= claimed.Keys && id < |db.jobs|
    requires TryOk(t, r, out.remote, db.jobs[id].spec)
    ensures Tried(Then(h, TrySteps(h.p, id, t, r.Landed?)), db,
                  out.(remote := RemoteAfter(out, t, id, db.jobs[id].spec.remotePath)), claimed, left, id, r)
  {
    var h1 := if t.looked then Then(h, [Preflight(h.p, id)]) else h;
    if t.looked {
      OneMore(h, Preflight(h.p, id));
    }
    if t.sent {
      OneMore(h1, Put(h.p, id, r.Landed?));
      assert h.es + [Preflight(h.p, id)] + [Put(h.p, id, r.Landed?)] == h.es + TrySteps(h.p, id, t, r.Landed?);
    } else {
      assert h1.es == h.es + TrySteps(h.p, id, t, r.Landed?);
    }
  }

  // The upload is joined and confirmed.
  lemma JoinStep(h: Story, db: Db, out: Outside, claimed: map<nat, Job>, left: set<nat>, id: nat, r: UploadResult)
    requires Tried(h, db, out, claimed, left, id, r) && !r.Refused? && left <= claimed.Keys && id < |db.jobs|
    ensures Tells(Then(h, [Join(h.p, id)]), db, out,
                  Q.Passing(claimed.Keys, Flight(claimed, left - {id}), Q.Confirmed(id)))
    ensures Final(Then(h, [Join(h.p, id)])).tasks == Final(h).tasks
  {
    OneMore(h, Join(h.p, id));
    assert Flight(claimed, left) - {id} == Flight(claimed, left - {id});
  }

  // The two writes that follow; a transfer is now to be followed by the card.
  lemma StoreStep(h: Story, db: Db, out: Outside, claimed: set<nat>, inFlight: map<nat, nat>, id: nat)
    requires Tells(h, db, out, Q.Passing(claimed, inFlight, Q.Confirmed(id))) && id < |db.jobs|
    requires id in Final(h).tasks
    ensures var h' := Then(h, [Table(Q.StoreDone(h.p)), Table(Q.StampDone(h.p))]);
            && Records(h', Db(SetStatus(db.imported, db.jobs[id].importedId, StatusDone), MarkDone(db.jobs, id), db.deletes))
            && OutsideOf(Final(h')) == out && Q.At(Final(h').q, h.p) == Q.Passing(claimed, inFlight, Q.Joining)
            && Final(h').tasks == Final(h).tasks
            && Final(h').freeing == if Final(h).tasks[id] == Stored then Final(h).freeing[h.p := id] else Final(h).freeing
  {
    OneStatement(h, Q.StoreDone(h.p));
    var h1 := Then(h, [Table(Q.StoreDone(h.p))]);
    StampStep(h1, claimed, inFlight, id);
    ThenThen(h, [Table(Q.StoreDone(h.p))], [Table(Q.StampDone(h.p))]);
    assert [Table(Q.StoreDone(h.p))] + [Table(Q.StampDone(h.p))] == [Table(Q.StoreDone(h.p)), Table(Q.StampDone(h.p))];
  }

  lemma StampStep(h: Story, claimed: set<nat>, inFlight: map<nat, nat>, id: nat)
    requires Legal(h.s0, h.es) && Matched(Final(h)) && id < |Final(h).q.jobs| && id in Final(h).tasks
    requires Q.At(Final(h).q, h.p) == Q.Passing(claimed, inFlight, Q.MarkedDone(id)) && h.p !in Final(h).freeing
    ensures var s := Final(h); var h' := Then(h, [Table(Q.StampDone(h.p))]);
            && Legal(h'.s0, h'.es) && Matched(Final(h'))
            && Final(h') == s.(q := s.q.(imported := SetStatus(s.q.imported, s.q.jobs[id].importedId, StatusDone),
                                         workers := s.q.workers[h.p := Q.Passing(claimed, inFlight, Q.Joining)]),
                               freeing := if s.tasks[id] == Stored then s.freeing[h.p := id] else s.freeing)
  {
    OneMore(h, Table(Q.StampDone(h.p)));
  }

  // What lies at the card path goes, if it is to go and can be removed.
  lemma FreeStep(h: Story, id: nat, wish: bool, works: bool)
    requires Legal(h.s0, h.es) && Matched(Final(h)) && id < |Final(h).q.jobs|
    requires h.p in Final(h).freeing && Final(h).freeing[h.p] == id
    ensures var s := Final(h); var h' := Then(h, [Free(h.p, wish, works)]);
            var src := s.q.jobs[id].spec.cardSrc;
            var removes := wish && works && src.Some? && src.value in s.card;
            && Legal(h'.s0, h'.es)
            && Final(h') == s.(freeing := s.freeing - {h.p},
                               card := if removes then s.card - {src.value} else s.card,
                               freed := if removes then s.freed + [Freed(id, s.card[src.value])] else s.freed)
  {
    OneMore(h, Free(h.p, wish, works));
  }

  // A skipped or a finished upload, on record.
  lemma SettleSkipped(h: Story, db: Db, out: Outside, claimed: map<nat, Job>, left: set<nat>, id: nat)
    requires Tried(h, db, out, claimed, left, id, AlreadyPresent) && left <= claimed.Keys && id < |db.jobs|
    ensures TellsPass(Then(h, AsSteps(SettleEvents(h.p, id, db.jobs[id], AlreadyPresent, 0, 0))),
                      Db(SetStatus(db.imported, db.jobs[id].importedId, StatusDone), MarkDone(db.jobs, id), db.deletes),
                      out, claimed, left - {id})
  {
    JoinStep(h, db, out, claimed, left, id, AlreadyPresent);
    StoreStep(Then(h, [Join(h.p, id)]), db, out, claimed.Keys, Flight(claimed, left - {id}), id);
    ThenThen(h, [Join(h.p, id)], [Table(Q.StoreDone(h.p)), Table(Q.StampDone(h.p))]);
    assert AsSteps(SettleEvents(h.p, id, db.jobs[id], AlreadyPresent, 0, 0))
        == [Join(h.p, id)] + [Table(Q.StoreDone(h.p)), Table(Q.StampDone(h.p))];
  }

  lemma ProgressStep(h: Story, db: Db, out: Outside, w: Q.Worker, id: nat, n: nat)
    requires Tells(h, db, out, w) && w.Passing? && w.stage == Q.Confirmed(id) && id < |db.jobs|
    ensures Tells(Then(h, [Table(Q.Event.Progress(h.p, id, n))]), db.(jobs := SaveProgress(db.jobs, id, n)), out, w)
    ensures Final(Then(h, [Table(Q.Event.Progress(h.p, id, n))])).tasks == Final(h).tasks
  {
    OneStatement(h, Q.Event.Progress(h.p, id, n));
  }

  // A finished transfer, its bytes counted.
  lemma LandedCounted(h: Story, db: Db, out: Outside, claimed: map<nat, Job>, left: set<nat>, id: nat, n: nat)
    requires Tried(h, db, out, claimed, left, id, Landed) && left <= claimed.Keys && id < |db.jobs|
    ensures var h2 := Then(h, [Join(h.p, id), Table(Q.Event.Progress(h.p, id, n))]);
            && Tells(h2, db.(jobs := SaveProgress(db.jobs, id, n)), out,
                     Q.Passing(claimed.Keys, Flight(claimed, left - {id}), Q.Confirmed(id)))
            && Final(h2).tasks == Final(h).tasks
  {
    var w := Q.Passing(claimed.Keys, Flight(claimed, left - {id}), Q.Confirmed(id));
    var progress := Table(Q.Event.Progress(h.p, id, n));
    JoinStep(h, db, out, claimed, left, id, Landed);
    ProgressStep(Then(h, [Join(h.p, id)]), db, out, w, id, n);
    ThenThen(h, [Join(h.p, id)], [progress]);
    assert [Join(h.p, id)] + [progress] == [Join(h.p, id), progress];
  }

  // ... up to its stamp: the card comes next.
  lemma LandedStored(h: Story, db: Db, out: Outside, claimed: map<nat, Job>, left: set<nat>, id: nat)
    requires Tried(h, db, out, claimed, left, id, Landed) && left <= claimed.Keys && id < |db.jobs|
    ensures var h' := Then(h, AsSteps(SettleEvents(h.p, id, db.jobs[id], Landed, 0, 0)));
            && Records(h', Db(SetStatus(db.imported, db.jobs[id].importedId, StatusDone),
                              MarkDone(SaveProgress(db.jobs, id, db.jobs[id].spec.total), id), db.deletes))
            && OutsideOf(Final(h')) == out && Q.At(Final(h').q, h.p) == Pass(claimed, left - {id})
            && Final(h').tasks == Final(h).tasks && h.p in Final(h').freeing && Final(h').freeing[h.p] == id
  {
    var n := db.jobs[id].spec.total;
    var counted := [Join(h.p, id), Table(Q.Event.Progress(h.p, id, n))];
    LandedCounted(h, db, out, claimed, left, id, n);
    StoreStep(Then(h, counted), db.(jobs := SaveProgress(db.jobs, id, n)), out, claimed.Keys, Flight(claimed, left - {id}), id);
    ThenThen(h, counted, [Table(Q.StoreDone(h.p)), Table(Q.StampDone(h.p))]);
    assert counted + [Table(Q.StoreDone(h.p)), Table(Q.StampDone(h.p))]
        == AsSteps(SettleEvents(h.p, id, db.jobs[id], Landed, 0, 0));
  }

  lemma SettleLanded(h: Story, db: Db, out: Outside, claimed: map<nat, Job>, left: set<nat>, id: nat, wish: bool, works: bool)
    requires Tried(h, db, out, claimed, left, id, Landed) && left <= claimed.Keys && id < |db.jobs|
    ensures var spec := db.jobs[id].spec;
            var removes := wish && works && spec.cardSrc.Some? && spec.cardSrc.value in out.card;
            TellsPass(Then(h, AsSteps(SettleEvents(h.p, id, db.jobs[id], Landed, 0, 0)) + [Free(h.p, wish, works)]),
                      Db(SetStatus(db.imported, db.jobs[id].importedId, StatusDone),
                         MarkDone(SaveProgress(db.jobs, id, spec.total), id), db.deletes),
                      out.(card := if removes then out.card - {spec.cardSrc.value} else out.card,
                           freed := if removes then out.freed + [Freed(id, out.card[spec.cardSrc.value])] else out.freed),
                      claimed, left - {id})
  {
    var settle := AsSteps(SettleEvents(h.p, id, db.jobs[id], Landed, 0, 0));
    LandedStored(h, db, out, claimed, left, id);
    FreeStep(Then(h, settle), id, wish, works);
    ThenThen(h, settle, [Free(h.p, wish, works)]);
  }

  lemma SettleRefused(h: Story, db: Db, out: Outside, claimed: map<nat, Job>, left: set<nat>, id: nat, r: UploadResult,
                      maxAttempts: nat, next: int)
    requires Tried(h, db, out, claimed, left, id, r) && r.Refused? && left <= claimed.Keys && id < |db.jobs|
    requires claimed[id].attempts == db.jobs[id].attempts
    ensures TellsPass(Then(h, AsSteps(SettleEvents(h.p, id, db.jobs[id], r, maxAttempts, next))),
                      Db(SettledRows(db.imported, db.jobs[id], r, maxAttempts),
                         SettledJobs(db.jobs, id, r, maxAttempts, next), db.deletes),
                      out, claimed, left - {id})
  {
    var e := Q.Fail(h.p, id, r.error, r.retryable, maxAttempts, next);
    assert Flight(claimed, left) - {id} == Flight(claimed, left - {id});
    OneStatement(h, e);
    var steps := AsSteps(SettleEvents(h.p, id, db.jobs[id], r, maxAttempts, next));
    if Retries(db.jobs[id], r, maxAttempts) {
      assert steps == [Table(e)];
    } else {
      OneStatement(Then(h, [Table(e)]), Q.StampFailed(h.p));
      ThenThen(h, [Table(e)], [Table(Q.StampFailed(h.p))]);
      assert steps == [Table(e)] + [Table(Q.StampFailed(h.p))];
    }
  }

  // One upload of the drain, whatever became of it, is these steps of the queue.
  lemma {:induction false} SettleStep(h: Story, db: Db, out: Outside, claimed: map<nat, Job>, left: set<nat>, id: nat, r: UploadResult,
                   t: Try, f: Freeing, maxAttempts: nat, next: int)
    requires TellsPass(h, db, out, claimed, left)
    requires id in left && left <= claimed.Keys && id < |db.jobs| && claimed[id].attempts == db.jobs[id].attempts
    requires TryOk(t, r, out.remote, db.jobs[id].spec)
    ensures TellsPass(Then(h, UploadEvents(h.p, id, db.jobs[id], r, t, f, maxAttempts, next)),
                      Db(SettledRows(db.imported, db.jobs[id], r, maxAttempts),
                         SettledJobs(db.jobs, id, r, maxAttempts, next), db.deletes),
                      SettledOutside(out, t, f, id, r, db.jobs[id].spec), claimed, left - {id})
  {
    var tries := TrySteps(h.p, id, t, r.Landed?);
    var tried := out.(remote := RemoteAfter(out, t, id, db.jobs[id].spec.remotePath));
    TryStep(h, db, out, claimed, left, id, r, t);
    var h1 := Then(h, tries);
    CardStep(h1, db, f.mounted);
    var h2 := Then(h1, [CardChange(f.mounted)]);
    var there := tried.(card := f.mounted);
    assert Tried(h2, db, there, claimed, left, id, r);
    var settle := AsSteps(SettleEvents(h.p, id, db.jobs[id], r, maxAttempts, next));
    ThenThen(h, tries, [CardChange(f.mounted)]);
    match r {
      case AlreadyPresent =>
        SettleSkipped(h2, db, there, claimed, left, id);
        ThenThen(h, tries + [CardChange(f.mounted)], settle);
        assert tries + [CardChange(f.mounted)] + settle == UploadEvents(h.p, id, db.jobs[id], r, t, f, maxAttempts, next);
      case Landed =>
        SettleLanded(h2, db, there, claimed, left, id, f.wish, f.works);
        ThenThen(h, tries + [CardChange(f.mounted)], settle + [Free(h.p, f.wish, f.works)]);
        assert tries + [CardChange(f.mounted)] + (settle + [Free(h.p, f.wish, f.works)])
            == UploadEvents(h.p, id, db.jobs[id], r, t, f, maxAttempts, next);
      case Refused(_, _) =>
        SettleRefused(h2, db, there, claimed, left, id, r, maxAttempts, next);
        ThenThen(h, tries + [CardChange(f.mounted)], settle);
        assert tries + [CardChange(f.mounted)] + settle == UploadEvents(h.p, id, db.jobs[id], r, t, f, maxAttempts, next);
    }
  }

  lemma EndStep(h: Story, db: Db, out: Outside, claimed: map<nat, Job>)
    requires TellsPass(h, db, out, claimed, {})
    ensures Tells(Then(h, [Table(Q.EndPass(h.p))]), db, out, Q.Draining)
  {
    OneStatement(h, Q.EndPass(h.p));
  }

  lemma ReleaseStep(h: Story, db: Db, out: Outside)
    requires Tells(h, db, out, Q.Draining)
    ensures Tells(Then(h, [Table(Q.Release(h.p))]), db, out, Q.Idle)
  {
    OneStatement(h, Q.Release(h.p));
  }

  // The statements among the steps of one upload are those that record it.
  lemma UploadStatements(p: nat, id: nat, job: Job, r: UploadResult, t: Try, f: Freeing, maxAttempts: nat, next: int)
    ensures Statements(UploadEvents(p, id, job, r, t, f, maxAttempts, next)) == SettleEvents(p, id, job, r, maxAttempts, next)
  {
    var settle := SettleEvents(p, id, job, r, maxAttempts, next);
    var before := TrySteps(p, id, t, r.Landed?) + [CardChange(f.mounted)];
    var after := if r.Landed? then [Free(p, f.wish, f.works)] else [];
    NoStatements(before);
    NoStatements(after);
    StatementsOfSettle(settle);
    StatementsJoin(before, AsSteps(settle));
    StatementsJoin(before + AsSteps(settle), after);
  }

  lemma {:induction false} NoStatements(es: seq<Step>)
    requires forall i :: 0 <= i < |es| ==> Statement(es[i]) == []
    ensures Statements(es) == []
    decreases |es|
  {
    if es != [] {
      NoStatements(es[1..]);
    }
  }

  lemma {:induction false} StatementsJoin(a: seq<Step>, b: seq<Step>)
    ensures Statements(a + b) == Statements(a) + Statements(b)
    decreases |a|
  {
    if a == [] {
      assert a + b == b;
    } else {
      assert (a + b)[1..] == a[1..] + b;
      StatementsJoin(a[1..], b);
    }
  }

  lemma {:induction false} StatementsOfSettle(es: seq<Q.Event>)
    requires forall i :: 0 <= i < |es| ==> !es[i].Commit?
    ensures Statements(AsSteps(es)) == es
    decreases |es|
  {
    if es != [] {
      assert AsSteps(es)[1..] == AsSteps(es[1..]);
      StatementsOfSettle(es[1..]);
    }
  }

  /* ----- the reap ----- */

  // What one reap does to a marker, given the reply if a delete was sent.
  function Reaped(row: DeleteRow, listing: seq<Q.Media>, reply: Q.DeleteReply): DeleteRow {
    if Q.SameRecording(row, listing) && reply.OtherError? then row else row.(deleted := true)
  }

  // The story is legal, leads to these tables, and the reap has `due` before it.
  ghost predicate TellsReap(h: Story, db: Db, due: seq<nat>) {
    Records(h, db) && Q.ReapOf(Final(h).q, h.p) == Q.Reap(due, false)
  }

  function Issued(h: Story): seq<Q.Issue>
    requires Legal(h.s0, h.es)
  {
    Final(h).q.issued
  }

  function ReapEvents(r: nat, row: DeleteRow, listing: seq<Q.Media>, reply: Q.DeleteReply): seq<Step> {
    if !Q.SameRecording(row, listing) then [Table(Q.ReapClear(r, listing))]
    else if reply.OtherError? then [Table(Q.ReapDelete(r, listing, reply))]
    else [Table(Q.ReapDelete(r, listing, reply)), Table(Q.ReapMark(r))]
  }

  lemma ReapBegins(h: Story, db: Db, serial: string)
    requires Records(h, db)
    ensures TellsReap(Then(h, [Table(Q.ReapQuery(h.p, serial))]), db, DueDeletes(db.deletes, db.imported, serial, 0))
    ensures Issued(Then(h, [Table(Q.ReapQuery(h.p, serial))])) == Issued(h)
  {
    OneStatement(h, Q.ReapQuery(h.p, serial));
  }

  lemma ReapClears(h: Story, db: Db, due: seq<nat>, listing: seq<Q.Media>)
    requires TellsReap(h, db, due) && due != [] && due[0] < |db.deletes| && !Q.SameRecording(db.deletes[due[0]], listing)
    ensures var h' := Then(h, [Table(Q.ReapClear(h.p, listing))]);
            TellsReap(h', db.(deletes := MarkDeleted(db.deletes, due[0])), due[1..]) && Issued(h') == Issued(h)
  {
    OneStatement(h, Q.ReapClear(h.p, listing));
  }

  lemma ReapAsks(h: Story, db: Db, due: seq<nat>, listing: seq<Q.Media>, reply: Q.DeleteReply)
    requires TellsReap(h, db, due) && due != [] && due[0] < |db.deletes| && Q.SameRecording(db.deletes[due[0]], listing)
    ensures var row := db.deletes[due[0]];
            var h' := Then(h, [Table(Q.ReapDelete(h.p, listing, reply))]);
            && Records(h', db) && Issued(h') == Issued(h) + [Q.Issue(due[0], Q.Find(listing, row.dir, row.name).value)]
            && Q.ReapOf(Final(h').q, h.p) == if reply.OtherError? then Q.Reap(due[1..], false) else Q.Reap(due, true)
  {
    OneStatement(h, Q.ReapDelete(h.p, listing, reply));
  }

  lemma ReapMarks(h: Story, db: Db, due: seq<nat>)
    requires Records(h, db) && Q.ReapOf(Final(h).q, h.p) == Q.Reap(due, true) && due != [] && due[0] < |db.deletes|
    ensures var h' := Then(h, [Table(Q.ReapMark(h.p))]);
            TellsReap(h', db.(deletes := MarkDeleted(db.deletes, due[0])), due[1..]) && Issued(h') == Issued(h)
  {
    OneStatement(h, Q.ReapMark(h.p));
  }

  // One due marker, whatever the camera answers.
  lemma {:induction false} ReapOne(h: Story, db: Db, due: seq<nat>, listing: seq<Q.Media>, reply: Q.DeleteReply)
    requires TellsReap(h, db, due) && due != [] && due[0] < |db.deletes|
    ensures var row := db.deletes[due[0]];
            var h' := Then(h, ReapEvents(h.p, row, listing, reply));
            && TellsReap(h', db.(deletes := db.deletes[due[0] := Reaped(row, listing, reply)]), due[1..])
            && Issued(h') == Issued(h) + if Q.SameRecording(row, listing)
                                         then [Q.Issue(due[0], Q.Find(listing, row.dir, row.name).value)] else []
  {
    var row := db.deletes[due[0]];
    if !Q.SameRecording(row, listing) {
      ReapClears(h, db, due, listing);
    } else {
      var ask := Table(Q.ReapDelete(h.p, listing, reply));
      ReapAsks(h, db, due, listing, reply);
      if reply.OtherError? {
        assert db.deletes[due[0] := row] == db.deletes;
      } else {
        ReapMarks(Then(h, [ask]), db, due);
        ThenThen(h, [ask], [Table(Q.ReapMark(h.p))]);
        assert [ask] + [Table(Q.ReapMark(h.p))] == ReapEvents(h.p, row, listing, reply);
      }
    }
  }

  /* ----- commits ----- */

  function MarkerRow(key: Key, dir: string, id: nat): DeleteRow {
    DeleteRow(key.serial, dir, key.name, key.size, key.captured, id, false)
  }

  // What a commit enters: the row, the upload to queue if any, the camera
  // directory of the marker it owes if any, the bytes of the local file, and the
  // card that is mounted.
  datatype Entered = Entered(key: Key, dest: string, hash: Option<Digest>, spec: Option<JobSpec>, dir: Option<string>,
                             bytes: Bytes, mounted: map<string, Bytes>)

  function CommitEvents(c: Entered): seq<Step> {
    [CardChange(c.mounted), Record(c.key, c.dest, c.hash, c.spec, c.dir, c.bytes)]
  }

  // ... and what the store then knows of the job.
  ghost predicate Enters(h: Story, h': Story, c: Entered) {
    && Legal(h.s0, h.es) && Legal(h'.s0, h'.es)
    && Final(h').payload == Final(h).payload + (if c.spec.Some? then [c.bytes] else [])
    && Final(h').sources == Final(h).sources
         + (if c.spec.None? then []
            else [if c.spec.value.cardSrc.Some? then Lookup(c.mounted, c.spec.value.cardSrc.value) else None])
  }

  lemma RecordStep(h: Story, db: Db, c: Entered)
    requires Records(h, db) && Final(h).card == c.mounted
    ensures var (rows, id) := Upsert(db.imported, c.key, c.dest, c.hash);
            var h' := Then(h, [Record(c.key, c.dest, c.hash, c.spec, c.dir, c.bytes)]);
            && Records(h', Db(rows, db.jobs + (if c.spec.Some? then [NewJob(id, c.dest, c.spec.value)] else []), db.deletes))
            && (c.spec.Some? && c.dir.Some? ==> MarkerRow(c.key, c.dir.value, id) in Final(h').q.owed)
            && Enters(h, h', c)
  {
    var e := Record(c.key, c.dest, c.hash, c.spec, c.dir, c.bytes);
    OneMore(h, e);
    RecordedTables(Final(h), e);
    RecordedBytes(Final(h), e);
  }

  lemma {:induction false} CommitStep(h: Story, db: Db, c: Entered)
    requires Records(h, db)
    ensures var (rows, id) := Upsert(db.imported, c.key, c.dest, c.hash);
            var h' := Then(h, CommitEvents(c));
            && Records(h', Db(rows, db.jobs + (if c.spec.Some? then [NewJob(id, c.dest, c.spec.value)] else []), db.deletes))
            && (c.spec.Some? && c.dir.Some? ==> MarkerRow(c.key, c.dir.value, id) in Final(h').q.owed)
            && Enters(h, h', c)
  {
    CardStep(h, db, c.mounted);
    RecordStep(Then(h, [CardChange(c.mounted)]), db, c);
    ThenThen(h, [CardChange(c.mounted)], [Record(c.key, c.dest, c.hash, c.spec, c.dir, c.bytes)]);
    assert [CardChange(c.mounted)] + [Record(c.key, c.dest, c.hash, c.spec, c.dir, c.bytes)] == CommitEvents(c);
  }

  // The marker that a commit owes, inserted by a statement of its own.
  lemma InsertStep(h: Story, db: Db, row: DeleteRow)
    requires Records(h, db) && row in Final(h).q.owed
    ensures var h' := Then(h, [Table(Q.InsertMarker(row))]);
            Records(h', db.(deletes := db.deletes + [row])) && Final(h').payload == Final(h).payload
            && Final(h').sources == Final(h).sources
  {
    OneStatement(h, Q.InsertMarker(row));
  }

  // Whatever the offloads, drains and reaps of any processes have done to the
  // tables since they were created, in any order: every marker names a row of
  // its key, every row marked done has a Done job, and no job is lost.
  lemma {:induction false} TablesAreSafe(h: Story, db: Db)
    requires h.s0 == EMPTY && Records(h, db)
    ensures UniqueKeys(db.imported)
    ensures forall k :: 0 <= k < |db.deletes| ==> Q.MarkerOk(db.imported, db.deletes[k])
    ensures forall i :: 0 <= i < |db.imported| && db.imported[i].cloudStatus == StatusDone ==>
              exists j :: 0 <= j < |db.jobs| && db.jobs[j].importedId == i && db.jobs[j].state == Done
    ensures DoneCount(db.jobs) + PendingCount(db.jobs) + FailedCount(db.jobs) == |db.jobs| == Final(h).q.enqueued
  {
    StoreReachable(h.es);
    CountsPartition(db.jobs);
    forall i | 0 <= i < |db.imported| && db.imported[i].cloudStatus == StatusDone
      ensures exists j :: 0 <= j < |db.jobs| && db.jobs[j].importedId == i && db.jobs[j].state == Done
    {
      assert Q.Backed(Final(h).q, i);
    }
  }
}
