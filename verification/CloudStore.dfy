/**
  The queue with the bytes it is about: what each job's local file holds, what
  the server has stored, and what lies on the mounted card. The table statements
  are the events of CloudQueue; an upload is a pre-flight check, which skips the
  transfer if an object of the right size is there, and a transfer; the card may
  be swapped at any moment; a landed upload may be followed by the removal of
  whatever then lies at the job's card path.
 */
module CloudStore {
  import opened Wrappers
  import opened Tables
  import opened Storage
  import Q = CloudQueue

  // How far the upload of a claimed job has come.
  datatype Task = Found | Missing | Stored

  // A card file removed after an upload, with the bytes that were removed.
  datatype Freed = Freed(job: nat, bytes: Bytes)

  datatype Store = Store(
    q: Q.State,
    payload: seq<Bytes>,           // of each job: its local file
    sources: seq<Option<Bytes>>,   // of each job: its card file when it was committed
    remote: map<string, Bytes>,
    card: map<string, Bytes>,
    tasks: map<nat, Task>,
    freeing: map<nat, nat>,        // drains about to free the card file of a job
    freed: seq<Freed>)

  datatype Step =
    | Table(e: Q.Event)
    | Record(key: Key, dest: string, hash: Option<Digest>, spec: Option<JobSpec>, dir: Option<string>, bytes: Bytes)
    | Preflight(p: nat, job: nat)
    | Put(p: nat, job: nat, reported: bool)
    | Join(p: nat, job: nat)
    | CardChange(card: map<string, Bytes>)
    | Free(p: nat, wish: bool, works: bool)

  const EMPTY := Store(Q.INIT, [], [], map[], map[], map[], map[], [])

  function PathOf(s: Store, j: nat): string
    requires j < |s.q.jobs|
  {
    s.q.jobs[j].spec.remotePath
  }

  // `already_present`: an object with the job's byte size is stored at its path.
  predicate Present(remote: map<string, Bytes>, spec: JobSpec) {
    spec.remotePath in remote && |remote[spec.remotePath]| == spec.total
  }

  predicate Enabled(s: Store, e: Step) {
    match e
    case Table(q) =>
      !q.Commit? && !q.Confirm? && Q.Enabled(s.q, q) && (Q.Worked(q) && !q.Crash? ==> q.p !in s.freeing)
    case Preflight(p, j) => j < |s.q.jobs| && j in Q.InFlight(s.q, p) && j !in s.tasks
    case Put(p, j, _) =>
      j < |s.q.jobs| && j < |s.payload| && j in Q.InFlight(s.q, p) && j in s.tasks && s.tasks[j] == Missing
    case Join(p, j) => Q.Joins(s.q, p, j) && p !in s.freeing && j in s.tasks && s.tasks[j] != Missing
    case Free(p, _, _) => p in s.freeing && s.freeing[p] < |s.q.jobs|
    case _ => true
  }

  // The table event that a step performs, if any.
  function Statement(e: Step): seq<Q.Event> {
    match e
    case Table(q) => [q]
    case Record(key, dest, hash, spec, dir, _) => [Q.Commit(key, dest, hash, spec, dir)]
    case Join(p, j) => [Q.Confirm(p, j)]
    case _ => []
  }

  // The card path that freeing job `j` would remove.
  function Target(s: Store, j: nat): Option<string>
    requires j < |s.q.jobs|
  {
    s.q.jobs[j].spec.cardSrc
  }

  predicate Removes(s: Store, e: Step)
    requires e.Free? && Enabled(s, e)
  {
    var src := Target(s, s.freeing[e.p]);
    e.wish && e.works && src.Some? && src.value in s.card
  }

  function Next(s: Store, e: Step): Store
    requires Enabled(s, e)
  {
    match e
    case Table(q) =>
      s.(q := Q.Next(s.q, q),
         tasks := if q.Claim? then s.tasks - (set j | j in DueIds(s.q.jobs, 0, q.now, q.limit)) else s.tasks,
         freeing := match q
           case StampDone(p) =>
             var j := Q.At(s.q, p).stage.job;
             if j in s.tasks && s.tasks[j] == Stored then s.freeing[p := j] else s.freeing
           case Crash(p) => s.freeing - {p}
           case _ => s.freeing)
    case Record(key, dest, hash, spec, dir, bytes) =>
      var t := s.(q := Q.Next(s.q, Q.Commit(key, dest, hash, spec, dir)));
      if spec.None? then t
      else
        t.(payload := s.payload + [bytes],
           sources := s.sources + [if spec.value.cardSrc.Some? then Lookup(s.card, spec.value.cardSrc.value) else None])
    case Preflight(p, j) =>
      s.(tasks := s.tasks[j := if Present(s.remote, s.q.jobs[j].spec) then Found else Missing])
    case Put(p, j, reported) =>
      s.(remote := s.remote[PathOf(s, j) := s.payload[j]], tasks := if reported then s.tasks[j := Stored] else s.tasks)
    case Join(p, j) => s.(q := Q.Next(s.q, Q.Confirm(p, j)))
    case CardChange(card) => s.(card := card)
    case Free(p, wish, works) =>
      var j := s.freeing[p];
      var t := s.(freeing := s.freeing - {p});
      if Removes(s, e) then
        var src := Target(s, j).value;
        t.(card := s.card - {src}, freed := s.freed + [Freed(j, s.card[src])])
      else t
  }

  predicate Legal(s: Store, es: seq<Step>)
    decreases |es|
  {
    es == [] || (Enabled(s, es[0]) && Legal(Next(s, es[0]), es[1..]))
  }

  function Run(s: Store, es: seq<Step>): Store
    requires Legal(s, es)
    decreases |es|
  {
    if es == [] then s else Run(Next(s, es[0]), es[1..])
  }

  lemma Chain(s: Store, e: Step, rest: seq<Step>)
    requires Enabled(s, e) && Legal(Next(s, e), rest)
    ensures Legal(s, [e] + rest) && Run(s, [e] + rest) == Run(Next(s, e), rest)
  {
    assert ([e] + rest)[1..] == rest;
  }

  lemma {:induction false} LegalAppend(s: Store, es: seq<Step>, e: Step)
    requires Legal(s, es) && Enabled(Run(s, es), e)
    ensures Legal(s, es + [e]) && Run(s, es + [e]) == Next(Run(s, es), e)
    decreases |es|
  {
    if es == [] {
      assert es + [e] == [e] && [e][1..] == [];
    } else {
      LegalAppend(Next(s, es[0]), es[1..], e);
      assert (es + [e])[1..] == es[1..] + [e] && (es + [e])[0] == es[0];
    }
  }

  lemma {:induction false} LegalSplit(s: Store, es: seq<Step>, more: seq<Step>)
    requires Legal(s, es + more)
    ensures Legal(s, es) && Legal(Run(s, es), more) && Run(s, es + more) == Run(Run(s, es), more)
    decreases |es|
  {
    if es == [] {
      assert es + more == more;
    } else {
      assert (es + more)[1..] == es[1..] + more && (es + more)[0] == es[0];
      LegalSplit(Next(s, es[0]), es[1..], more);
    }
  }

  lemma {:induction false} LegalJoin(s: Store, es: seq<Step>, more: seq<Step>)
    requires Legal(s, es) && Legal(Run(s, es), more)
    ensures Legal(s, es + more) && Run(s, es + more) == Run(Run(s, es), more)
    decreases |es|
  {
    if es == [] {
      assert es + more == more;
    } else {
      var t := Next(s, es[0]);
      LegalJoin(t, es[1..], more);
      JoinedHead(es, more);
      LegalHead(s, es + more, t);
    }
  }

  lemma JoinedHead(es: seq<Step>, more: seq<Step>)
    requires es != []
    ensures (es + more)[0] == es[0] && (es + more)[1..] == es[1..] + more
  {
  }

  lemma LegalHead(s: Store, es: seq<Step>, t: Store)
    requires es != [] && Enabled(s, es[0]) && t == Next(s, es[0]) && Legal(t, es[1..])
    ensures Legal(s, es) && Run(s, es) == Run(t, es[1..])
  {
  }

  /* ----- the tables are those of a history of CloudQueue ----- */

  function Statements(es: seq<Step>): seq<Q.Event>
    decreases |es|
  {
    if es == [] then [] else Statement(es[0]) + Statements(es[1..])
  }

  lemma StepsTables(s: Store, e: Step)
    requires Enabled(s, e)
    ensures var st := Statement(e);
            (st == [] && Next(s, e).q == s.q) || (|st| == 1 && Q.Enabled(s.q, st[0]) && Next(s, e).q == Q.Next(s.q, st[0]))
  {
  }

  // Whatever holds of all histories of CloudQueue holds of the tables here.
  lemma {:induction false} TablesFollowQueue(s: Store, es: seq<Step>)
    requires Legal(s, es)
    ensures Q.Legal(s.q, Statements(es)) && Q.Run(s.q, Statements(es)) == Run(s, es).q
    decreases |es|
  {
    if es != [] {
      StepsTables(s, es[0]);
      TablesFollowQueue(Next(s, es[0]), es[1..]);
      var st := Statement(es[0]);
      if st == [] {
        assert Statements(es) == Statements(es[1..]);
      } else {
        assert Statements(es) == [st[0]] + Statements(es[1..]);
        Q.LegalCons(s.q, st[0], Statements(es[1..]));
      }
    }
  }

  /* ----- the invariant of the store ----- */

  predicate Sized(s: Store) {
    && |s.payload| == |s.q.jobs| == |s.sources|
    && (forall j :: j in s.tasks ==> j < |s.q.jobs|) && (forall j :: j in s.q.confirmed ==> j < |s.q.jobs|)
  }

  // The stored object is the file of some job that goes there.
  ghost predicate Origin(s: Store, path: string) {
    exists j :: 0 <= j < |s.q.jobs| && Stores(s, j, path)
  }

  predicate Stores(s: Store, j: nat, path: string)
    requires j < |s.q.jobs|
  {
    PathOf(s, j) == path && j < |s.payload| && Lookup(s.remote, path) == Some(s.payload[j])
  }

  // The upload of `j` has ended well at some time.
  predicate Arrived(s: Store, j: nat) {
    j in s.q.confirmed || (j in s.tasks && s.tasks[j] != Missing)
  }

  predicate ArrivedOk(s: Store) {
    forall j :: 0 <= j < |s.q.jobs| && Arrived(s, j) ==> PathOf(s, j) in s.remote
  }

  predicate FreeingOk(s: Store, p: nat) {
    p in s.freeing ==>
      Q.At(s.q, p).Passing? && s.freeing[p] < |s.q.jobs| && s.q.jobs[s.freeing[p]].state == Done && s.freeing[p] in s.q.confirmed
  }

  predicate FreedOk(s: Store, f: Freed) {
    && f.job < |s.q.jobs| && s.q.jobs[f.job].state == Done && f.job in s.q.confirmed
    && s.q.jobs[f.job].spec.cardSrc.Some?
  }

  ghost predicate StoreInv(s: Store) {
    && Q.Inv(s.q) && Sized(s)
    && (forall path :: path in s.remote ==> Origin(s, path))
    && ArrivedOk(s)
    && (forall p: nat :: FreeingOk(s, p))
    && (forall k :: 0 <= k < |s.freed| ==> FreedOk(s, s.freed[k]))
  }

  lemma QueueKept(s: Store, e: Step)
    requires Q.Inv(s.q) && Enabled(s, e)
    ensures Q.Inv(Next(s, e).q) && Q.Grows(s.q, Next(s, e).q)
  {
    StepsTables(s, e);
    if Statement(e) != [] {
      Q.Kept(s.q, Statement(e)[0]);
      Q.StepGrows(s.q, Statement(e)[0]);
    }
  }

  // The tables under a step that is no table statement, or a single one.
  lemma StepConfirms(s: Store, e: Step)
    requires Enabled(s, e)
    ensures Next(s, e).q.confirmed == s.q.confirmed + if e.Join? then {e.job} else {}
    ensures |Next(s, e).q.jobs| == |s.q.jobs| + One(e.Record? && e.spec.Some?)
  {
    StepsTables(s, e);
    if e.Table? {
      Q.OnlyCommitsEnqueue(s.q, e.e);
      Q.OnlyConfirmConfirms(s.q, e.e);
    } else if e.Join? {
      Q.OnlyCommitsEnqueue(s.q, Q.Confirm(e.p, e.job));
    }
  }

  lemma SizedKept(s: Store, e: Step)
    requires Enabled(s, e) && Sized(s) && (e.Join? ==> e.job < |s.q.jobs|)
    ensures Sized(Next(s, e))
  {
    StepConfirms(s, e);
  }

  // Objects are never removed, and a transfer stores the file of its job.
  lemma OriginKept(s: Store, e: Step, path: string)
    requires Enabled(s, e) && Sized(s) && Q.Grows(s.q, Next(s, e).q) && path in Next(s, e).remote
    requires path in s.remote ==> Origin(s, path)
    ensures Origin(Next(s, e), path)
  {
    var t := Next(s, e);
    if e.Put? && path == PathOf(s, e.job) {
      assert Stores(t, e.job, path);
    } else {
      var j :| 0 <= j < |s.q.jobs| && Stores(s, j, path);
      assert Q.RowGrows(s.q.jobs[j], t.q.jobs[j]);
      assert s.payload <= t.payload;
      assert Stores(t, j, path);
    }
  }

  // A job counts as arrived only when an object lies at its path.
  lemma ArrivedComesFrom(s: Store, e: Step, j: nat)
    requires Enabled(s, e) && Sized(s) && (e.Join? ==> e.job < |s.q.jobs|)
    requires Arrived(Next(s, e), j)
    ensures j < |s.q.jobs| && (Arrived(s, j) || PathOf(s, j) in Next(s, e).remote)
  {
    StepConfirms(s, e);
  }

  lemma ArrivedKept(s: Store, e: Step)
    requires Enabled(s, e) && Sized(s) && (e.Join? ==> e.job < |s.q.jobs|)
    requires ArrivedOk(s) && Q.Grows(s.q, Next(s, e).q)
    ensures ArrivedOk(Next(s, e))
  {
    var t := Next(s, e);
    assert s.remote.Keys <= t.remote.Keys;
    forall j | 0 <= j < |t.q.jobs| && Arrived(t, j) ensures PathOf(t, j) in t.remote {
      ArrivedComesFrom(s, e, j);
      assert Q.RowGrows(s.q.jobs[j], t.q.jobs[j]);
    }
  }

  // Which drain is about to free what changes only with its own steps.
  lemma FreeingComesFrom(s: Store, e: Step, p: nat)
    requires Enabled(s, e) && p in Next(s, e).freeing
    ensures (p in s.freeing && Next(s, e).freeing[p] == s.freeing[p])
            || (e == Table(Q.StampDone(p)) && Q.At(s.q, p).stage.job == Next(s, e).freeing[p])
  {
  }

  lemma StillPassing(s: Store, e: Step, p: nat)
    requires Enabled(s, e) && p in Next(s, e).freeing && Q.At(s.q, p).Passing?
    ensures Q.At(Next(s, e).q, p).Passing?
  {
    StepsTables(s, e);
    var st := Statement(e);
    if st != [] && e != Table(Q.StampDone(p)) {
      assert Q.Worked(st[0]) ==> st[0].p != p;
      Q.OthersStand(s.q, st[0], p);
    }
  }

  lemma FreeingKept(s: Store, e: Step, p: nat)
    requires Enabled(s, e) && Q.Grows(s.q, Next(s, e).q) && FreeingOk(s, p)
    requires Q.PassOk(s.q.jobs, s.q.confirmed, Q.At(s.q, p))
    requires forall j :: 0 <= j < |s.q.jobs| && s.q.jobs[j].state == Done ==> j in s.q.confirmed
    ensures FreeingOk(Next(s, e), p)
  {
    var t := Next(s, e);
    if p in t.freeing {
      FreeingComesFrom(s, e, p);
      StillPassing(s, e, p);
      var j := t.freeing[p];
      assert j < |s.q.jobs| && s.q.jobs[j].state == Done && Q.RowGrows(s.q.jobs[j], t.q.jobs[j]);
    }
  }

  lemma FreedKept(s: Store, e: Step)
    requires Enabled(s, e) && Q.Grows(s.q, Next(s, e).q) && (e.Free? ==> FreeingOk(s, e.p))
    requires forall k :: 0 <= k < |s.freed| ==> FreedOk(s, s.freed[k])
    ensures forall k :: 0 <= k < |Next(s, e).freed| ==> FreedOk(Next(s, e), Next(s, e).freed[k])
  {
    var t := Next(s, e);
    forall k | 0 <= k < |t.freed| ensures FreedOk(t, t.freed[k]) {
      if k < |s.freed| {
        assert FreedOk(s, s.freed[k]) && t.freed[k] == s.freed[k];
        assert Q.RowGrows(s.q.jobs[s.freed[k].job], t.q.jobs[s.freed[k].job]);
      }
    }
  }

  // What the queue's invariant says of the drain that moves.
  lemma QueueKnows(s: Store, e: Step)
    requires Q.Inv(s.q) && Enabled(s, e)
    ensures e.Join? ==> e.job < |s.q.jobs|
    ensures forall p: nat :: Q.PassOk(s.q.jobs, s.q.confirmed, Q.At(s.q, p))
    ensures forall j :: 0 <= j < |s.q.jobs| && s.q.jobs[j].state == Done ==> j in s.q.confirmed
  {
    if e.Join? {
      assert Q.PassOk(s.q.jobs, s.q.confirmed, Q.At(s.q, e.p));
    }
  }

  lemma StoreKept(s: Store, e: Step)
    requires StoreInv(s) && Enabled(s, e)
    ensures StoreInv(Next(s, e))
  {
    QueueKept(s, e);
    QueueKnows(s, e);
    SizedKept(s, e);
    forall path | path in Next(s, e).remote ensures Origin(Next(s, e), path) {
      OriginKept(s, e, path);
    }
    ArrivedKept(s, e);
    forall p: nat ensures FreeingOk(Next(s, e), p) {
      FreeingKept(s, e, p);
    }
    FreedKept(s, e);
  }

  lemma {:induction false} StoreKeeps(s: Store, es: seq<Step>)
    requires StoreInv(s) && Legal(s, es)
    ensures StoreInv(Run(s, es)) && Q.Grows(s.q, Run(s, es).q)
    ensures s.payload <= Run(s, es).payload && s.sources <= Run(s, es).sources
    decreases |es|
  {
    if es != [] {
      StoreKept(s, es[0]);
      QueueKept(s, es[0]);
      StoreKeeps(Next(s, es[0]), es[1..]);
      Q.GrowsOn(s.q, Next(s, es[0]).q, Run(s, es).q);
    }
  }

  lemma {:induction false} StoreReachable(es: seq<Step>)
    requires Legal(EMPTY, es)
    ensures StoreInv(Run(EMPTY, es))
  {
    StoreKeeps(EMPTY, es);
  }

  // What a commit adds to the tables ...
  lemma RecordedTables(s: Store, e: Step)
    requires e.Record?
    ensures var r := Upsert(s.q.imported, e.key, e.dest, e.hash);
            var q := Next(s, e).q;
            && q.imported == r.0 && q.deletes == s.q.deletes
            && q.jobs == (if e.spec.Some? then s.q.jobs + [NewJob(r.1, e.dest, e.spec.value)] else s.q.jobs)
            && (e.spec.Some? && e.dir.Some? ==>
                  DeleteRow(e.key.serial, e.dir.value, e.key.name, e.key.size, e.key.captured, r.1, false) in q.owed)
  {
    StepsTables(s, e);
    Q.CommitAdds(s.q, Q.Commit(e.key, e.dest, e.hash, e.spec, e.dir));
  }

  // ... and to what is known of the bytes.
  lemma RecordedBytes(s: Store, e: Step)
    requires e.Record?
    ensures var t := Next(s, e);
            && t.card == s.card && t.payload == s.payload + (if e.spec.Some? then [e.bytes] else [])
            && t.sources == s.sources
                 + (if e.spec.None? then []
                    else [if e.spec.value.cardSrc.Some? then Lookup(s.card, e.spec.value.cardSrc.value) else None])
  {
  }
}
