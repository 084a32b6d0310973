/**
  What wired runs come to: over any sequence of connects with broken downloads in
  between, after a crash, and when the camera's originals are deleted.
 */
module WiredSafety {
  import opened Wrappers
  import opened Tables
  import opened LedgerModule
  import opened Naming
  import opened Transfer
  import opened RunTrace
  import opened Storage
  import opened SdOffload
  import opened SdRun
  import opened QueueSteps
  import opened Wired
  import opened WiredRun
  import D = Download
  import S = CloudStore
  import Q = CloudQueue
  import QueueSafety
  import StoreSafety

  /* ----- left-over `.part` files, over any sequence of connects ----- */

  // One connect of the camera, from the end of its reap to its end or its crash.
  datatype Visit = Visit(t: Connect, got: map<string, Bytes>, u: Usb, at: seq<Option<string>>)

  ghost predicate VisitOk(v: Visit) {
    WiredProgress(v.t, v.got, v.u, v.at)
  }

  // Whose bytes a `.part` holds: the file it was last downloaded from.
  predicate Owned(parts: map<string, Bytes>, owners: map<string, Bytes>) {
    forall d :: d in parts ==> d in owners && parts[d] <= owners[d]
  }

  // A `.part` is named after the destination, not after the recording. Each that
  // is there is planned for the recording it comes from, or is too long to resume.
  predicate PlannedForOwner(t: Connect, owners: map<string, Bytes>)
    requires SourceOk(t.plan, t.u0.w.card)
  {
    forall i :: 0 <= i < |t.plan| && t.plan[i].dest in t.u0.parts ==>
      || (t.plan[i].dest in owners && owners[t.plan[i].dest] == t.u0.w.card[t.plan[i].entry.src])
      || |t.u0.parts[t.plan[i].dest]| >= t.plan[i].entry.size
  }

  // The camera's file for the destination `d`, if the run has one planned there.
  ghost function FileFor(t: Connect, d: string): Bytes
    requires SourceOk(t.plan, t.u0.w.card)
  {
    if i :| 0 <= i < |t.plan| && t.plan[i].dest == d then t.u0.w.card[t.plan[i].entry.src] else []
  }

  ghost function OwnersAfter(v: Visit, owners: map<string, Bytes>): map<string, Bytes>
    requires SourceOk(v.t.plan, v.t.u0.w.card)
  {
    map d | d in v.u.parts ::
      if Lookup(v.u.parts, d) == Lookup(v.t.u0.parts, d) && d in owners then owners[d] else FileFor(v.t, d)
  }

  lemma OwnersKept(v: Visit, owners: map<string, Bytes>)
    requires VisitOk(v) && Owned(v.t.u0.parts, owners) && PlannedForOwner(v.t, owners)
    ensures forall i :: 0 <= i < |v.t.plan| ==> Resumable(v.t, i)
    ensures Owned(v.u.parts, OwnersAfter(v, owners))
  {
    var t := v.t;
    forall i | 0 <= i < |t.plan| ensures Resumable(t, i) {
      assert t.plan[i].dest in t.u0.parts ==> t.plan[i].dest in owners;
    }
    forall d | d in v.u.parts ensures v.u.parts[d] <= OwnersAfter(v, owners)[d] {
      if Lookup(v.u.parts, d) != Lookup(t.u0.parts, d) {
        PartHasFile(v, d);
      }
    }
  }

  // A `.part` that the run has changed is a prefix of the file planned there.
  lemma PartHasFile(v: Visit, d: string)
    requires VisitOk(v) && d in v.u.parts && Lookup(v.u.parts, d) != Lookup(v.t.u0.parts, d)
    requires forall i :: 0 <= i < |v.t.plan| ==> Resumable(v.t, i)
    ensures v.u.parts[d] <= FileFor(v.t, d)
  {
    var t := v.t;
    assert Lookup(v.u.parts - Dests(t.plan), d) == Lookup(t.u0.parts - Dests(t.plan), d);
    var p :| p in t.plan && p.dest == d;
    var i :| 0 <= i < |t.plan| && t.plan[i].dest == d;
    forall k | 0 <= k < |t.plan| && t.plan[k].dest == d ensures k == i {
      assert t.plan[k].dest == t.plan[i].dest;
    }
    assert i < |v.at| && Resumable(t, i);
  }

  // Connect after connect, the `.part` files of one left for the next.
  ghost predicate Visits(vs: seq<Visit>, parts: map<string, Bytes>, owners: map<string, Bytes>)
    decreases |vs|
  {
    vs == []
    || (VisitOk(vs[0]) && vs[0].t.u0.parts == parts && PlannedForOwner(vs[0].t, owners)
        && Visits(vs[1..], vs[0].u.parts, OwnersAfter(vs[0], owners)))
  }

  // As long as each left-over `.part` is planned for the recording it comes from,
  // every download of every connect yields the camera's file, however many broke
  // off before. Download.ForeignPrefixCorrupts shows that nothing weaker will do.
  lemma {:induction false} VisitsYieldTheFiles(vs: seq<Visit>, parts: map<string, Bytes>, owners: map<string, Bytes>, k: nat, i: nat)
    requires Visits(vs, parts, owners) && Owned(parts, owners) && k < |vs| && i < |vs[k].at|
    ensures i < |vs[k].t.plan| && SourceOk(vs[k].t.plan, vs[k].t.u0.w.card)
    ensures vs[k].t.plan[i].entry.src in vs[k].got && vs[k].got[vs[k].t.plan[i].entry.src] == InListing(vs[k].t, i)
    decreases |vs|
  {
    OwnersKept(vs[0], owners);
    if k == 0 {
      assert Resumable(vs[0].t, i);
    } else {
      VisitsYieldTheFiles(vs[1..], vs[0].u.parts, OwnersAfter(vs[0], owners), k - 1, i);
    }
  }

  // Where the condition fails: A and B render alike; A breaks off after `n` bytes
  // and is deleted on the camera; B is then planned for the same destination. The
  // camera, quite honestly, resumes, and the file that is committed as B is A's
  // beginning with B's rest.
  method PartOfAnotherRecording(cfg: Config, serial: string, a: Entry, b: Entry, fileA: Bytes, fileB: Bytes, n: nat, dest: string,
                                ghost h: Story)
    returns (disk: Disk, r: Result)
    requires 0 < n <= |fileA| && n < |fileB| && a.size == |fileA| > n && b.size == |fileB| && fileA[..n] != fileB[..n]
    requires h.s0 == S.EMPTY && h.es == []
    ensures Lookup(disk.files, dest) == Some(fileA[..n] + fileB[n..]) && disk.files[dest] != fileB
    ensures r.CopiedTo? || r.Crashed?
  {
    var spool := new Spool(map[]);
    var ledger := new Ledger();
    disk := new Disk(map[], true);
    var before := new Card(map[a.src := fileA], true);
    var after := new Card(map[b.src := fileB], true);
    var itemA, itemB := PlannedCopy(a, dest), PlannedCopy(b, dest);
    var first, rest := D.Answer(200, None, fileA[..n], false), D.Answer(206, Some(n), fileB[n..], true);
    assert D.Honest(fileA, 0, first) && D.Honest(fileB, n, rest);
    var out, ticks := Fetch(before, itemA, spool, 1, [first], true);
    assert [] + fileA[..n] == fileA[..n];
    out, ticks := Fetch(after, itemB, spool, 1, [rest], true);
    ghost var h';
    r, h' := Settle(cfg, serial, itemB, spool.files[dest], ticks, after, spool, disk, ledger, h);
    assert disk.files[dest][..n] == fileA[..n];
  }

  /* ----- a crash between the rename and the commit ----- */

  // The wired path does not adopt. A file that a crash has left in place but not
  // recorded is downloaded again by the next run that gets to it, under a number;
  // the first copy stays for good.
  lemma {:induction false} WiredCrashRecopies(t: Connect, got: map<string, Bytes>, u: Usb, offline: seq<bool>, at: seq<Option<string>>,
                           listing: seq<Entry>, e: Entry)
    returns (i: nat)
    requires WiredProgress(t, got, u, at) && LandsAtDest(t.plan, offline, at) && t.cfg.verify
    requires Entries(t.plan) == Kept(listing, t.cfg, t.u0.w.rows, t.serial) && PlanOk(t.plan, t.u0.w.files.Keys)
    requires e in listing && Wanted(t.cfg, e) && !Known(t.u0.w.rows, KeyOf(t.serial, e)) && e.rendered in t.u0.w.files
    ensures i < |t.plan| && t.plan[i].entry == e && t.plan[i].dest !in t.u0.w.files
    ensures exists n :: t.plan[i].dest == Numbered(e.rendered, n)
    ensures Lookup(u.w.files, e.rendered) == Lookup(t.u0.w.files, e.rendered)
    ensures i < |at| && at[i].Some? ==> Lookup(u.w.files, t.plan[i].dest) == Some(got[e.src])
                                        && Known(u.w.rows, KeyOf(t.serial, e))
  {
    assert e in Entries(t.plan);
    i :| 0 <= i < |t.plan| && Entries(t.plan)[i] == e;
    assert Resolved(t.plan, t.u0.w.files.Keys, i);
    assert t.plan[i].dest !in t.u0.w.files.Keys;
    if i < |at| && at[i].Some? {
      WiredFilesAreTheCameras(t, got, u, offline, at, i);
    }
  }

  // Until then it is neither known nor queued, so that next run does plan it.
  lemma {:induction false} CrashLeavesUnknown(cfg: Config, serial: string, item: PlannedCopy, got: Bytes, u: Usb, u': Usb)
    requires Downloaded(cfg, serial, item, got, u, u', Crashed) && !Known(u.w.rows, KeyOf(serial, item.entry))
    ensures !Known(u'.w.rows, KeyOf(serial, item.entry)) && u'.w.jobs == u.w.jobs && u'.deletes == u.deletes
    ensures u'.w.card == u.w.card
  {
  }

  /* ----- markers and remote paths ----- */

  // Every planned file is a listed recording, under its own path.
  predicate FromMedia(plan: seq<PlannedCopy>, media: seq<Q.Media>) {
    forall i :: 0 <= i < |plan| ==>
      exists j :: 0 <= j < |media| && plan[i].entry == Listed(media[j], plan[i].entry.kind, plan[i].entry.rendered)
  }

  predicate DistinctPaths(media: seq<Q.Media>) {
    forall i, j :: 0 <= i < j < |media| ==> !(media[i].dir == media[j].dir && media[i].name == media[j].name)
  }

  lemma {:induction false} FindsThis(media: seq<Q.Media>, j: nat)
    requires DistinctPaths(media) && j < |media|
    ensures Q.Find(media, media[j].dir, media[j].name) == Some(media[j])
  {
    if j > 0 {
      assert DistinctPaths(media[1..]) && media[1..][j - 1] == media[j];
      FindsThis(media[1..], j - 1);
    }
  }

  // A marker made for a recording leads back to it in any listing that has it.
  lemma MarkerFinds(serial: string, e: Entry, id: nat, media: seq<Q.Media>, j: nat)
    requires DistinctPaths(media) && j < |media| && e == Listed(media[j], e.kind, e.rendered)
    ensures var m := MarkerFor(serial, e, id);
            Q.Find(media, m.dir, m.name) == Some(media[j]) && Q.SameRecording(m, media)
  {
    FindsThis(media, j);
    DirOfListed(media[j], e.kind, e.rendered);
  }

  lemma DirOfListed(m: Q.Media, kind: Kind, rendered: string)
    ensures DirOf(Listed(m, kind, rendered)) == m.dir
  {
    var src := m.dir + "/" + m.name;
    assert |src| - |m.name| - 1 == |m.dir|;
    assert src[..|m.dir|] == m.dir;
  }

  // A marker of the run leads back, in a listing of the same card, to the very
  // recording it was made for, also if the name occurs in several directories.
  lemma {:induction false} WiredMarkersFit(t: Connect, u: Usb, at: seq<Option<string>>, k: nat, media: seq<Q.Media>) returns (i: nat, j: nat)
    requires MarkersOk(t, u, at) && |t.u0.deletes| <= k < |u.deletes|
    requires FromMedia(t.plan, media) && DistinctPaths(media)
    ensures Q.MarkerOk(u.w.rows, u.deletes[k]) && Q.SameRecording(u.deletes[k], media)
    ensures i < |at| <= |t.plan| && j < |media| && at[i].Some?
    ensures t.plan[i].entry == Listed(media[j], t.plan[i].entry.kind, t.plan[i].entry.rendered)
    ensures u.deletes[k] == MarkerFor(t.serial, t.plan[i].entry, u.deletes[k].importedId)
    ensures Q.Find(media, u.deletes[k].dir, u.deletes[k].name) == Some(media[j])
  {
    i :| 0 <= i < |at| && MarkerFits(t.serial, t.plan[i], at[i], u.deletes[k], u.w.rows);
    j :| 0 <= j < |media| && t.plan[i].entry == Listed(media[j], t.plan[i].entry.kind, t.plan[i].entry.rendered);
    MarkerFinds(t.serial, t.plan[i].entry, u.deletes[k].importedId, media, j);
  }

  // The planner keeps destinations apart, not remote paths: those are formed
  // from the names before numbering. Two files of a wired run share a remote
  // path exactly when they render to the same name, though their local copies
  // differ; jobs of an SD run share one exactly when they upload the same file.
  lemma RemotePathsOfTwoJobs(cfg: Config, serial: string, wired: bool, plan: seq<PlannedCopy>, onDisk: set<string>,
                             offline: seq<bool>, at: seq<Option<string>>, i: nat, j: nat, a: Job, b: Job, rows: seq<Imported>)
    requires PlanFree(plan, onDisk) && i < j < |at| <= |plan|
    requires JobFits(cfg, serial, wired, plan[i], at[i], a, rows) && JobFits(cfg, serial, wired, plan[j], at[j], b, rows)
    requires forall k :: 0 <= k < |plan| ==> SafeComponent(plan[k].dest) && SafeComponent(plan[k].entry.rendered)
    requires forall k :: 0 <= k < |at| && at[k].Some? ==> at[k].value == plan[k].dest || at[k].value == plan[k].entry.rendered
    ensures !wired ==> (a.spec.remotePath == b.spec.remotePath <==> a.localPath == b.localPath)
    ensures wired && LandsAtDest(plan, offline, at) ==>
              a.localPath != b.localPath
              && (a.spec.remotePath == b.spec.remotePath <==> plan[i].entry.rendered == plan[j].entry.rendered)
  {
    var root := cfg.cloud.value.remoteRoot;
    RemotePathInjective(root, a.localPath, b.localPath);
    RemotePathInjective(root, plan[i].entry.rendered, plan[j].entry.rendered);
  }

  /* ----- deferred deletes, to the end ----- */

  // A job of the run, whatever happens later: if no two jobs with different bytes
  // share a remote path and no commit re-records a key, then by the time the
  // camera's original is deleted the file of the run lies at its remote path.
  lemma WiredOriginalsAreStored(t: Connect, u: Usb, db: Db, h0: Story, h: Story, k: nat, later: seq<S.Step>, q: nat)
    requires FilesEntered(t, u.w, h0, h) && h.s0 == S.EMPTY && Records(h, db) && db.jobs == u.w.jobs
    requires |t.u0.w.jobs| <= k < |u.w.jobs| && S.Legal(Final(h), later)
    requires var s := S.Run(Final(h), later);
             StoreSafety.NoClash(s) && q < |s.q.issued| && s.q.issued[q].row < |s.q.deletes|
             && s.q.deletes[s.q.issued[q].row].importedId == u.w.jobs[k].importedId
    requires Q.Legal(Q.INIT, S.Statements(h.es + later)) ==> QueueSafety.NeverRerecords(Q.INIT, S.Statements(h.es + later))
    ensures var s := S.Run(Final(h), later);
            Lookup(s.remote, u.w.jobs[k].spec.remotePath) == Lookup(u.w.files, u.w.jobs[k].localPath) != None
  {
    var s := S.Run(Final(h), later);
    S.LegalJoin(S.EMPTY, h.es, later);
    S.StoreReachable(h.es);
    S.StoreKeeps(Final(h), later);
    assert Q.RowGrows(Final(h).q.jobs[k], s.q.jobs[k]);
    StoreSafety.OriginalsAreStored(h.es + later, q);
    assert StoreSafety.IsStored(s, k);
  }
}
