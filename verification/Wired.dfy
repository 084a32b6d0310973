/**
  The offload of a USB-connected camera (wired/offload.rs): plan, download,
  size check, rename, verify, commit, then delete or defer the delete, with a
  circuit breaker for a camera that has gone away.
 */
module Wired {
  import opened Wrappers
  import opened Tables
  import opened LedgerModule
  import opened Naming
  import opened Transfer
  import opened RunTrace
  import opened Storage
  import opened SdOffload
  import opened SdRun
  import opened D = Download
  import opened QueueSteps
  import opened QueueSafety
  import S = CloudStore
  import Q = CloudQueue

  const MAX_CONSECUTIVE_OFFLINE_FILES: nat := 3

  /* ----- planning ----- */

  // A listed file: the path on the camera is also the path its delete names.
  function Listed(m: Q.Media, kind: Kind, rendered: string): Entry {
    Entry(m.dir + "/" + m.name, m.name, kind, m.size, m.captured, rendered)
  }

  function DirOf(e: Entry): string {
    if |e.src| > |e.name| then e.src[..|e.src| - |e.name| - 1] else ""
  }

  // Unlike the card scan, this one also counts unwanted proxies and thumbnails
  // as skipped: every listed file is either planned or counted.
  method PlanWired(listing: seq<Entry>, cfg: Config, ledger: Ledger, serial: string, disk: Disk)
    returns (plan: seq<PlannedCopy>, skipped: nat)
    ensures Entries(plan) == Kept(listing, cfg, ledger.imported, serial)
    ensures |plan| + skipped == |listing|
    ensures PlanOk(plan, disk.files.Keys)
  {
    plan, skipped := [], 0;
    var reserved: set<string> := {};
    for i := 0 to |listing|
      invariant PlannedSoFar(listing, i, cfg, ledger.imported, serial, disk.files.Keys, plan, reserved)
      invariant |plan| + skipped == i
    {
      var e := listing[i];
      if !Wanted(cfg, e) || Known(ledger.imported, KeyOf(serial, e)) {
        PlansSkip(listing, i, cfg, ledger.imported, serial, disk.files.Keys, plan, reserved);
        skipped := skipped + 1;
        continue;
      }
      var dest, _ := ResolveCollision(disk.files.Keys, e.rendered, reserved);
      PlansNext(listing, i, cfg, ledger.imported, serial, disk.files.Keys, plan, reserved, dest);
      plan, reserved := plan + [PlannedCopy(e, dest)], reserved + {dest};
    }
    PlansAll(listing, cfg, ledger.imported, serial, disk.files.Keys, plan, reserved);
  }

  /* ----- one file ----- */

  // The `.part` files, by the name of the destination they are for.
  class Spool {
    var files: map<string, Bytes>

    constructor (files: map<string, Bytes>)
      ensures this.files == files
    {
      this.files := files;
    }
  }

  // What the size check lets through: as many bytes of the camera's file as
  // the listing announced, hence all of them when the listing is right.
  function Announced(file: Bytes, size: nat): (r: Bytes)
    ensures |file| == size ==> r == file
  {
    if size <= |file| then file[..size] else file
  }

  function MarkerFor(serial: string, e: Entry, id: nat): DeleteRow {
    MarkerRow(KeyOf(serial, e), DirOf(e), id)
  }

  predicate Defers(cfg: Config) {
    cfg.deleteAfterVerify && Mode(cfg) == Auto
  }

  // Under Auto with delete-after-verify, and only then, a commit leaves a
  // marker that names the recording and its row.
  ghost predicate MarkerStep(cfg: Config, serial: string, item: PlannedCopy, r: Result, deletes: seq<DeleteRow>,
                             deletes': seq<DeleteRow>, rows: seq<Imported>) {
    if Commits(r) && Defers(cfg) then
      exists id: nat :: id < |rows| && rows[id].key == KeyOf(serial, item.entry)
        && deletes' == deletes + [MarkerFor(serial, item.entry, id)]
    else deletes' == deletes
  }

  // The resumable download into the spool: `script` is what the camera answers
  // first, whatever that is; `sound` tells that no write fails.
  method Fetch(camera: Card, item: PlannedCopy, spool: Spool, maxAttempts: nat, script: seq<Reply>, sound: bool)
    returns (out: Outcome, ticks: seq<nat>)
    requires item.entry.src in camera.files
    modifies spool
    ensures SameElsewhere(old(spool.files), spool.files, item.dest)
    ensures script == [] ==>
              PartStep(camera.files[item.entry.src], item.entry.size, Lookup(old(spool.files), item.dest), Lookup(spool.files, item.dest))
    ensures out.Complete? ==> item.dest in spool.files && out.total == |spool.files[item.dest]|
                              && out.hash == Digest(spool.files[item.dest])
    ensures out.Complete? && out.total == item.entry.size && script == []
            && Usable(Lookup(old(spool.files), item.dest), camera.files[item.entry.src], item.entry.size) ==>
              spool.files[item.dest] == Announced(camera.files[item.entry.src], item.entry.size)
    ensures var before := Lookup(old(spool.files), item.dest);
            sound && Takes(script, before, item.entry.size) && (maxAttempts <= 1 || script[0].complete) ==>
              && Lookup(spool.files, item.dest) == Some(SeedFor(script[0], before, item.entry.size) + script[0].body)
              && (script[0].complete <==> out.Complete?)
  {
    var server := new Camera(camera.files[item.entry.src], script);
    var part := new PartFile(Lookup(spool.files, item.dest), sound);
    var attempts;
    out, attempts, ticks := DownloadResumable(server, item.entry.size, part, maxAttempts);
    spool.files := if part.content.Some? then spool.files[item.dest := part.content.value] else spool.files - {item.dest};
    assert Lookup(spool.files, item.dest) == part.content;
  }

  // A `.part` that could be resumed is left alone or holds a prefix of the file.
  predicate PartStep(file: Bytes, size: nat, before: Option<Bytes>, after: Option<Bytes>) {
    Usable(before, file, size) ==> after == before || Clean(after, file)
  }

  // Delete the original now, or under Auto leave a marker for a later connect.
  method CleanUp(cfg: Config, serial: string, e: Entry, id: nat, camera: Card, ledger: Ledger, ghost h: Story)
    returns (cleanup: Cleanup, ghost h': Story)
    requires Records(h, ledger.Value())
    requires Defers(cfg) ==> MarkerFor(serial, e, id) in Final(h).q.owed
    modifies camera, ledger`deletes
    ensures Continues(h, h') && Records(h', ledger.Value())
    ensures Final(h').payload == Final(h).payload && Final(h').sources == Final(h).sources
    ensures CleanupFits(cfg, cleanup, e.src, old(camera.files), camera.files)
    ensures ledger.deletes == old(ledger.deletes)
              + if Defers(cfg) then [MarkerFor(serial, e, id)] else []
  {
    cleanup, h' := NotAttempted, h;
    if cfg.deleteAfterVerify {
      if ShouldDeleteCard(true, Mode(cfg)) {
        var removed := camera.Remove(e.src);
        cleanup := if removed then Deleted else Undeleted("delete");
      } else if Mode(cfg) == Auto {
        InsertStep(h, ledger.Value(), MarkerFor(serial, e, id));
        h' := Then(h, [S.Table(Q.InsertMarker(MarkerFor(serial, e, id)))]);
        ledger.EnqueueCameraDelete(MarkerFor(serial, e, id));
      }
    }
  }

  // All that a wired run reads and writes, as values.
  datatype Usb = Usb(w: World, deletes: seq<DeleteRow>, parts: map<string, Bytes>)

  function NowUsb(camera: Card, spool: Spool, disk: Disk, ledger: Ledger): Usb
    reads camera, spool, disk, ledger
  {
    Usb(Now(camera, disk, ledger), ledger.deletes, spool.files)
  }

  // Commit the verified file, then delete or defer.
  method Commit(cfg: Config, serial: string, item: PlannedCopy, bytes: Bytes, camera: Card, disk: Disk, ledger: Ledger,
                ghost h: Story)
    returns (cleanup: Cleanup, ghost h': Story)
    requires Records(h, ledger.Value()) && item.dest in disk.files
    modifies camera, ledger`imported, ledger`jobs, ledger`deletes
    ensures Continues(h, h') && Records(h', ledger.Value())
    ensures Final(h').payload == Final(h).payload + if Mirrors(cfg) then [disk.files[item.dest]] else []
    ensures Final(h').sources == Final(h).sources + if Mirrors(cfg) then [None] else []
    ensures var (rows, id) := Upsert(old(ledger.imported), KeyOf(serial, item.entry), item.dest, Some(Digest(bytes)));
            && ledger.imported == rows
            && ledger.jobs == old(ledger.jobs)
                 + (if Mirrors(cfg) then [NewJob(id, item.dest, SpecFor(cfg, item.entry.rendered, item.entry.size, None).value)] else [])
            && ledger.deletes == old(ledger.deletes) + if Defers(cfg) then [MarkerFor(serial, item.entry, id)] else []
    ensures CleanupFits(cfg, cleanup, item.entry.src, old(camera.files), camera.files)
  {
    var e := item.entry;
    var id;
    ghost var h1;
    id, h1 := CommitImported(ledger, cfg, Import(KeyOf(serial, e), item.dest, e.rendered, Some(Digest(bytes)), None),
                             if Defers(cfg) then Some(DirOf(e)) else None, disk.files[item.dest], Final(h).card, h);
    cleanup, h' := CleanUp(cfg, serial, e, id, camera, ledger, h1);
    ContinuesOn(h, h1, h');
  }

  // What one planned file does to the world: `got` is what the finished `.part`
  // held.
  ghost predicate Downloaded(cfg: Config, serial: string, item: PlannedCopy, got: Bytes, u: Usb, u': Usb, r: Result) {
    && ItemStep(cfg, serial, item, Some(got), r, u.w.files, u'.w.files, u.w.rows, u'.w.rows)
    && JobsStep(cfg, serial, item, r, None, item.entry.rendered, u.w.jobs, u'.w.jobs, u'.w.rows)
    && MarkerStep(cfg, serial, item, r, u.deletes, u'.deletes, u'.w.rows)
    && SameElsewhere(u.parts, u'.parts, item.dest)
    && match r
       case Crashed => u'.w.card == u.w.card
       case NotCommitted(t) => u'.w.card == u.w.card && t.Broken? && Reports(item, got, None, t)
       case AdoptedAt(_) => false
       case CopiedTo(t) =>
         t.Copied? && CleanupFits(cfg, t.cleanup, item.entry.src, u.w.card, u'.w.card) && t.queued == Mirrors(cfg)
         && Reports(item, got, Some(item.dest), t) && |got| == item.entry.size
  }

  // A verified file on its way into the ledger: the process may die before it is
  // committed.
  method Conclude(cfg: Config, serial: string, item: PlannedCopy, bytes: Bytes, ticks: seq<nat>, camera: Card, spool: Spool,
                  disk: Disk, ledger: Ledger, ghost h: Story)
    returns (r: Result, ghost h': Story)
    requires |bytes| == item.entry.size && Records(h, ledger.Value()) && item.dest in disk.files
    requires cfg.verify ==> disk.files[item.dest] == bytes
    modifies camera, ledger`imported, ledger`jobs, ledger`deletes
    ensures Continues(h, h') && Records(h', ledger.Value()) && (r.Crashed? || r.CopiedTo?)
    ensures EntersStep(cfg, item, r, None, disk.files, h, h')
    ensures Downloaded(cfg, serial, item, bytes, old(NowUsb(camera, spool, disk, ledger)), NowUsb(camera, spool, disk, ledger), r)
  {
    var e := item.entry;
    h' := h;
    var dies: bool := *;
    if dies {
      return Crashed, h;
    }
    var cleanup;
    cleanup, h' := Commit(cfg, serial, item, bytes, camera, disk, ledger, h);
    r := CopiedTo(Copied(e.name, ticks, e.size, |bytes|, Mirrors(cfg), cleanup));
    assert MarkerStep(cfg, serial, item, r, old(ledger.deletes), ledger.deletes, ledger.imported);
  }

  // What came before on the disk and in the spool does not change what follows.
  lemma AfterRename(cfg: Config, serial: string, item: PlannedCopy, got: Bytes, u: Usb, v: Usb, u': Usb, r: Result)
    requires Downloaded(cfg, serial, item, got, v, u', r)
    requires v.w.card == u.w.card && v.w.rows == u.w.rows && v.w.jobs == u.w.jobs && v.deletes == u.deletes
    requires SameElsewhere(u.w.files, v.w.files, item.dest) && SameElsewhere(u.parts, v.parts, item.dest)
    ensures Downloaded(cfg, serial, item, got, u, u', r)
  {
  }

  lemma NothingCommitted(cfg: Config, serial: string, item: PlannedCopy, got: Bytes, u: Usb, u': Usb, ticks: seq<nat>, error: string)
    requires u'.w.card == u.w.card && u'.w.rows == u.w.rows && u'.w.jobs == u.w.jobs && u'.deletes == u.deletes
    requires SameElsewhere(u.w.files, u'.w.files, item.dest) && SameElsewhere(u.parts, u'.parts, item.dest)
    ensures Downloaded(cfg, serial, item, got, u, u',
                       NotCommitted(ItemTrace.Broken(item.entry.name, ticks, item.entry.size, error)))
  {
  }

  // The finished `.part` becomes the file at the destination.
  method Place(cfg: Config, name: string, bytes: Bytes, spool: Spool, disk: Disk) returns (error: Option<string>)
    modifies spool, disk
    ensures SameElsewhere(old(disk.files), disk.files, name)
    ensures spool.files == old(spool.files) || spool.files == old(spool.files) - {name}
    ensures error.None? ==> name in disk.files && (cfg.verify ==> disk.files[name] == bytes)
    ensures disk.faithful ==> error.None? && disk.files == old(disk.files)[name := bytes]
  {
    var renamed := disk.Persist(name, bytes);
    if !renamed {
      return Some("rename");
    }
    spool.files := spool.files - {name};
    var same := VerifyDestHash(disk, name, Digest(bytes), cfg.verify);
    error := if same then None else Some("verification failed");
  }

  // Rename, verify, commit, then delete or defer. `bytes` is the finished `.part`.
  method Settle(cfg: Config, serial: string, item: PlannedCopy, bytes: Bytes, ticks: seq<nat>, camera: Card, spool: Spool,
                disk: Disk, ledger: Ledger, ghost h: Story)
    returns (r: Result, ghost h': Story)
    requires |bytes| == item.entry.size && Records(h, ledger.Value())
    modifies camera, spool, disk, ledger`imported, ledger`jobs, ledger`deletes
    ensures Continues(h, h') && Records(h', ledger.Value())
    ensures EntersStep(cfg, item, r, None, disk.files, h, h')
    ensures Downloaded(cfg, serial, item, bytes, old(NowUsb(camera, spool, disk, ledger)), NowUsb(camera, spool, disk, ledger), r)
    ensures spool.files == old(spool.files) || spool.files == old(spool.files) - {item.dest}
    ensures disk.faithful ==> disk.files == old(disk.files)[item.dest := bytes] && (r.CopiedTo? || r.Crashed?)
  {
    ghost var u := NowUsb(camera, spool, disk, ledger);
    var error := Place(cfg, item.dest, bytes, spool, disk);
    ghost var v := NowUsb(camera, spool, disk, ledger);
    if error.Some? {
      NothingCommitted(cfg, serial, item, bytes, u, v, ticks, error.value);
      return NotCommitted(ItemTrace.Broken(item.entry.name, ticks, item.entry.size, error.value)), h;
    }
    r, h' := Conclude(cfg, serial, item, bytes, ticks, camera, spool, disk, ledger, h);
    AfterRename(cfg, serial, item, bytes, u, v, NowUsb(camera, spool, disk, ledger), r);
  }

  // One iteration. `offline` tells that the download itself failed in a way
  // worth retrying.
  method FetchItem(cfg: Config, serial: string, item: PlannedCopy, camera: Card, spool: Spool, disk: Disk, ledger: Ledger,
                   maxAttempts: nat, ghost h: Story)
    returns (r: Result, offline: bool, ghost got: Bytes, ghost h': Story)
    requires Records(h, ledger.Value()) && item.entry.src in camera.files
    modifies camera, spool, disk, ledger`imported, ledger`jobs, ledger`deletes
    ensures Continues(h, h') && Records(h', ledger.Value())
    ensures EntersStep(cfg, item, r, None, disk.files, h, h')
    ensures offline ==> r.NotCommitted?
    ensures Downloaded(cfg, serial, item, got, old(NowUsb(camera, spool, disk, ledger)), NowUsb(camera, spool, disk, ledger), r)
    ensures PartStep(old(camera.files)[item.entry.src], item.entry.size,
                     Lookup(old(spool.files), item.dest), Lookup(spool.files, item.dest))
    ensures Usable(Lookup(old(spool.files), item.dest), old(camera.files)[item.entry.src], item.entry.size) ==>
              got == Announced(old(camera.files)[item.entry.src], item.entry.size)
  {
    var e := item.entry;
    var sound: bool := *;
    got, h' := Announced(camera.files[e.src], e.size), h;
    var out, ticks := Fetch(camera, item, spool, maxAttempts, [], sound);
    if out.Broken? {
      return NotCommitted(ItemTrace.Broken(e.name, ticks, e.size, "download")), out.retryable, got, h;
    }
    if out.total != e.size {
      return NotCommitted(ItemTrace.Broken(e.name, ticks, e.size, "size mismatch")), false, got, h;
    }
    got := spool.files[item.dest];
    ghost var parts := spool.files;
    r, h' := Settle(cfg, serial, item, spool.files[item.dest], ticks, camera, spool, disk, ledger, h);
    offline := false;
  }

  /* ----- deferred deletes ----- */

  // The due markers that the listing still shows as the same recording.
  function ToDelete(due: seq<nat>, deletes: seq<DeleteRow>, listing: seq<Q.Media>): (ids: seq<nat>)
    requires forall k :: 0 <= k < |due| ==> due[k] < |deletes|
    ensures forall id :: id in ids <==> id in due && Q.SameRecording(deletes[id], listing)
  {
    if due == [] then []
    else
      var id := due[|due| - 1];
      assert due == due[..|due| - 1] + [id];
      ToDelete(due[..|due| - 1], deletes, listing) + if Q.SameRecording(deletes[id], listing) then [id] else []
  }

  predicate AfterReap(before: seq<DeleteRow>, after: seq<DeleteRow>, handled: seq<nat>, listing: seq<Q.Media>,
                      replies: map<nat, Q.DeleteReply>) {
    && |after| == |before|
    && forall i :: 0 <= i < |before| ==>
         after[i] == if i in handled
                     then Reaped(before[i], listing, if i in replies then replies[i] else Q.OtherError)
                     else before[i]
  }

  lemma NextDue(due: seq<nat>, k: nat)
    requires k < |due| && forall i, j :: 0 <= i < j < |due| ==> due[i] < due[j]
    ensures due[..k + 1] == due[..k] + [due[k]] && due[..k + 1][..k] == due[..k] && due[k] !in due[..k]
  {
  }

  lemma ReapStep(before: seq<DeleteRow>, rows: seq<DeleteRow>, rows': seq<DeleteRow>, handled: seq<nat>,
                 listing: seq<Q.Media>, replies: map<nat, Q.DeleteReply>, replies': map<nat, Q.DeleteReply>, id: nat,
                 reply: Q.DeleteReply)
    requires AfterReap(before, rows, handled, listing, replies) && id < |before| && id !in handled
    requires replies' == (if Q.SameRecording(before[id], listing) then replies[id := reply] else replies)
    requires rows' == rows[id := Reaped(before[id], listing, reply)]
    ensures AfterReap(before, rows', handled + [id], listing, replies')
  {
  }

  // Send a delete for exactly the due markers whose recording is still there;
  // clear those whose file is gone or replaced; keep those whose delete failed.
  // If the tables are those of a history of the shared queue, then so is this,
  // and every delete sent is backed by a confirmed upload.
  method ReapCameraDeletes(cfg: Config, serial: string, listing: seq<Q.Media>, ledger: Ledger, ghost h: Story)
    returns (issued: seq<nat>, replies: map<nat, Q.DeleteReply>, ghost h': Story)
    requires Records(h, ledger.Value())
    modifies ledger`deletes
    ensures !cfg.deleteAfterVerify ==> issued == [] && ledger.deletes == old(ledger.deletes)
    ensures var due := DueDeletes(old(ledger.deletes), ledger.imported, serial, 0);
            cfg.deleteAfterVerify ==>
              && issued == ToDelete(due, old(ledger.deletes), listing)
              && AfterReap(old(ledger.deletes), ledger.deletes, due, listing, replies)
    ensures Continues(h, h') && Records(h', ledger.Value())
    ensures h.s0 == S.EMPTY ==>
              forall id :: id in issued ==>
                             id < |ledger.deletes| && Q.Backed(Final(h').q, ledger.deletes[id].importedId)
  {
    issued, replies, h' := [], map[], h;
    if cfg.deleteAfterVerify {
      ghost var h1 := Then(h, [S.Table(Q.ReapQuery(h.p, serial))]);
      ReapBegins(h, ledger.Value(), serial);
      issued, replies, h' := ReapDue(DueDeletes(ledger.deletes, ledger.imported, serial, 0), listing, ledger, h1);
      ContinuesOn(h, h1, h');
      if h.s0 == S.EMPTY {
        DeletesAreBacked(h', issued, Issued(h1));
      }
    }
  }

  // The issued ids, as the shared queue has logged them after `before`.
  predicate Noted(log: seq<Q.Issue>, issued: seq<nat>, before: seq<Q.Issue>) {
    && |log| == |before| + |issued|
    && forall k :: 0 <= k < |issued| ==> log[|before| + k].row == issued[k]
  }

  lemma DeletesAreBacked(h: Story, issued: seq<nat>, before: seq<Q.Issue>)
    requires h.s0 == S.EMPTY && Lawful(h) && Noted(Issued(h), issued, before)
    ensures var s := Final(h).q;
            forall id :: id in issued ==> id < |s.deletes| && Q.Backed(s, s.deletes[id].importedId)
  {
    var s := Final(h).q;
    S.TablesFollowQueue(S.EMPTY, h.es);
    forall id | id in issued ensures id < |s.deletes| && Q.Backed(s, s.deletes[id].importedId) {
      var k :| 0 <= k < |issued| && issued[k] == id;
      CameraDeletesAreBacked(S.Statements(h.es), |before| + k);
    }
  }

  // What the reap has done so far, having handled the markers `handled`.
  predicate ReapedSoFar(before: seq<DeleteRow>, rows: seq<DeleteRow>, handled: seq<nat>, listing: seq<Q.Media>,
                        issued: seq<nat>, replies: map<nat, Q.DeleteReply>)
    requires forall k :: 0 <= k < |handled| ==> handled[k] < |before|
  {
    && issued == ToDelete(handled, before, listing)
    && (forall x :: x in replies ==> x in handled)
    && AfterReap(before, rows, handled, listing, replies)
  }

  lemma ReapedOneMore(before: seq<DeleteRow>, rows: seq<DeleteRow>, rows': seq<DeleteRow>, handled: seq<nat>,
                      listing: seq<Q.Media>, issued: seq<nat>, replies: map<nat, Q.DeleteReply>, id: nat, reply: Q.DeleteReply)
    requires (forall k :: 0 <= k < |handled| ==> handled[k] < |before|) && id < |before| && id !in handled
    requires ReapedSoFar(before, rows, handled, listing, issued, replies)
    requires rows' == rows[id := Reaped(rows[id], listing, reply)]
    ensures rows[id] == before[id]
    ensures var sent := Q.SameRecording(before[id], listing);
            ReapedSoFar(before, rows', handled + [id], listing, if sent then issued + [id] else issued,
                        if sent then replies[id := reply] else replies)
  {
    var sent := Q.SameRecording(before[id], listing);
    ReapStep(before, rows, rows', handled, listing, replies, if sent then replies[id := reply] else replies, id, reply);
    assert (handled + [id])[..|handled|] == handled;
  }

  method ReapDue(due: seq<nat>, listing: seq<Q.Media>, ledger: Ledger, ghost h: Story)
    returns (issued: seq<nat>, replies: map<nat, Q.DeleteReply>, ghost h': Story)
    requires forall k :: 0 <= k < |due| ==> due[k] < |ledger.deletes|
    requires forall i, j :: 0 <= i < j < |due| ==> due[i] < due[j]
    requires TellsReap(h, ledger.Value(), due)
    modifies ledger`deletes
    ensures issued == ToDelete(due, old(ledger.deletes), listing)
    ensures AfterReap(old(ledger.deletes), ledger.deletes, due, listing, replies)
    ensures Continues(h, h') && TellsReap(h', ledger.Value(), []) && Noted(Issued(h'), issued, Issued(h))
  {
    issued, replies, h' := [], map[], h;
    ghost var before := ledger.deletes;
    assert due[..0] == [] && due[0..] == due;
    for k := 0 to |due|
      invariant |ledger.deletes| == |before| && ReapedSoFar(before, ledger.deletes, due[..k], listing, issued, replies)
      invariant Continues(h, h') && TellsReap(h', ledger.Value(), due[k..]) && Noted(Issued(h'), issued, Issued(h))
    {
      NextDue(due, k);
      ghost var rows, h1 := ledger.deletes, h';
      var sent, reply;
      sent, reply, h' := ReapRow(due[k], listing, ledger, due[k..], h1);
      ContinuesOn(h, h1, h');
      ReapedOneMore(before, rows, ledger.deletes, due[..k], listing, issued, replies, due[k], reply);
      NotedMore(Issued(h1), Issued(h'), issued, Issued(h), due[k], sent);
      if sent {
        issued, replies := issued + [due[k]], replies[due[k] := reply];
      }
      assert due[k..][1..] == due[k + 1..];
    }
    assert due[..|due|] == due && due[|due|..] == [];
  }

  lemma NotedMore(log: seq<Q.Issue>, log': seq<Q.Issue>, issued: seq<nat>, before: seq<Q.Issue>, id: nat, sent: bool)
    requires Noted(log, issued, before)
    requires |log'| == |log| + (if sent then 1 else 0) && log <= log'
    requires sent ==> log'[|log|].row == id
    ensures Noted(log', if sent then issued + [id] else issued, before)
  {
  }

  method ReapRow(id: nat, listing: seq<Q.Media>, ledger: Ledger, ghost due: seq<nat>, ghost h: Story)
    returns (sent: bool, reply: Q.DeleteReply, ghost h': Story)
    requires id < |ledger.deletes| && due != [] && due[0] == id && TellsReap(h, ledger.Value(), due)
    modifies ledger`deletes
    ensures sent <==> Q.SameRecording(old(ledger.deletes)[id], listing)
    ensures ledger.deletes == old(ledger.deletes)[id := Reaped(old(ledger.deletes)[id], listing, reply)]
    ensures Continues(h, h') && TellsReap(h', ledger.Value(), due[1..])
    ensures |Issued(h')| == |Issued(h)| + (if sent then 1 else 0) && Issued(h) <= Issued(h')
    ensures sent ==> Issued(h')[|Issued(h)|].row == id
  {
    sent, reply := Q.SameRecording(ledger.deletes[id], listing), Q.OtherError;
    ghost var db := ledger.Value();
    if sent {
      reply := AskDelete();
    }
    if !sent || !reply.OtherError? {
      ledger.MarkCameraDeleteDone(id);
    }
    ReapOne(h, db, due, listing, reply);
    h' := Then(h, ReapEvents(h.p, db.deletes[id], listing, reply));
    ContinuesFurther(h, h, ReapEvents(h.p, db.deletes[id], listing, reply));
  }

  // The files whose deletion the reap reports: those answered 200.
  function FreedNames(issued: seq<nat>, deletes: seq<DeleteRow>, replies: map<nat, Q.DeleteReply>): seq<string> {
    if issued == [] then []
    else
      var id := issued[|issued| - 1];
      FreedNames(issued[..|issued| - 1], deletes, replies)
      + if id < |deletes| && id in replies && replies[id].Deleted200? then [deletes[id].name] else []
  }

  // The camera's answer to a delete request: any.
  method AskDelete() returns (reply: Q.DeleteReply)
  {
    reply := *;
  }
}
