/**
  The SD-card offload: plan (scanner.rs), copy and verify (copy.rs), adopt or
  commit, perhaps delete (orchestrator.rs). Destination files are named relative
  to the destination root.
 */
module SdOffload {
  import opened Wrappers
  import opened Tables
  import opened LedgerModule
  import opened Naming
  import opened Transfer
  import opened RunTrace
  import opened QueueSteps
  import opened Storage

  datatype Kind = Media | Proxy | Thumbnail

  // A file of the card with its rendered destination name.
  datatype Entry = Entry(src: string, name: string, kind: Kind, size: nat, mtime: int, rendered: string)

  // `dest` is collision-free; `entry.rendered` is the canonical name, kept so
  // that a file left there by a crashed run can be adopted.
  datatype PlannedCopy = PlannedCopy(entry: Entry, dest: string)

  function KeyOf(serial: string, e: Entry): Key {
    Key(serial, e.name, e.size, e.mtime)
  }

  predicate Wanted(cfg: Config, e: Entry) {
    (e.kind.Proxy? ==> cfg.includeProxies) && (e.kind.Thumbnail? ==> cfg.includeThumbnails)
  }

  predicate Known(rows: seq<Imported>, key: Key) {
    FindKey(rows, key).Some?
  }

  function Kept(entries: seq<Entry>, cfg: Config, rows: seq<Imported>, serial: string): (r: seq<Entry>)
    ensures forall e :: e in r <==> e in entries && Wanted(cfg, e) && !Known(rows, KeyOf(serial, e))
  {
    if entries == [] then []
    else
      var n := |entries| - 1;
      var e := entries[n];
      assert entries == entries[..n] + [e];
      Kept(entries[..n], cfg, rows, serial)
      + if Wanted(cfg, e) && !Known(rows, KeyOf(serial, e)) then [e] else []
  }

  function SkipCount(entries: seq<Entry>, cfg: Config, rows: seq<Imported>, serial: string): nat {
    if entries == [] then 0
    else
      var e := entries[|entries| - 1];
      SkipCount(entries[..|entries| - 1], cfg, rows, serial) + One(Wanted(cfg, e) && Known(rows, KeyOf(serial, e)))
  }

  function Dests(plan: seq<PlannedCopy>): set<string> {
    set p | p in plan :: p.dest
  }

  // The destinations are free at plan time and pairwise distinct ...
  predicate PlanFree(plan: seq<PlannedCopy>, onDisk: set<string>) {
    && (forall i :: 0 <= i < |plan| ==> plan[i].dest !in onDisk)
    && (forall i, j :: 0 <= i < j < |plan| ==> plan[i].dest != plan[j].dest)
  }

  // ... because each is the first free variant of its name, given the disk and
  // the destinations before it.
  ghost predicate PlanOk(plan: seq<PlannedCopy>, onDisk: set<string>) {
    && PlanFree(plan, onDisk)
    && forall i {:trigger Resolved(plan, onDisk, i)} :: 0 <= i < |plan| ==> Resolved(plan, onDisk, i)
  }

  predicate Resolved(plan: seq<PlannedCopy>, onDisk: set<string>, i: int)
    requires 0 <= i < |plan|
  {
    Resolves(onDisk + Dests(plan[..i]), plan[i].entry.rendered, plan[i].dest)
  }

  lemma DestsExtend(plan: seq<PlannedCopy>, p: PlannedCopy)
    ensures Dests(plan + [p]) == Dests(plan) + {p.dest} && Entries(plan + [p]) == Entries(plan) + [p.entry]
  {
  }

  lemma PlanExtends(plan: seq<PlannedCopy>, onDisk: set<string>, p: PlannedCopy)
    requires PlanOk(plan, onDisk) && Resolves(onDisk + Dests(plan), p.entry.rendered, p.dest)
    ensures PlanOk(plan + [p], onDisk)
  {
    var longer := plan + [p];
    forall i | 0 <= i < |longer| ensures Resolved(longer, onDisk, i) {
      if i < |plan| {
        assert Resolved(plan, onDisk, i) && longer[..i] == plan[..i];
      } else {
        assert longer[..i] == plan;
      }
    }
    forall i | 0 <= i < |plan| ensures longer[i].dest != p.dest {
      assert plan[i].dest in Dests(plan);
    }
  }

  /* ----- scanner.rs ----- */

  lemma KeptNext(entries: seq<Entry>, i: nat, cfg: Config, rows: seq<Imported>, serial: string)
    requires i < |entries|
    ensures var e := entries[i]; var keep := Wanted(cfg, e) && !Known(rows, KeyOf(serial, e));
            Kept(entries[..i + 1], cfg, rows, serial) == Kept(entries[..i], cfg, rows, serial) + if keep then [e] else []
    ensures SkipCount(entries[..i + 1], cfg, rows, serial)
            == SkipCount(entries[..i], cfg, rows, serial)
               + One(Wanted(cfg, entries[i]) && Known(rows, KeyOf(serial, entries[i])))
  {
    assert entries[..i + 1][..i] == entries[..i];
  }

  // The plan for a first part of the listing, and the names it reserves.
  ghost predicate PlannedSoFar(entries: seq<Entry>, i: nat, cfg: Config, rows: seq<Imported>, serial: string,
                               onDisk: set<string>, plan: seq<PlannedCopy>, reserved: set<string>) {
    && i <= |entries| && Entries(plan) == Kept(entries[..i], cfg, rows, serial) && PlanOk(plan, onDisk)
    && reserved == Dests(plan)
  }

  lemma PlansNext(entries: seq<Entry>, i: nat, cfg: Config, rows: seq<Imported>, serial: string, onDisk: set<string>,
                  plan: seq<PlannedCopy>, reserved: set<string>, dest: string)
    requires PlannedSoFar(entries, i, cfg, rows, serial, onDisk, plan, reserved) && i < |entries|
    requires Wanted(cfg, entries[i]) && !Known(rows, KeyOf(serial, entries[i]))
    requires Resolves(onDisk + reserved, entries[i].rendered, dest)
    ensures PlannedSoFar(entries, i + 1, cfg, rows, serial, onDisk, plan + [PlannedCopy(entries[i], dest)], reserved + {dest})
  {
    KeptNext(entries, i, cfg, rows, serial);
    PlanExtends(plan, onDisk, PlannedCopy(entries[i], dest));
    DestsExtend(plan, PlannedCopy(entries[i], dest));
  }

  lemma PlansSkip(entries: seq<Entry>, i: nat, cfg: Config, rows: seq<Imported>, serial: string, onDisk: set<string>,
                  plan: seq<PlannedCopy>, reserved: set<string>)
    requires PlannedSoFar(entries, i, cfg, rows, serial, onDisk, plan, reserved) && i < |entries|
    requires !Wanted(cfg, entries[i]) || Known(rows, KeyOf(serial, entries[i]))
    ensures PlannedSoFar(entries, i + 1, cfg, rows, serial, onDisk, plan, reserved)
  {
    KeptNext(entries, i, cfg, rows, serial);
  }

  lemma PlansAll(entries: seq<Entry>, cfg: Config, rows: seq<Imported>, serial: string, onDisk: set<string>,
                 plan: seq<PlannedCopy>, reserved: set<string>)
    requires PlannedSoFar(entries, |entries|, cfg, rows, serial, onDisk, plan, reserved)
    ensures Entries(plan) == Kept(entries, cfg, rows, serial) && PlanOk(plan, onDisk)
  {
    assert entries[..|entries|] == entries;
  }

  function Entries(plan: seq<PlannedCopy>): (r: seq<Entry>)
    ensures |r| == |plan|
  {
    seq(|plan|, i requires 0 <= i < |plan| => plan[i].entry)
  }

  method Scan(entries: seq<Entry>, cfg: Config, ledger: Ledger, serial: string, disk: Disk)
    returns (plan: seq<PlannedCopy>, skipped: nat)
    ensures Entries(plan) == Kept(entries, cfg, ledger.imported, serial)
    ensures skipped == SkipCount(entries, cfg, ledger.imported, serial)
    ensures PlanOk(plan, disk.files.Keys)
  {
    plan, skipped := [], 0;
    var reserved: set<string> := {};
    for i := 0 to |entries|
      invariant PlannedSoFar(entries, i, cfg, ledger.imported, serial, disk.files.Keys, plan, reserved)
      invariant skipped == SkipCount(entries[..i], cfg, ledger.imported, serial)
    {
      var e := entries[i];
      KeptNext(entries, i, cfg, ledger.imported, serial);
      if !Wanted(cfg, e) || Known(ledger.imported, KeyOf(serial, e)) {
        PlansSkip(entries, i, cfg, ledger.imported, serial, disk.files.Keys, plan, reserved);
        if Wanted(cfg, e) {
          skipped := skipped + 1;
        }
        continue;
      }
      var dest, _ := ResolveCollision(disk.files.Keys, e.rendered, reserved);
      PlansNext(entries, i, cfg, ledger.imported, serial, disk.files.Keys, plan, reserved, dest);
      plan, reserved := plan + [PlannedCopy(e, dest)], reserved + {dest};
    }
    PlansAll(entries, cfg, ledger.imported, serial, disk.files.Keys, plan, reserved);
    assert entries[..|entries|] == entries;
  }

  /* ----- copy.rs ----- */

  datatype Copy = CopyOk(bytes: nat, hash: Option<Digest>) | CopyFailed(error: string)

  // `verify_dest_hash`: re-read, compare, and remove the file on a mismatch.
  method VerifyDestHash(disk: Disk, name: string, expected: Digest, verify: bool) returns (ok: bool)
    modifies disk
    ensures SameElsewhere(old(disk.files), disk.files, name)
    ensures ok ==> disk.files == old(disk.files) && (verify ==> name in disk.files && Digest(disk.files[name]) == expected)
    ensures !ok ==> disk.files == old(disk.files) || disk.files == old(disk.files) - {name}
    ensures disk.faithful && name in old(disk.files) && Digest(old(disk.files)[name]) == expected ==> ok
  {
    if !verify {
      return true;
    }
    var got := disk.Read(name);
    if got.None? {
      return false;
    }
    if Digest(got.value) != expected {
      disk.Remove(name);
      return false;
    }
    ok := true;
  }

  // The read/write loop into the temporary file, hashing on the way.
  method FillTemp(bytes: Bytes, sound: bool) returns (ok: bool, tmp: Bytes, hasher: Bytes, ticks: seq<nat>)
    ensures ok ==> tmp == bytes && hasher == bytes
    ensures sound ==> ok
    ensures forall i, j :: 0 <= i < j < |ticks| ==> ticks[i] < ticks[j]
    ensures ok ==> if bytes == [] then ticks == [] else ticks != [] && ticks[|ticks| - 1] == |bytes|
  {
    tmp, hasher, ticks := [], [], [];
    assert bytes[..0] == [];
    while |tmp| < |bytes|
      invariant |tmp| <= |bytes| && tmp == bytes[..|tmp|] && hasher == tmp
      invariant forall i, j :: 0 <= i < j < |ticks| ==> ticks[i] < ticks[j]
      invariant if tmp == [] then ticks == [] else ticks != [] && ticks[|ticks| - 1] == |tmp|
      decreases |bytes| - |tmp|
    {
      var fails: bool := *;
      if fails && !sound {
        return false, tmp, hasher, ticks;
      }
      var n := Min(BUFFER, |bytes| - |tmp|);
      var read := bytes[|tmp|..|tmp| + n];
      hasher := hasher + read;
      tmp := tmp + read;
      ticks := ticks + [|tmp|];
    }
    ok := true;
  }

  const BUFFER: nat := 1024 * 1024

  // Copy through a temporary file, persist it, read it back.
  method CopyVerified(card: Card, src: string, disk: Disk, name: string, verify: bool)
    returns (out: Copy, ticks: seq<nat>)
    modifies disk
    ensures SameElsewhere(old(disk.files), disk.files, name)
    ensures out.CopyOk? ==> src in card.files && name in disk.files && out.bytes == |card.files[src]|
    ensures out.CopyOk? ==> out.hash == if verify then Some(Digest(card.files[src])) else None
    ensures out.CopyOk? && verify ==> disk.files[name] == card.files[src]
    ensures disk.faithful && disk.files != old(disk.files) ==>
              src in card.files && name in disk.files && disk.files[name] == card.files[src]
    ensures disk.faithful && out.CopyOk? ==> disk.files[name] == card.files[src]
    ensures disk.faithful && card.reliable && src in card.files ==> out.CopyOk?
    ensures forall i, j :: 0 <= i < j < |ticks| ==> ticks[i] < ticks[j]
    ensures out.CopyOk? ==> if out.bytes == 0 then ticks == [] else ticks != [] && ticks[|ticks| - 1] == out.bytes
  {
    ticks := [];
    var source := card.Read(src);
    if source.None? {
      return CopyFailed("open"), [];
    }
    var filled, tmp, hasher;
    filled, tmp, hasher, ticks := FillTemp(source.value, disk.faithful && card.reliable);
    if !filled {
      return CopyFailed("read or write"), ticks;
    }
    var persisted := disk.Persist(name, tmp);
    if !persisted {
      return CopyFailed("persist"), ticks;
    }
    var same := VerifyDestHash(disk, name, Digest(hasher), verify);
    if !same {
      return CopyFailed("verification failed"), ticks;
    }
    out := CopyOk(|tmp|, if verify then Some(Digest(hasher)) else None);
  }

  /* ----- orchestrator.rs ----- */

  method MatchingHash(card: Card, src: string, disk: Disk, name: string) returns (h: Option<Digest>)
    ensures h.Some? ==> src in card.files && name in disk.files && disk.files[name] == card.files[src]
                        && h.value == Digest(card.files[src])
    ensures card.reliable && disk.faithful && src in card.files && name in disk.files && disk.files[name] == card.files[src] ==>
              h.Some?
  {
    var s := card.Read(src);
    var d := disk.Read(name);
    h := if s.Some? && d.Some? && Digest(s.value) == Digest(d.value) then Some(Digest(s.value)) else None;
  }

  // A complete copy of the source sits at the canonical name.
  predicate Leftover(item: PlannedCopy, source: Option<Bytes>, files: map<string, Bytes>) {
    && source.Some? && |source.value| == item.entry.size
    && Lookup(files, item.entry.rendered) == source
  }

  // May a file found at the canonical name be adopted instead of copied again?
  // With verify off, its length is all that is looked at.
  method TryAdopt(cfg: Config, item: PlannedCopy, card: Card, disk: Disk) returns (adopt: bool, hash: Option<Digest>)
    ensures adopt ==> item.entry.rendered in disk.files && |disk.files[item.entry.rendered]| == item.entry.size
    ensures adopt && cfg.verify ==>
              item.entry.src in card.files && disk.files[item.entry.rendered] == card.files[item.entry.src]
              && hash == Some(Digest(card.files[item.entry.src]))
    ensures !cfg.verify ==>
              hash == None
              && (adopt <==> item.entry.rendered in disk.files && |disk.files[item.entry.rendered]| == item.entry.size)
    ensures card.reliable && disk.faithful && Leftover(item, Lookup(card.files, item.entry.src), disk.files) ==> adopt
  {
    var canonical := item.entry.rendered;
    adopt, hash := false, None;
    if canonical in disk.files && |disk.files[canonical]| == item.entry.size {
      if cfg.verify {
        hash := MatchingHash(card, item.entry.src, disk, canonical);
        adopt := hash.Some?;
      } else {
        adopt := true;
      }
    }
  }

  // How one item of the plan ended.
  datatype Result =
    | Crashed
    | NotCommitted(trace: ItemTrace)
    | AdoptedAt(trace: ItemTrace)
    | CopiedTo(trace: ItemTrace)

  predicate Commits(r: Result) {
    r.AdoptedAt? || r.CopiedTo?
  }

  function CommitName(item: PlannedCopy, r: Result): string {
    if r.AdoptedAt? then item.entry.rendered else item.dest
  }

  // The effect of one item on the destination and the ledger, as values.
  ghost predicate ItemStep(cfg: Config, serial: string, item: PlannedCopy, source: Option<Bytes>, r: Result,
                           files: map<string, Bytes>, files': map<string, Bytes>,
                           rows: seq<Imported>, rows': seq<Imported>) {
    var key := KeyOf(serial, item.entry);
    && SameElsewhere(files, files', item.dest)
    && (!Commits(r) ==> rows' == rows)
    && (r.AdoptedAt? ==> !Known(rows, key) && files' == files)
    && (Commits(r) ==>
          && CommitName(item, r) in files'
          && (cfg.verify ==> source == Some(files'[CommitName(item, r)]))
          && exists hash :: rows' == Upsert(rows, key, CommitName(item, r), hash).0)
  }

  // A commit under Auto or Manual queues one upload: of the committed file, to
  // its remote path, pointing back at its row.
  ghost predicate JobsStep(cfg: Config, serial: string, item: PlannedCopy, r: Result, cardSrc: Option<string>,
                           remoteName: string, jobs: seq<Job>, jobs': seq<Job>, rows: seq<Imported>) {
    if Commits(r) && Mirrors(cfg) then
      exists id: nat :: id < |rows| && rows[id].key == KeyOf(serial, item.entry) && rows[id].dest == CommitName(item, r)
        && jobs' == jobs + [NewJob(id, CommitName(item, r), SpecFor(cfg, remoteName, item.entry.size, cardSrc).value)]
    else jobs' == jobs
  }

  // ... of which the shared queue knows the bytes, and what the card held when
  // it was committed.
  ghost predicate EntersStep(cfg: Config, item: PlannedCopy, r: Result, source: Option<Bytes>, files': map<string, Bytes>,
                             h: Story, h': Story) {
    && Lawful(h) && Lawful(h')
    && if Commits(r) && Mirrors(cfg) then
         && CommitName(item, r) in files'
         && Final(h').payload == Final(h).payload + [files'[CommitName(item, r)]]
         && Final(h').sources == Final(h).sources + [source]
       else Final(h').payload == Final(h).payload && Final(h').sources == Final(h).sources
  }

  // What is known besides when no read fails and the disk keeps what it is given.
  predicate FaultFreeStep(serial: string, item: PlannedCopy, source: Option<Bytes>, r: Result,
                          files: map<string, Bytes>, files': map<string, Bytes>, rows: seq<Imported>) {
    && (files' != files ==> source.Some? && Lookup(files', item.dest) == source)
    && (source.Some? && !r.Crashed? ==> Commits(r))
    && (Leftover(item, source, files) && !Known(rows, KeyOf(serial, item.entry)) ==>
          files' == files && (r.Crashed? || r.AdoptedAt?))
  }

  // Delete-after-verify. Under Auto the source stays for the cloud worker.
  method DeleteSource(cfg: Config, src: string, card: Card) returns (cleanup: Cleanup)
    modifies card
    ensures CleanupFits(cfg, cleanup, src, old(card.files), card.files)
  {
    cleanup := NotAttempted;
    if cfg.deleteAfterVerify && ShouldDeleteCard(true, Mode(cfg)) {
      var removed := card.Remove(src);
      cleanup := if removed then Deleted else Undeleted("remove");
    }
  }

  predicate CleanupFits(cfg: Config, cleanup: Cleanup, src: string, card: map<string, Bytes>, card': map<string, Bytes>) {
    && (cleanup.NotAttempted? <==> !cfg.deleteAfterVerify || Mode(cfg) == Auto)
    && card' == if cleanup.Deleted? then card - {src} else card
  }

  // What a commit of the file at `name` does to rows, jobs and story.
  ghost predicate CommitFits(cfg: Config, key: Key, name: string, src: string, rows: seq<Imported>, rows': seq<Imported>,
                             jobs: seq<Job>, jobs': seq<Job>) {
    exists hash, id ::
      && Upsert(rows, key, name, hash) == (rows', id)
      && jobs' == jobs + if Mirrors(cfg) then [NewJob(id, name, SpecFor(cfg, name, key.size, Some(src)).value)] else []
  }

  method CommitItem(cfg: Config, serial: string, e: Entry, name: string, hash: Option<Digest>, card: Card, disk: Disk,
                    ledger: Ledger, ghost h: Story)
    returns (ghost h': Story)
    requires Records(h, ledger.Value()) && name in disk.files
    modifies ledger`imported, ledger`jobs
    ensures Continues(h, h') && Records(h', ledger.Value())
    ensures CommitFits(cfg, KeyOf(serial, e), name, e.src, old(ledger.imported), ledger.imported, old(ledger.jobs), ledger.jobs)
    ensures Final(h').payload == Final(h).payload + if Mirrors(cfg) then [disk.files[name]] else []
    ensures Final(h').sources == Final(h).sources + if Mirrors(cfg) then [Lookup(card.files, e.src)] else []
  {
    var id;
    id, h' := CommitImported(ledger, cfg, Import(KeyOf(serial, e), name, name, hash, Some(e.src)), None,
                             disk.files[name], card.files, h);
    assert Upsert(old(ledger.imported), KeyOf(serial, e), name, hash) == (ledger.imported, id);
  }

  // All that a run reads and writes, as values.
  datatype World = World(card: map<string, Bytes>, files: map<string, Bytes>, rows: seq<Imported>, jobs: seq<Job>)

  function Now(card: Card, disk: Disk, ledger: Ledger): World
    reads card, disk, ledger
  {
    World(card.files, disk.files, ledger.imported, ledger.jobs)
  }

  // What one item does to the world, and what its trace says of it; `sound` tells
  // that no read fails and the disk keeps what it is given.
  ghost predicate Offloaded(cfg: Config, serial: string, item: PlannedCopy, sound: bool, w: World, w': World, r: Result) {
    var source := Lookup(w.card, item.entry.src);
    && ItemStep(cfg, serial, item, source, r, w.files, w'.files, w.rows, w'.rows)
    && (sound ==> FaultFreeStep(serial, item, source, r, w.files, w'.files, w.rows))
    && JobsStep(cfg, serial, item, r, Some(item.entry.src), CommitName(item, r), w.jobs, w'.jobs, w'.rows)
    && match r
       case Crashed => w'.card == w.card
       case NotCommitted(t) => w'.card == w.card && t.Broken? && t.file == item.entry.name
       case AdoptedAt(t) => w'.card == w.card && t == Adopted(item.entry.name, Mirrors(cfg))
       case CopiedTo(t) =>
         && t.Copied? && CleanupFits(cfg, t.cleanup, item.entry.src, w.card, w'.card)
         && t.file == item.entry.name && t.queued == Mirrors(cfg) && source.Some? && t.bytes == |source.value|
  }

  // A file found at the canonical name, committed instead of copied.
  method AdoptItem(cfg: Config, serial: string, item: PlannedCopy, card: Card, disk: Disk, ledger: Ledger, ghost h: Story)
    returns (r: Option<Result>, ghost h': Story)
    requires Records(h, ledger.Value()) && !Known(ledger.imported, KeyOf(serial, item.entry))
    modifies ledger`imported, ledger`jobs
    ensures Continues(h, h') && Records(h', ledger.Value())
    ensures r.None? ==> h' == h && ledger.Value() == old(ledger.Value())
    ensures r.None? && disk.faithful && card.reliable ==> !Leftover(item, Lookup(card.files, item.entry.src), disk.files)
    ensures r.Some? ==> r.value.AdoptedAt? && EntersStep(cfg, item, r.value, Lookup(card.files, item.entry.src), disk.files, h, h')
    ensures r.Some? ==> Offloaded(cfg, serial, item, disk.faithful && card.reliable,
                                  old(Now(card, disk, ledger)), Now(card, disk, ledger), r.value)
  {
    var e := item.entry;
    r, h' := None, h;
    var adopt, hash := TryAdopt(cfg, item, card, disk);
    if adopt {
      h' := CommitItem(cfg, serial, e, e.rendered, hash, card, disk, ledger, h);
      r := Some(AdoptedAt(Adopted(e.name, Mirrors(cfg))));
    }
  }

  // Copy, verify and commit, then perhaps delete. The process may die between
  // the persist and the commit.
  method CopyItem(cfg: Config, serial: string, item: PlannedCopy, card: Card, disk: Disk, ledger: Ledger, ghost h: Story)
    returns (r: Result, ghost h': Story)
    requires Records(h, ledger.Value())
    requires disk.faithful && card.reliable && !Known(ledger.imported, KeyOf(serial, item.entry)) ==>
               !Leftover(item, Lookup(card.files, item.entry.src), disk.files)
    modifies card, disk, ledger`imported, ledger`jobs
    ensures Continues(h, h') && Records(h', ledger.Value())
    ensures EntersStep(cfg, item, r, Lookup(old(card.files), item.entry.src), disk.files, h, h')
    ensures Offloaded(cfg, serial, item, disk.faithful && card.reliable,
                      old(Now(card, disk, ledger)), Now(card, disk, ledger), r)
  {
    var e := item.entry;
    h' := h;
    var out, ticks := CopyVerified(card, e.src, disk, item.dest, cfg.verify);
    if out.CopyFailed? {
      return NotCommitted(Broken(e.name, ticks, e.size, out.error)), h;
    }
    var dies: bool := *;
    if dies {
      return Crashed, h;
    }
    h' := CommitItem(cfg, serial, e, item.dest, out.hash, card, disk, ledger, h);
    var cleanup := DeleteSource(cfg, e.src, card);
    r := CopiedTo(Copied(e.name, ticks, e.size, out.bytes, Mirrors(cfg), cleanup));
  }

  // One item: adopt, or copy, verify and commit, then perhaps delete. The
  // process may die before it, too.
  method OffloadItem(cfg: Config, serial: string, item: PlannedCopy, card: Card, disk: Disk, ledger: Ledger, ghost h: Story)
    returns (r: Result, ghost h': Story)
    requires Records(h, ledger.Value())
    modifies card, disk, ledger`imported, ledger`jobs
    ensures Continues(h, h') && Records(h', ledger.Value())
    ensures EntersStep(cfg, item, r, Lookup(old(card.files), item.entry.src), disk.files, h, h')
    ensures Offloaded(cfg, serial, item, disk.faithful && card.reliable,
                      old(Now(card, disk, ledger)), Now(card, disk, ledger), r)
  {
    var dies: bool := *;
    if dies {
      return Crashed, h;
    }
    if !Known(ledger.imported, KeyOf(serial, item.entry)) {
      var adopted;
      adopted, h' := AdoptItem(cfg, serial, item, card, disk, ledger, h);
      if adopted.Some? {
        return adopted.value, h';
      }
    }
    r, h' := CopyItem(cfg, serial, item, card, disk, ledger, h);
  }

  /* ----- the whole run ----- */

  predicate SourceOk(plan: seq<PlannedCopy>, source: map<string, Bytes>) {
    && (forall i, j :: 0 <= i < j < |plan| ==> plan[i].entry.src != plan[j].entry.src)
    && (forall i :: 0 <= i < |plan| ==> plan[i].entry.src in source)
  }

  // Item `i` was the last of the first `k` to commit its key.
  predicate LastOfKey(serial: string, plan: seq<PlannedCopy>, at: seq<Option<string>>, k: nat, i: nat) {
    k <= |at| <= |plan| && i < k && at[i].Some?
    && forall j :: i < j < k && at[j].Some? ==> KeyOf(serial, plan[j].entry) != KeyOf(serial, plan[i].entry)
  }

  ghost predicate Recorded(rows: seq<Imported>, key: Key, dest: string) {
    exists r :: 0 <= r < |rows| && rows[r].key == key && rows[r].dest == dest
  }

  // The invariant of the loop: nothing written or removed but destinations of
  // items already handled; every committed file still holds its source; and the
  // ledger leads from a key to the file last committed under it.
  ghost predicate RunInv(cfg: Config, serial: string, plan: seq<PlannedCopy>, source: map<string, Bytes>,
                         start: map<string, Bytes>, files: map<string, Bytes>, rows: seq<Imported>, at: seq<Option<string>>) {
    && |at| <= |plan| && SourceOk(plan, source)
    && UniqueKeys(rows)
    && StartKept(start, files)
    && WrittenOnly(plan, start, files, |at|)
    && CommittedOk(cfg, plan, source, files, at)
    && RowsOk(serial, plan, rows, at)
  }

  predicate StartKept(start: map<string, Bytes>, files: map<string, Bytes>) {
    forall f :: f in start ==> f in files && files[f] == start[f]
  }

  predicate WrittenOnly(plan: seq<PlannedCopy>, start: map<string, Bytes>, files: map<string, Bytes>, k: nat) {
    k <= |plan| && forall f :: f in files && f !in start ==> exists i :: 0 <= i < k && plan[i].dest == f
  }

  predicate CommittedOk(cfg: Config, plan: seq<PlannedCopy>, source: map<string, Bytes>, files: map<string, Bytes>,
                        at: seq<Option<string>>)
    requires |at| <= |plan| && SourceOk(plan, source)
  {
    forall i :: 0 <= i < |at| && at[i].Some? ==>
      && at[i].value in files
      && (at[i].value == plan[i].dest || at[i].value == plan[i].entry.rendered)
      && (cfg.verify ==> files[at[i].value] == source[plan[i].entry.src])
  }

  ghost predicate RowsOk(serial: string, plan: seq<PlannedCopy>, rows: seq<Imported>, at: seq<Option<string>>)
    requires |at| <= |plan|
  {
    forall i: nat {:trigger LastOfKey(serial, plan, at, |at|, i)} :: LastOfKey(serial, plan, at, |at|, i) ==>
      Recorded(rows, KeyOf(serial, plan[i].entry), at[i].value)
  }

  lemma FilesKept(plan: seq<PlannedCopy>, start: map<string, Bytes>, files: map<string, Bytes>, files': map<string, Bytes>,
                  k: nat)
    requires k < |plan| && PlanFree(plan, start.Keys) && SameElsewhere(files, files', plan[k].dest)
    requires StartKept(start, files) && WrittenOnly(plan, start, files, k)
    ensures StartKept(files, files') && StartKept(start, files') && WrittenOnly(plan, start, files', k + 1)
  {
    var d := plan[k].dest;
    assert d !in files;
    forall f | f != d ensures (f in files <==> f in files') && (f in files ==> files'[f] == files[f]) {
      assert f in files - {d} <==> f in files' - {d};
      assert f in files ==> (files - {d})[f] == (files' - {d})[f];
    }
    assert 0 <= k < k + 1 && plan[k].dest == d;
    forall f | f in files' && f !in start ensures exists i :: 0 <= i < k + 1 && plan[i].dest == f {
      if f != d {
        var i :| 0 <= i < k && plan[i].dest == f;
        assert 0 <= i < k + 1 && plan[i].dest == f;
      }
    }
  }

  lemma RecordedKept(rows: seq<Imported>, key: Key, dest: string, other: Key, name: string, hash: Option<Digest>)
    requires UniqueKeys(rows) && Recorded(rows, key, dest) && other != key
    ensures Recorded(Upsert(rows, other, name, hash).0, key, dest)
  {
  }

  // No later item touches the file of an earlier one, whether that was copied
  // or adopted; each commit moves the row of its key and no other.
  lemma RunInvStep(cfg: Config, serial: string, plan: seq<PlannedCopy>, source: map<string, Bytes>, start: map<string, Bytes>,
                   files: map<string, Bytes>, files': map<string, Bytes>, rows: seq<Imported>, rows': seq<Imported>,
                   at: seq<Option<string>>, r: Result)
    requires PlanFree(plan, start.Keys) && SourceOk(plan, source) && |at| < |plan|
    requires RunInv(cfg, serial, plan, source, start, files, rows, at)
    requires ItemStep(cfg, serial, plan[|at|], Some(source[plan[|at|].entry.src]), r, files, files', rows, rows')
    ensures RunInv(cfg, serial, plan, source, start, files', rows',
                   at + [if Commits(r) then Some(CommitName(plan[|at|], r)) else None])
  {
    var name := if Commits(r) then Some(CommitName(plan[|at|], r)) else None;
    FilesKept(plan, start, files, files', |at|);
    CommittedStep(cfg, plan, source, files, files', at, name);
    RowsStep(serial, plan, rows, rows', at, name);
  }

  lemma RowsStep(serial: string, plan: seq<PlannedCopy>, rows: seq<Imported>, rows': seq<Imported>,
                 at: seq<Option<string>>, name: Option<string>)
    requires |at| < |plan| && UniqueKeys(rows) && RowsOk(serial, plan, rows, at)
    requires name.None? ==> rows' == rows
    requires name.Some? ==> exists hash :: rows' == Upsert(rows, KeyOf(serial, plan[|at|].entry), name.value, hash).0
    ensures UniqueKeys(rows') && RowsOk(serial, plan, rows', at + [name])
  {
    forall i: nat | LastOfKey(serial, plan, at + [name], |at| + 1, i)
      ensures Recorded(rows', KeyOf(serial, plan[i].entry), (at + [name])[i].value)
    {
      RecordsStep(serial, plan, rows, rows', at, at + [name], i, name);
    }
  }

  lemma CommittedStep(cfg: Config, plan: seq<PlannedCopy>, source: map<string, Bytes>, files: map<string, Bytes>,
                      files': map<string, Bytes>, at: seq<Option<string>>, name: Option<string>)
    requires |at| < |plan| && SourceOk(plan, source) && CommittedOk(cfg, plan, source, files, at) && StartKept(files, files')
    requires name.Some? ==> name.value in files' && (name.value == plan[|at|].dest || name.value == plan[|at|].entry.rendered)
                            && (cfg.verify ==> files'[name.value] == source[plan[|at|].entry.src])
    ensures CommittedOk(cfg, plan, source, files', at + [name])
  {
  }

  lemma RecordsStep(serial: string, plan: seq<PlannedCopy>, rows: seq<Imported>, rows': seq<Imported>,
                    at: seq<Option<string>>, at': seq<Option<string>>, i: nat, name: Option<string>)
    requires UniqueKeys(rows) && |at| < |plan| && at' == at + [name] && LastOfKey(serial, plan, at', |at'|, i)
    requires forall m: nat :: LastOfKey(serial, plan, at, |at|, m) ==> Recorded(rows, KeyOf(serial, plan[m].entry), at[m].value)
    requires name.None? ==> rows' == rows
    requires name.Some? ==> exists hash :: rows' == Upsert(rows, KeyOf(serial, plan[|at|].entry), name.value, hash).0
    ensures Recorded(rows', KeyOf(serial, plan[i].entry), at'[i].value)
  {
  }

  // What a run counts, kept by the loop.
  datatype Counters = Counters(copied: nat, adopted: nat, failed: nat, bytes: nat, queued: nat)

  predicate Counted(c: Counters, traces: seq<ItemTrace>, newJobs: int) {
    && c.copied + c.adopted + c.failed == |traces|
    && c.bytes == CopiedBytes(traces) && c.queued == newJobs
  }

  // Card sources disappear only after their item was copied and committed, and
  // never under Auto.
  ghost predicate OnlySafeDeletes(cfg: Config, plan: seq<PlannedCopy>, at: seq<Option<string>>,
                                  source: map<string, Bytes>, card: map<string, Bytes>) {
    && |at| <= |plan|
    && (forall f :: f in card ==> f in source && card[f] == source[f])
    && (forall f :: f in source && f !in card ==>
          cfg.deleteAfterVerify && Mode(cfg) != Auto
          && exists i :: 0 <= i < |at| && plan[i].entry.src == f && at[i] == Some(plan[i].dest))
  }

  lemma DeletesStep(cfg: Config, plan: seq<PlannedCopy>, at: seq<Option<string>>, at': seq<Option<string>>,
                    source: map<string, Bytes>, card: map<string, Bytes>, card': map<string, Bytes>, name: Option<string>)
    requires OnlySafeDeletes(cfg, plan, at, source, card) && |at| < |plan| && at' == at + [name]
    requires card' == card
             || (card' == card - {plan[|at|].entry.src} && name == Some(plan[|at|].dest)
                 && cfg.deleteAfterVerify && Mode(cfg) != Auto)
    ensures OnlySafeDeletes(cfg, plan, at', source, card')
  {
  }
}
