/**
  Crashes on sound storage: a card is put in again and again, each run may die
  anywhere between two effects, until one completes. When that leaves exactly one
  file and one row per source, and why it otherwise may leave two files.
 */
module SdRecovery {
  import opened Wrappers
  import opened Tables
  import opened Naming
  import opened Transfer
  import opened RunTrace
  import opened Storage
  import opened SdOffload
  import opened SdRun

  // What is on the card, under which settings it is offloaded, the destination
  // and ledger before the first run, and the files to be brought over, in listing
  // order.
  datatype Footage = Footage(cfg: Config, serial: string, listing: seq<Entry>, source: map<string, Bytes>, start: Snap,
                             wanted: seq<Entry>)

  // Their canonical names are distinct and free, their keys are distinct, and the
  // listing gives their sizes.
  ghost predicate FootageOk(f: Footage) {
    var w := f.wanted;
    && UniqueKeys(f.start.rows)
    && (forall i {:trigger ToBring(f, i)} :: 0 <= i < |w| ==> ToBring(f, i))
    && (forall i, j {:trigger w[i].rendered, w[j].rendered} :: 0 <= i < j < |w| ==> w[i].rendered != w[j].rendered)
    && (forall i, j {:trigger KeyOf(f.serial, w[i]), KeyOf(f.serial, w[j])} :: 0 <= i < j < |w| ==>
          KeyOf(f.serial, w[i]) != KeyOf(f.serial, w[j]))
    && (forall i {:trigger w[i].rendered} {:trigger w[i].src} :: 0 <= i < |w| ==>
          w[i].rendered !in f.start.files && w[i].src in f.source && |f.source[w[i].src]| == w[i].size)
  }

  predicate ToBring(f: Footage, i: nat)
    requires i < |f.wanted|
  {
    Wanted(f.cfg, f.wanted[i]) && !Known(f.start.rows, KeyOf(f.serial, f.wanted[i]))
  }

  predicate Listed(f: Footage) {
    f.wanted == Kept(f.listing, f.cfg, f.start.rows, f.serial)
  }

  /* ----- histories ----- */

  function End(s: Session): Snap {
    if s.snaps == [] then Snap(map[], []) else s.snaps[|s.snaps| - 1]
  }

  // A session that begins at `a`: it plans what the ledger does not know.
  ghost predicate BeginsAt(f: Footage, a: Snap, s: Session) {
    && Entries(s.plan) == Kept(f.listing, f.cfg, a.rows, f.serial) && PlanOk(s.plan, a.files.Keys)
    && SessionOk(f.cfg, f.serial, f.source, s) && s.snaps[0] == a
  }

  function Before(f: Footage, hs: seq<Session>, i: nat): Snap
    requires i <= |hs|
  {
    if i == 0 then f.start else End(hs[i - 1])
  }

  // Session `i` begins where the one before it has ended.
  ghost predicate SessionIs(f: Footage, hs: seq<Session>, i: nat)
    requires i < |hs|
  {
    BeginsAt(f, Before(f, hs, i), hs[i])
  }

  ghost predicate HistoryOk(f: Footage, hs: seq<Session>) {
    forall i {:trigger SessionIs(f, hs, i)} :: 0 <= i < |hs| ==> SessionIs(f, hs, i)
  }

  lemma HistoryGrows(f: Footage, hs: seq<Session>, s: Session)
    requires HistoryOk(f, hs) && BeginsAt(f, Before(f, hs, |hs|), s)
    ensures HistoryOk(f, hs + [s]) && Before(f, hs + [s], |hs| + 1) == End(s)
  {
    forall i | 0 <= i < |hs + [s]| ensures SessionIs(f, hs + [s], i) {
      assert Before(f, hs + [s], i) == Before(f, hs, i);
      assert i < |hs| ==> SessionIs(f, hs, i);
    }
  }

  /* ----- the states in between ----- */

  // The names taken once the first `n` files are in place.
  function Taken(f: Footage, n: nat): set<string>
    requires n <= |f.wanted|
  {
    f.start.files.Keys + set m | 0 <= m < n :: f.wanted[m].rendered
  }

  // The first `n` files are in place beside what was there before, and no others.
  predicate InPlace(f: Footage, n: nat, files: map<string, Bytes>) {
    && n <= |f.wanted| && files.Keys == Taken(f, n)
    && (forall m :: 0 <= m < n ==> f.wanted[m].src in f.source && Lookup(files, f.wanted[m].rendered) == Some(f.source[f.wanted[m].src]))
    && (forall x :: x in f.start.files ==> Lookup(files, x) == Some(f.start.files[x]))
  }

  // The first `k` files are in place and known, the rest unknown; `left` tells
  // that a crash has left a complete copy of the next one.
  ghost predicate Upto(f: Footage, k: nat, left: bool, s: Snap) {
    var w := f.wanted;
    && FootageOk(f) && k <= |w| && (left ==> k < |w|)
    && InPlace(f, k + One(left), s.files)
    && UniqueKeys(s.rows)
    && (forall key {:trigger KnownRight(f, k, s.rows, key)} :: KnownRight(f, k, s.rows, key))
    && (forall i :: 0 <= i < k ==> Recorded(s.rows, KeyOf(f.serial, w[i]), w[i].rendered))
  }

  // The ledger has gained exactly the keys of the first `k` files.
  predicate KnownRight(f: Footage, k: nat, rows: seq<Imported>, key: Key) {
    Known(rows, key) <==> Known(f.start.rows, key) || KeyBelow(f, k, key)
  }

  predicate KeyBelow(f: Footage, k: nat, key: Key) {
    exists i :: 0 <= i < k && i < |f.wanted| && KeyOf(f.serial, f.wanted[i]) == key
  }

  lemma StartsUpto(f: Footage)
    requires FootageOk(f)
    ensures Upto(f, 0, false, f.start)
  {
    assert forall key :: KnownRight(f, 0, f.start.rows, key);
  }

  lemma KeptSnoc(entries: seq<Entry>, e: Entry, cfg: Config, rows: seq<Imported>, serial: string)
    ensures Kept(entries + [e], cfg, rows, serial)
            == Kept(entries, cfg, rows, serial) + if Wanted(cfg, e) && !Known(rows, KeyOf(serial, e)) then [e] else []
  {
    assert (entries + [e])[..|entries|] == entries;
  }

  lemma {:induction false} KeptAgain(entries: seq<Entry>, cfg: Config, rows: seq<Imported>, rows': seq<Imported>, serial: string)
    requires StillKnown(rows, rows')
    ensures Kept(entries, cfg, rows', serial) == Kept(Kept(entries, cfg, rows, serial), cfg, rows', serial)
  {
    if entries != [] {
      var init, e := entries[..|entries| - 1], entries[|entries| - 1];
      assert entries == init + [e];
      KeptAgain(init, cfg, rows, rows', serial);
      KeptSnoc(init, e, cfg, rows, serial);
      KeptSnoc(init, e, cfg, rows', serial);
      var once := Kept(init, cfg, rows, serial);
      if Wanted(cfg, e) && !Known(rows, KeyOf(serial, e)) {
        KeptSnoc(once, e, cfg, rows', serial);
        assert Kept(entries, cfg, rows, serial) == once + [e];
      } else {
        assert Kept(entries, cfg, rows, serial) == once;
      }
    }
  }

  // Of `w`, all wanted, exactly the first `k` are known.
  predicate KnownFirst(w: seq<Entry>, cfg: Config, rows: seq<Imported>, serial: string, k: nat, i: nat)
    requires i < |w|
  {
    Wanted(cfg, w[i]) && (Known(rows, KeyOf(serial, w[i])) <==> i < k)
  }

  ghost predicate AllKnownFirst(w: seq<Entry>, cfg: Config, rows: seq<Imported>, serial: string, k: nat) {
    forall i {:trigger KnownFirst(w, cfg, rows, serial, k, i)} :: 0 <= i < |w| ==> KnownFirst(w, cfg, rows, serial, k, i)
  }

  lemma KnownFirstInit(w: seq<Entry>, cfg: Config, rows: seq<Imported>, serial: string, k: nat, n: nat)
    requires |w| == n + 1 && AllKnownFirst(w, cfg, rows, serial, k)
    ensures AllKnownFirst(w[..n], cfg, rows, serial, Least(k, n)) && KnownFirst(w, cfg, rows, serial, k, n)
  {
    forall i | 0 <= i < n ensures KnownFirst(w[..n], cfg, rows, serial, Least(k, n), i) {
      assert KnownFirst(w, cfg, rows, serial, k, i);
    }
  }

  function Least(a: nat, b: nat): nat {
    if a <= b then a else b
  }

  lemma RestSnoc(init: seq<Entry>, e: Entry, k: nat)
    requires k <= |init| + 1
    ensures (init + [e])[k..] == init[Least(k, |init|)..] + if k <= |init| then [e] else []
  {
  }

  lemma {:induction false} KeptRest(w: seq<Entry>, cfg: Config, rows: seq<Imported>, serial: string, k: nat)
    requires k <= |w| && AllKnownFirst(w, cfg, rows, serial, k)
    ensures Kept(w, cfg, rows, serial) == w[k..]
  {
    if w != [] {
      var n := |w| - 1;
      var init, e := w[..n], w[n];
      assert w == init + [e];
      KnownFirstInit(w, cfg, rows, serial, k, n);
      KeptRest(init, cfg, rows, serial, Least(k, n));
      KeptSnoc(init, e, cfg, rows, serial);
      RestSnoc(init, e, k);
    }
  }

  lemma KnownBelow(f: Footage, k: nat, left: bool, s: Snap, i: nat)
    requires Upto(f, k, left, s) && i < |f.wanted|
    ensures Wanted(f.cfg, f.wanted[i]) && (Known(s.rows, KeyOf(f.serial, f.wanted[i])) <==> i < k)
  {
    assert ToBring(f, i) && KnownRight(f, k, s.rows, KeyOf(f.serial, f.wanted[i]));
  }

  // What the next run plans.
  lemma PlansTheRest(f: Footage, k: nat, left: bool, s: Snap)
    requires Upto(f, k, left, s) && Listed(f)
    ensures Kept(f.listing, f.cfg, s.rows, f.serial) == f.wanted[k..]
  {
    forall key ensures Known(f.start.rows, key) ==> Known(s.rows, key) {
      assert KnownRight(f, k, s.rows, key);
    }
    KeptAgain(f.listing, f.cfg, f.start.rows, s.rows, f.serial);
    forall i | 0 <= i < |f.wanted| ensures KnownFirst(f.wanted, f.cfg, s.rows, f.serial, k, i) {
      KnownBelow(f, k, left, s, i);
    }
    KeptRest(f.wanted, f.cfg, s.rows, f.serial, k);
  }

  /* ----- where a run puts its files ----- */

  // A plan made at such a state.
  ghost predicate PlanAt(f: Footage, k: nat, left: bool, plan: seq<PlannedCopy>) {
    && FootageOk(f) && k <= |f.wanted| && (left ==> k < |f.wanted|)
    && Entries(plan) == f.wanted[k..] && PlanOk(plan, Taken(f, k + One(left)))
  }

  lemma PlanEntry(f: Footage, k: nat, left: bool, plan: seq<PlannedCopy>, i: nat)
    requires PlanAt(f, k, left, plan) && i < |plan|
    ensures |plan| == |f.wanted| - k && plan[i].entry == f.wanted[k + i]
  {
    assert Entries(plan)[i] == f.wanted[k..][i];
  }

  // The first item of a plan made beside a left-over copy goes to the first free
  // number; any other item goes to its canonical name unless the first took that.
  lemma {:induction false} DestIs(f: Footage, k: nat, left: bool, plan: seq<PlannedCopy>, i: nat)
    requires PlanAt(f, k, left, plan) && i < |plan|
    requires left ==> forall m :: 1 <= m <= i ==> plan[0].dest != plan[m].entry.rendered
    ensures if left && i == 0 then Resolves(Taken(f, k + 1), plan[0].entry.rendered, plan[0].dest)
            else plan[i].dest == plan[i].entry.rendered
    decreases i
  {
    PlanEntry(f, k, left, plan, i);
    var taken := Taken(f, k + One(left)) + Dests(plan[..i]);
    assert Resolved(plan, Taken(f, k + One(left)), i);
    if left && i == 0 {
      assert Dests(plan[..0]) == {};
      assert taken == Taken(f, k + 1);
    } else {
      forall q | q in plan[..i] ensures q.dest != plan[i].entry.rendered {
        var m :| 0 <= m < i && plan[m] == q;
        PlanEntry(f, k, left, plan, m);
        DestIs(f, k, left, plan, m);
      }
      assert plan[i].entry.rendered !in taken;
    }
  }

  // File `j` is listed after file `i`, and its canonical name is the first free
  // number of file `i`'s once everything up to `i` is in place.
  predicate Bumps(f: Footage, i: nat, j: nat) {
    i < j < |f.wanted| && Resolves(Taken(f, i + 1), f.wanted[i].rendered, f.wanted[j].rendered)
  }

  predicate NoBump(f: Footage) {
    forall i, j :: 0 <= i < j < |f.wanted| ==> !Bumps(f, i, j)
  }

  // In a plan, item `m` is where its canonical name says (a left-over copy of
  // the first item aside).
  predicate CanonicalUpTo(left: bool, plan: seq<PlannedCopy>, n: nat) {
    n <= |plan| && forall m :: 0 <= m < n && (m > 0 || !left) ==> plan[m].dest == plan[m].entry.rendered
  }

  lemma CanonicalPlan(f: Footage, k: nat, left: bool, plan: seq<PlannedCopy>, n: nat)
    requires PlanAt(f, k, left, plan) && n <= |plan|
    requires left ==> forall m :: 1 <= m < n ==> plan[0].dest != plan[m].entry.rendered
    ensures CanonicalUpTo(left, plan, n)
  {
    forall m | 0 <= m < n && (m > 0 || !left) ensures plan[m].dest == plan[m].entry.rendered {
      DestIs(f, k, left, plan, m);
    }
  }

  lemma NoBumpCanonical(f: Footage, k: nat, left: bool, plan: seq<PlannedCopy>)
    requires PlanAt(f, k, left, plan) && NoBump(f)
    ensures CanonicalUpTo(left, plan, |plan|)
  {
    if left && plan != [] {
      DestIs(f, k, left, plan, 0);
      forall m | 1 <= m < |plan| ensures plan[0].dest != plan[m].entry.rendered {
        PlanEntry(f, k, left, plan, 0);
        PlanEntry(f, k, left, plan, m);
        assert !Bumps(f, k, k + m);
      }
    }
    CanonicalPlan(f, k, left, plan, |plan|);
  }

  /* ----- one item ----- */

  lemma OneMoreInPlace(f: Footage, k: nat, files: map<string, Bytes>)
    requires FootageOk(f) && InPlace(f, k, files) && k < |f.wanted|
    ensures f.wanted[k].rendered !in files && f.wanted[k].src in f.source
    ensures InPlace(f, k + 1, files[f.wanted[k].rendered := f.source[f.wanted[k].src]])
  {
    assert Taken(f, k + 1) == Taken(f, k) + {f.wanted[k].rendered};
  }

  // Adding one name with the bytes of the source to the files.
  lemma OneFileMore(files: map<string, Bytes>, files': map<string, Bytes>, d: string, b: Bytes)
    requires SameElsewhere(files, files', d) && Lookup(files', d) == Some(b)
    ensures files' == files[d := b]
  {
    SameButOne(files, files', d);
  }

  // The files after item `k`, planned at its canonical name or left over there.
  lemma FilesStep(f: Footage, k: nat, left: bool, item: PlannedCopy, r: Result, a: Snap, b: Snap)
    requires Upto(f, k, left, a) && k < |f.wanted| && item.entry == f.wanted[k]
    requires !left ==> item.dest == item.entry.rendered
    requires StepOk(f.cfg, f.serial, f.source, item, r, a, b)
    ensures !r.Crashed? ==> Commits(r) && CommitName(item, r) == item.entry.rendered && InPlace(f, k + 1, b.files)
    ensures r.Crashed? ==> b.files == a.files || (!left && InPlace(f, k + 1, b.files))
  {
    KnownBelow(f, k, left, a, k);
    var source := f.source[item.entry.src];
    if left {
      assert Leftover(item, Some(source), a.files);
    } else {
      OneMoreInPlace(f, k, a.files);
      if b.files != a.files {
        OneFileMore(a.files, b.files, item.dest, source);
      }
    }
  }

  lemma RowsAfter(f: Footage, k: nat, k': nat, left: bool, a: Snap, hash: Option<Digest>, files: map<string, Bytes>)
    requires Upto(f, k, left, a) && k < |f.wanted| && k' == k + 1 && InPlace(f, k', files)
    ensures Upto(f, k', false, Snap(files, Upsert(a.rows, KeyOf(f.serial, f.wanted[k]), f.wanted[k].rendered, hash).0))
  {
    var w := f.wanted;
    var (rows, id) := Upsert(a.rows, KeyOf(f.serial, w[k]), w[k].rendered, hash);
    forall key {:trigger KnownRight(f, k', rows, key)} ensures KnownRight(f, k', rows, key) {
      assert KnownRight(f, k, a.rows, key);
      UpsertFinds(a.rows, KeyOf(f.serial, w[k]), w[k].rendered, hash, key);
      assert KeyBelow(f, k', key) <==> KeyBelow(f, k, key) || key == KeyOf(f.serial, w[k]);
    }
    forall i | 0 <= i < k' ensures Recorded(rows, KeyOf(f.serial, w[i]), w[i].rendered) {
      if i < k {
        RecordedKept(a.rows, KeyOf(f.serial, w[i]), w[i].rendered, KeyOf(f.serial, w[k]), w[k].rendered, hash);
      } else {
        assert rows[id].key == KeyOf(f.serial, w[k]) && rows[id].dest == w[k].rendered;
      }
    }
  }

  lemma CommitUpto(f: Footage, k: nat, k': nat, left: bool, item: PlannedCopy, r: Result, a: Snap, b: Snap)
    requires Upto(f, k, left, a) && k < |f.wanted| && k' == k + 1 && item.entry == f.wanted[k]
    requires !left ==> item.dest == item.entry.rendered
    requires StepOk(f.cfg, f.serial, f.source, item, r, a, b) && !r.Crashed?
    ensures Upto(f, k', false, b)
  {
    FilesStep(f, k, left, item, r, a, b);
    var hash :| b.rows == Upsert(a.rows, KeyOf(f.serial, item.entry), CommitName(item, r), hash).0;
    RowsAfter(f, k, k', left, a, hash, b.files);
  }

  lemma CrashUpto(f: Footage, k: nat, left: bool, item: PlannedCopy, a: Snap, b: Snap) returns (left': bool)
    requires Upto(f, k, left, a) && k < |f.wanted| && item.entry == f.wanted[k]
    requires !left ==> item.dest == item.entry.rendered
    requires StepOk(f.cfg, f.serial, f.source, item, Crashed, a, b)
    ensures Upto(f, k, left', b)
  {
    FilesStep(f, k, left, item, Crashed, a, b);
    assert b.rows == a.rows;
    left' := if b.files == a.files then left else true;
  }

  /* ----- one session ----- */

  // A session that begins at such a state.
  ghost predicate SessionAt(f: Footage, k: nat, left: bool, s: Session) {
    && PlanAt(f, k, left, s.plan) && SessionOk(f.cfg, f.serial, f.source, s) && Upto(f, k, left, s.snaps[0])
  }

  lemma BeginsUpto(f: Footage, k: nat, left: bool, a: Snap, s: Session)
    requires Upto(f, k, left, a) && Listed(f) && BeginsAt(f, a, s)
    ensures SessionAt(f, k, left, s)
  {
    PlansTheRest(f, k, left, a);
  }

  // Item `i` of a session, at the `m`-th wanted file.
  lemma ItemCommits(f: Footage, k: nat, left: bool, s: Session, i: nat, m: nat, m': nat, now: bool)
    requires PlanAt(f, k, left, s.plan) && SessionOk(f.cfg, f.serial, f.source, s)
    requires i < |s.results| && !s.results[i].Crashed? && m == k + i && m' == m + 1 && Upto(f, m, now, s.snaps[i])
    requires !now ==> s.plan[i].dest == s.plan[i].entry.rendered
    ensures Upto(f, m', false, s.snaps[i + 1])
  {
    PlanEntry(f, k, left, s.plan, i);
    assert StepAt(f.cfg, f.serial, f.source, s, i);
    CommitUpto(f, m, m', now, s.plan[i], s.results[i], s.snaps[i], s.snaps[i + 1]);
  }

  lemma ItemCrashes(f: Footage, k: nat, left: bool, s: Session, i: nat, m: nat, now: bool) returns (left': bool)
    requires PlanAt(f, k, left, s.plan) && SessionOk(f.cfg, f.serial, f.source, s)
    requires i < |s.results| && s.results[i].Crashed? && m == k + i && Upto(f, m, now, s.snaps[i])
    requires !now ==> s.plan[i].dest == s.plan[i].entry.rendered
    ensures Upto(f, m, left', s.snaps[i + 1])
  {
    PlanEntry(f, k, left, s.plan, i);
    assert StepAt(f.cfg, f.serial, f.source, s, i);
    left' := CrashUpto(f, m, now, s.plan[i], s.snaps[i], s.snaps[i + 1]);
  }

  lemma {:induction false} SessionKeeps(f: Footage, k: nat, left: bool, s: Session, n: nat, m: nat)
    requires SessionAt(f, k, left, s) && n <= |s.results| && CanonicalUpTo(left, s.plan, n) && m == k + n
    requires forall i :: 0 <= i < n ==> !s.results[i].Crashed?
    ensures Upto(f, m, left && n == 0, s.snaps[n])
  {
    if n > 0 {
      SessionKeeps(f, k, left, s, n - 1, m - 1);
      ItemCommits(f, k, left, s, n - 1, m - 1, m, left && n - 1 == 0);
    }
  }

  lemma SessionEnds(f: Footage, k: nat, left: bool, s: Session) returns (k': nat, left': bool)
    requires SessionAt(f, k, left, s) && NoBump(f)
    ensures Upto(f, k', left', End(s))
    ensures Completes(s) ==> k' == |f.wanted| && !left'
  {
    NoBumpCanonical(f, k, left, s.plan);
    PlanLength(f, k, left, s.plan);
    var n := |s.results|;
    if n > 0 && s.results[n - 1].Crashed? {
      k' := k + (n - 1);
      SessionKeeps(f, k, left, s, n - 1, k');
      left' := ItemCrashes(f, k, left, s, n - 1, k', left && n - 1 == 0);
    } else {
      k', left' := k + n, left && n == 0;
      SessionKeeps(f, k, left, s, n, k');
    }
  }

  lemma PlanLength(f: Footage, k: nat, left: bool, plan: seq<PlannedCopy>)
    requires PlanAt(f, k, left, plan)
    ensures |plan| == |f.wanted| - k && (plan == [] ==> !left)
  {
    assert |Entries(plan)| == |plan|;
  }

  /* ----- all of them ----- */

  // Any number of runs, whole or cut short, leave every canonical name free or
  // with the whole source, and the ledger knows exactly a first part of the list.
  lemma {:induction false} HistoryKeeps(f: Footage, hs: seq<Session>) returns (k: nat, left: bool)
    requires FootageOk(f) && Listed(f) && NoBump(f) && HistoryOk(f, hs)
    ensures Upto(f, k, left, Before(f, hs, |hs|))
    ensures hs != [] && Completes(hs[|hs| - 1]) ==> k == |f.wanted| && !left
    decreases |hs|
  {
    if hs == [] {
      StartsUpto(f);
      k, left := 0, false;
    } else {
      var n := |hs| - 1;
      forall i | 0 <= i < n ensures SessionIs(f, hs[..n], i) {
        assert SessionIs(f, hs, i);
      }
      k, left := HistoryKeeps(f, hs[..n]);
      assert SessionIs(f, hs, n);
      BeginsUpto(f, k, left, Before(f, hs, n), hs[n]);
      k, left := SessionEnds(f, k, left, hs[n]);
    }
  }

  // One file and one row for each source: its own bytes, at its canonical name,
  // and nothing besides.
  ghost predicate Recovered(f: Footage, s: Snap) {
    var w := f.wanted;
    && s.files.Keys == Taken(f, |w|)
    && (forall x :: x in f.start.files ==> Lookup(s.files, x) == Some(f.start.files[x]))
    && forall i :: 0 <= i < |w| ==>
         && w[i].src in f.source && Lookup(s.files, w[i].rendered) == Some(f.source[w[i].src])
         && OnlyRow(s.rows, KeyOf(f.serial, w[i]), w[i].rendered)
  }

  ghost predicate OnlyRow(rows: seq<Imported>, key: Key, dest: string) {
    exists r :: 0 <= r < |rows| && rows[r].key == key && rows[r].dest == dest
                && forall q :: 0 <= q < |rows| && rows[q].key == key ==> q == r
  }

  lemma RecoversAlways(f: Footage, hs: seq<Session>)
    requires FootageOk(f) && Listed(f) && NoBump(f) && HistoryOk(f, hs) && hs != [] && Completes(hs[|hs| - 1])
    ensures Recovered(f, End(hs[|hs| - 1]))
  {
    var k, left := HistoryKeeps(f, hs);
    var s := End(hs[|hs| - 1]);
    forall i | 0 <= i < |f.wanted| ensures OnlyRow(s.rows, KeyOf(f.serial, f.wanted[i]), f.wanted[i].rendered) {
      assert Recorded(s.rows, KeyOf(f.serial, f.wanted[i]), f.wanted[i].rendered);
    }
  }

  /* ----- why the condition is needed ----- */

  // What the code does with an item on sound storage: adopt a left-over copy, or
  // copy and commit.
  function DoItem(f: Footage, item: PlannedCopy, a: Snap): (Result, Snap)
    requires item.entry.src in f.source
  {
    var e, source := item.entry, f.source[item.entry.src];
    var key := KeyOf(f.serial, e);
    if Leftover(item, Some(source), a.files) && !Known(a.rows, key) then
      (AdoptedAt(Adopted(e.name, Mirrors(f.cfg))), Snap(a.files, Upsert(a.rows, key, e.rendered, Some(Digest(source))).0))
    else
      (CopiedTo(Copied(e.name, [], e.size, |source|, Mirrors(f.cfg), NotAttempted)),
       Snap(a.files[item.dest := source], Upsert(a.rows, key, item.dest, Some(Digest(source))).0))
  }

  lemma DoItemSteps(f: Footage, item: PlannedCopy, a: Snap)
    requires item.entry.src in f.source
    ensures var (r, b) := DoItem(f, item, a); StepOk(f.cfg, f.serial, f.source, item, r, a, b) && Commits(r)
  {
    var (r, b) := DoItem(f, item, a);
    assert b.rows == Upsert(a.rows, KeyOf(f.serial, item.entry), CommitName(item, r), Some(Digest(f.source[item.entry.src]))).0;
  }

  // ... and the crash between the copy and the commit.
  lemma CrashSteps(f: Footage, item: PlannedCopy, a: Snap)
    requires item.entry.src in f.source && item.entry.rendered !in a.files
    ensures StepOk(f.cfg, f.serial, f.source, item, Crashed, a, Snap(a.files[item.dest := f.source[item.entry.src]], a.rows))
  {
  }

  predicate Sourced(f: Footage, plan: seq<PlannedCopy>) {
    forall i :: 0 <= i < |plan| ==> plan[i].entry.src in f.source
  }

  // The first `n` items of a plan, one after the other.
  lemma {:induction false} DoItems(f: Footage, plan: seq<PlannedCopy>, a: Snap, n: nat) returns (s: Session)
    requires n <= |plan| && Sourced(f, plan)
    ensures s.plan == plan && |s.results| == n && SessionOk(f.cfg, f.serial, f.source, s) && s.snaps[0] == a
    ensures forall i :: 0 <= i < n ==> !s.results[i].Crashed?
  {
    if n == 0 {
      s := Session(plan, [], [a]);
    } else {
      var t := DoItems(f, plan, a, n - 1);
      var (r, b) := DoItem(f, plan[n - 1], t.snaps[n - 1]);
      DoItemSteps(f, plan[n - 1], t.snaps[n - 1]);
      s := MoreSteps(f, t, r, b);
    }
  }

  lemma MoreSteps(f: Footage, s: Session, r: Result, b: Snap) returns (s': Session)
    requires SessionOk(f.cfg, f.serial, f.source, s) && |s.results| < |s.plan|
    requires forall i :: 0 <= i < |s.results| ==> !s.results[i].Crashed?
    requires StepOk(f.cfg, f.serial, f.source, s.plan[|s.results|], r, s.snaps[|s.results|], b)
    ensures s' == Session(s.plan, s.results + [r], s.snaps + [b]) && SessionOk(f.cfg, f.serial, f.source, s')
  {
    s' := Session(s.plan, s.results + [r], s.snaps + [b]);
    forall i | 0 <= i < |s'.results| ensures StepAt(f.cfg, f.serial, f.source, s', i) {
      if i < |s.results| {
        assert StepAt(f.cfg, f.serial, f.source, s, i);
      }
    }
  }

  lemma {:induction false} SomePlan(es: seq<Entry>, onDisk: set<string>) returns (plan: seq<PlannedCopy>)
    ensures Entries(plan) == es && PlanOk(plan, onDisk)
  {
    if es == [] {
      plan := [];
    } else {
      var n := |es| - 1;
      plan := SomePlan(es[..n], onDisk);
      plan := OneMorePlanned(plan, onDisk, es[n]);
      assert es == es[..n] + [es[n]];
    }
  }

  lemma OneMorePlanned(plan: seq<PlannedCopy>, onDisk: set<string>, e: Entry) returns (longer: seq<PlannedCopy>)
    requires PlanOk(plan, onDisk)
    ensures Entries(longer) == Entries(plan) + [e] && PlanOk(longer, onDisk)
  {
    var dest := ResolvesSome(onDisk + Dests(plan), e.rendered);
    PlanExtends(plan, onDisk, PlannedCopy(e, dest));
    DestsExtend(plan, PlannedCopy(e, dest));
    longer := plan + [PlannedCopy(e, dest)];
  }

  // A plan for what is left, at such a state.
  lemma PlanFor(f: Footage, k: nat, left: bool, a: Snap) returns (plan: seq<PlannedCopy>)
    requires Listed(f) && Upto(f, k, left, a)
    ensures PlanAt(f, k, left, plan) && Sourced(f, plan) && Entries(plan) == Kept(f.listing, f.cfg, a.rows, f.serial)
    ensures PlanOk(plan, a.files.Keys) && |plan| == |f.wanted| - k
  {
    PlansTheRest(f, k, left, a);
    plan := SomePlan(f.wanted[k..], a.files.Keys);
    forall i | 0 <= i < |plan| ensures plan[i].entry.src in f.source {
      PlanEntry(f, k, left, plan, i);
    }
    PlanLength(f, k, left, plan);
  }

  // The first crash: file `i` is copied but not committed.
  lemma FirstCrash(f: Footage, i: nat) returns (s: Session)
    requires FootageOk(f) && Listed(f) && i < |f.wanted|
    ensures BeginsAt(f, f.start, s) && Upto(f, i, true, End(s))
  {
    StartsUpto(f);
    var plan := PlanFor(f, 0, false, f.start);
    CanonicalPlan(f, 0, false, plan, i);
    DestIs(f, 0, false, plan, i);
    PlanEntry(f, 0, false, plan, i);
    var t := DoItems(f, plan, f.start, i);
    SessionKeeps(f, 0, false, t, i, i);
    var a := t.snaps[i];
    OneMoreInPlace(f, i, a.files);
    CrashSteps(f, plan[i], a);
    var b := Snap(a.files[plan[i].dest := f.source[plan[i].entry.src]], a.rows);
    s := MoreSteps(f, t, Crashed, b);
  }

  // Since that crash: the numbered name of file `i` is the canonical name of `j`.
  lemma BumpedPlan(f: Footage, i: nat, j: nat, plan: seq<PlannedCopy>)
    requires PlanAt(f, i, true, plan) && Bumps(f, i, j)
    ensures j - i < |plan| && plan[0].dest == f.wanted[j].rendered && CanonicalUpTo(true, plan, j - i)
  {
    PlanLength(f, i, true, plan);
    PlanEntry(f, i, true, plan, 0);
    DestIs(f, i, true, plan, 0);
    ResolvesUnique(Taken(f, i + 1), f.wanted[i].rendered, plan[0].dest, f.wanted[j].rendered);
    forall m | 1 <= m < j - i ensures plan[0].dest != plan[m].entry.rendered {
      PlanEntry(f, i, true, plan, m);
    }
    CanonicalPlan(f, i, true, plan, j - i);
  }

  // Such a plan, as far as file `j`, which is item `d`.
  predicate BumpedAt(f: Footage, i: nat, j: nat, plan: seq<PlannedCopy>, d: nat) {
    i < j < |f.wanted| && d == j - i < |plan| && plan[0].dest == f.wanted[j].rendered && CanonicalUpTo(true, plan, d)
  }

  lemma ReservedIs(f: Footage, i: nat, j: nat, plan: seq<PlannedCopy>, d: nat, m: nat)
    requires PlanAt(f, i, true, plan) && BumpedAt(f, i, j, plan, d) && m < d
    ensures plan[m].dest == f.wanted[if m == 0 then j else i + m].rendered
  {
    PlanEntry(f, i, true, plan, m);
  }

  // What the planner had reserved before it came to file `j`.
  lemma ReservedBefore(f: Footage, i: nat, j: nat, plan: seq<PlannedCopy>, d: nat)
    requires PlanAt(f, i, true, plan) && BumpedAt(f, i, j, plan, d)
    ensures Taken(f, i + 1) + Dests(plan[..d]) == Taken(f, j + 1)
  {
    forall x | x in Dests(plan[..d]) ensures x in Taken(f, j + 1) {
      var m: nat :| m < d && plan[m].dest == x;
      ReservedIs(f, i, j, plan, d, m);
    }
    forall m | i < m < j + 1 ensures f.wanted[m].rendered in Dests(plan[..d]) {
      var q := if m == j then 0 else m - i;
      ReservedIs(f, i, j, plan, d, q);
      assert plan[q] in plan[..d];
    }
  }

  lemma ResolvedIn(plan: seq<PlannedCopy>, onDisk: set<string>, i: nat, taken: set<string>)
    requires PlanOk(plan, onDisk) && i < |plan| && onDisk + Dests(plan[..i]) == taken
    ensures Resolves(taken, plan[i].entry.rendered, plan[i].dest)
  {
    assert Resolved(plan, onDisk, i);
  }

  // So file `j` is bumped to a name that is free beside all files up to `j`.
  lemma BumpedDest(f: Footage, i: nat, j: nat, plan: seq<PlannedCopy>, d: nat)
    requires PlanAt(f, i, true, plan) && BumpedAt(f, i, j, plan, d)
    ensures plan[d].entry == f.wanted[j] && Resolves(Taken(f, j + 1), f.wanted[j].rendered, plan[d].dest)
  {
    PlanEntry(f, i, true, plan, d);
    ReservedBefore(f, i, j, plan, d);
    ResolvedIn(plan, Taken(f, i + 1), d, Taken(f, j + 1));
  }

  // The last file, in listing order, that can be bumped.
  lemma {:induction false} LastBump(f: Footage, i: nat, j: nat) returns (i': nat, j': nat)
    requires Bumps(f, i, j)
    ensures Bumps(f, i', j') && forall m, n :: 0 <= m < n < |f.wanted| && n > j' ==> !Bumps(f, m, n)
    decreases |f.wanted| - j
  {
    if m: nat, n: nat :| m < n < |f.wanted| && n > j && Bumps(f, m, n) {
      i', j' := LastBump(f, m, n);
    } else {
      i', j' := i, j;
    }
  }

  // If no later file can be bumped, that name is taken by no other file.
  lemma NameAside(f: Footage, j: nat, other: string)
    requires j < |f.wanted| && Resolves(Taken(f, j + 1), f.wanted[j].rendered, other)
    requires forall m, n :: 0 <= m < n < |f.wanted| && n > j ==> !Bumps(f, m, n)
    ensures other !in Taken(f, |f.wanted|)
  {
    assert f.wanted[j].rendered in Taken(f, j + 1) && other !in Taken(f, j + 1);
    forall m | 0 <= m < |f.wanted| ensures f.wanted[m].rendered != other {
      if m > j {
        assert !Bumps(f, j, m);
      } else {
        assert f.wanted[m].rendered in Taken(f, j + 1);
      }
    }
  }

  // `s` has left `b` behind, and a copy of file `j` under the name `other`.
  ghost predicate LeavesAside(f: Footage, j: nat, s: Session, b: Snap, other: string) {
    && Upto(f, j, false, b) && j < |f.wanted| && f.wanted[j].src in f.source
    && End(s) == Snap(b.files[other := f.source[f.wanted[j].src]], b.rows)
  }

  // The second crash: file `j` is copied under a name where no run will look.
  lemma SecondCrash(f: Footage, i: nat, j: nat, d: nat, a: Snap) returns (s: Session, b: Snap, other: string)
    requires Listed(f) && Upto(f, i, true, a) && Bumps(f, i, j) && d == j - i
    requires forall m, n :: 0 <= m < n < |f.wanted| && n > j ==> !Bumps(f, m, n)
    ensures BeginsAt(f, a, s) && other !in Taken(f, |f.wanted|) && LeavesAside(f, j, s, b, other)
  {
    var plan := PlanFor(f, i, true, a);
    BumpedPlan(f, i, j, plan);
    BumpedDest(f, i, j, plan, d);
    other := plan[d].dest;
    NameAside(f, j, other);
    var t := DoItems(f, plan, a, d);
    b := t.snaps[d];
    SessionKeeps(f, i, true, t, d, j);
    s := CrashAside(f, j, t, b, other);
  }

  lemma CrashAside(f: Footage, j: nat, t: Session, b: Snap, other: string) returns (s: Session)
    requires SessionOk(f.cfg, f.serial, f.source, t) && |t.results| < |t.plan| && t.snaps[|t.results|] == b
    requires forall i :: 0 <= i < |t.results| ==> !t.results[i].Crashed?
    requires Upto(f, j, false, b) && j < |f.wanted|
    requires t.plan[|t.results|].entry == f.wanted[j] && t.plan[|t.results|].dest == other
    ensures s.plan == t.plan && SessionOk(f.cfg, f.serial, f.source, s) && s.snaps[0] == t.snaps[0]
    ensures LeavesAside(f, j, s, b, other)
  {
    OneMoreInPlace(f, j, b.files);
    CrashSteps(f, t.plan[|t.results|], b);
    s := MoreSteps(f, t, Crashed, Snap(b.files[other := f.source[f.wanted[j].src]], b.rows));
  }

  // The same footage offloaded to a destination with one more file.
  function Beside(f: Footage, other: string, b: Bytes): Footage {
    f.(start := Snap(f.start.files[other := b], f.start.rows))
  }

  lemma FootageBeside(f: Footage, other: string, b: Bytes)
    requires FootageOk(f) && other !in Taken(f, |f.wanted|)
    ensures FootageOk(Beside(f, other, b))
  {
    assert forall m :: 0 <= m < |f.wanted| ==> f.wanted[m].rendered in Taken(f, |f.wanted|);
    forall i | 0 <= i < |f.wanted| ensures ToBring(Beside(f, other, b), i) {
      assert ToBring(f, i);
    }
  }

  lemma InPlaceBeside(f: Footage, j: nat, files: map<string, Bytes>, other: string, b: Bytes)
    requires FootageOk(f) && InPlace(f, j, files) && other !in Taken(f, |f.wanted|)
    ensures InPlace(Beside(f, other, b), j, files[other := b])
  {
    assert forall m :: 0 <= m < j ==> f.wanted[m].rendered in Taken(f, |f.wanted|);
    assert Taken(Beside(f, other, b), j) == Taken(f, j) + {other};
  }

  lemma UptoBeside(f: Footage, j: nat, s: Snap, other: string, b: Bytes)
    requires Upto(f, j, false, s) && other !in Taken(f, |f.wanted|)
    ensures Upto(Beside(f, other, b), j, false, Snap(s.files[other := b], s.rows))
  {
    var g := Beside(f, other, b);
    FootageBeside(f, other, b);
    InPlaceBeside(f, j, s.files, other, b);
    forall key {:trigger KnownRight(g, j, s.rows, key)} ensures KnownRight(g, j, s.rows, key) {
      assert KnownRight(f, j, s.rows, key);
      assert KeyBelow(g, j, key) <==> KeyBelow(f, j, key);
    }
  }

  // A plan carried out to its end.
  lemma CarriedOut(g: Footage, j: nat, a: Snap, plan: seq<PlannedCopy>, n: nat, m: nat) returns (s: Session)
    requires Upto(g, j, false, a) && PlanAt(g, j, false, plan) && Sourced(g, plan)
    requires n == |plan| && m == |g.wanted| && m == j + n
    ensures s.plan == plan && SessionOk(g.cfg, g.serial, g.source, s) && s.snaps[0] == a && Completes(s)
    ensures Upto(g, m, false, End(s))
  {
    CanonicalPlan(g, j, false, plan, n);
    s := DoItems(g, plan, a, n);
    SessionKeeps(g, j, false, s, n, m);
  }

  // A run that completes.
  lemma CompleteRun(g: Footage, j: nat, a: Snap) returns (s: Session)
    requires Listed(g) && Upto(g, j, false, a)
    ensures BeginsAt(g, a, s) && Completes(s) && Upto(g, |g.wanted|, false, End(s))
  {
    var plan := PlanFor(g, j, false, a);
    s := CarriedOut(g, j, a, plan, |plan|, |g.wanted|);
  }

  // Two crashes and a complete run leave two copies of one file.
  lemma {:induction false} BumpedNameDuplicates(f: Footage) returns (hs: seq<Session>, j: nat, other: string)
    requires FootageOk(f) && Listed(f) && !NoBump(f)
    ensures HistoryOk(f, hs) && |hs| == 3 && Completes(hs[2]) && j < |f.wanted|
    ensures other != f.wanted[j].rendered && other !in f.start.files && f.wanted[j].src in f.source
    ensures Lookup(End(hs[2]).files, f.wanted[j].rendered) == Lookup(End(hs[2]).files, other) == Some(f.source[f.wanted[j].src])
    ensures !Recovered(f, End(hs[2]))
  {
    var i: nat, j0: nat :| i < j0 < |f.wanted| && Bumps(f, i, j0);
    i, j := LastBump(f, i, j0);
    var s1 := FirstCrash(f, i);
    var s2, b;
    s2, b, other := SecondCrash(f, i, j, j - i, End(s1));
    var s3 := ThirdRun(f, j, s2, b, other);
    hs := [s1, s2, s3];
    ThreeSessions(f, s1, s2, s3);
  }

  lemma ThirdRun(f: Footage, j: nat, s2: Session, b: Snap, other: string) returns (s3: Session)
    requires Listed(f) && LeavesAside(f, j, s2, b, other) && other !in Taken(f, |f.wanted|)
    ensures BeginsAt(f, End(s2), s3) && Completes(s3)
    ensures other != f.wanted[j].rendered && other !in f.start.files
    ensures Lookup(End(s3).files, f.wanted[j].rendered) == Lookup(End(s3).files, other) == Some(f.source[f.wanted[j].src])
    ensures !Recovered(f, End(s3))
  {
    var bytes := f.source[f.wanted[j].src];
    UptoBeside(f, j, b, other, bytes);
    var g := Beside(f, other, bytes);
    s3 := CompleteRun(g, j, End(s2));
    assert f.wanted[j].rendered in Taken(f, |f.wanted|);
    assert other in Taken(g, |g.wanted|);
  }

  lemma ThreeSessions(f: Footage, s1: Session, s2: Session, s3: Session)
    requires BeginsAt(f, f.start, s1) && BeginsAt(f, End(s1), s2) && BeginsAt(f, End(s2), s3)
    ensures HistoryOk(f, [s1, s2, s3])
  {
    var hs := [s1, s2, s3];
    forall i | 0 <= i < |hs| ensures SessionIs(f, hs, i) {
      assert Before(f, hs, i) == if i == 0 then f.start else if i == 1 then End(s1) else End(s2);
    }
  }

  // If the last run of the history completes, everything is recovered.
  ghost predicate Recovers(f: Footage, hs: seq<Session>) {
    HistoryOk(f, hs) && hs != [] && Completes(hs[|hs| - 1]) ==> Recovered(f, End(hs[|hs| - 1]))
  }

  // Any number of crashes, each anywhere, followed by one complete run, recover
  // everything for sure exactly if no file listed later has as canonical name the
  // first free number of one listed earlier.
  lemma {:induction false} RecoversIff(f: Footage)
    requires FootageOk(f) && Listed(f)
    ensures (forall hs: seq<Session> :: Recovers(f, hs)) <==> NoBump(f)
  {
    if NoBump(f) {
      forall hs: seq<Session> ensures Recovers(f, hs) {
        if HistoryOk(f, hs) && hs != [] && Completes(hs[|hs| - 1]) {
          RecoversAlways(f, hs);
        }
      }
    } else {
      var hs, j, other := BumpedNameDuplicates(f);
      assert !Recovers(f, hs);
    }
  }
}
