/** What SD runs guarantee: over one run, and over any number of crashed ones. */
module SdSafety {
  import opened Wrappers
  import opened Tables
  import opened LedgerModule
  import opened Naming
  import opened Transfer
  import opened RunTrace
  import opened QueueSteps
  import opened Storage
  import opened SdOffload
  import opened SdRun
  import opened SdRecovery
  import S = CloudStore
  import StoreSafety

  /* ----- one run, storage that may corrupt what it persists ----- */

  // The last item of the run committed under the key of item `i`.
  function LastAt(serial: string, plan: seq<PlannedCopy>, at: seq<Option<string>>, k: nat, i: nat): (l: nat)
    requires i < k <= |at| <= |plan| && at[i].Some?
    ensures i <= l < k && LastOfKey(serial, plan, at, k, l)
    ensures KeyOf(serial, plan[l].entry) == KeyOf(serial, plan[i].entry)
    decreases k
  {
    if k - 1 == i then i
    else if at[k - 1].Some? && KeyOf(serial, plan[k - 1].entry) == KeyOf(serial, plan[i].entry) then k - 1
    else LastAt(serial, plan, at, k - 1, i)
  }

  // With verify on, every file committed in the run has a row, and the row leads
  // to bytes equal to its card source exactly when the last file committed under
  // the same key has those bytes too.
  lemma LedgerLeadsToSource(cfg: Config, serial: string, plan: seq<PlannedCopy>, onCard: map<string, Bytes>,
                            start: map<string, Bytes>, files: map<string, Bytes>, rows: seq<Imported>,
                            at: seq<Option<string>>, i: nat)
    requires cfg.verify && RunInv(cfg, serial, plan, onCard, start, files, rows, at) && i < |at| && at[i].Some?
    ensures at[i].value in files && files[at[i].value] == onCard[plan[i].entry.src]
    ensures var row := FindKey(rows, KeyOf(serial, plan[i].entry));
            && row.Some? && rows[row.value].dest in files
            && (files[rows[row.value].dest] == onCard[plan[i].entry.src]
                <==> onCard[plan[LastAt(serial, plan, at, |at|, i)].entry.src] == onCard[plan[i].entry.src])
  {
    var l := LastAt(serial, plan, at, |at|, i);
    var key := KeyOf(serial, plan[i].entry);
    assert RowsOk(serial, plan, rows, at) && LastOfKey(serial, plan, at, |at|, l);
    assert Recorded(rows, key, at[l].value);
    var r :| 0 <= r < |rows| && rows[r].key == key && rows[r].dest == at[l].value;
    assert FindKey(rows, key) == Some(r);
  }

  lemma DistinctKeysLeadHome(cfg: Config, serial: string, plan: seq<PlannedCopy>, onCard: map<string, Bytes>,
                             start: map<string, Bytes>, files: map<string, Bytes>, rows: seq<Imported>,
                             at: seq<Option<string>>)
    requires cfg.verify && RunInv(cfg, serial, plan, onCard, start, files, rows, at)
    requires forall i, j :: 0 <= i < j < |plan| ==> KeyOf(serial, plan[i].entry) != KeyOf(serial, plan[j].entry)
    ensures forall i :: 0 <= i < |at| && at[i].Some? ==>
              exists r :: 0 <= r < |rows| && rows[r].key == KeyOf(serial, plan[i].entry)
                          && Lookup(files, rows[r].dest) == Some(onCard[plan[i].entry.src])
  {
    forall i | 0 <= i < |at| && at[i].Some?
      ensures exists r :: 0 <= r < |rows| && rows[r].key == KeyOf(serial, plan[i].entry)
                          && Lookup(files, rows[r].dest) == Some(onCard[plan[i].entry.src])
    {
      LedgerLeadsToSource(cfg, serial, plan, onCard, start, files, rows, at, i);
      var r := FindKey(rows, KeyOf(serial, plan[i].entry)).value;
      assert rows[r].key == KeyOf(serial, plan[i].entry);
    }
  }

  // With verify on, whatever leaves the card is on the disk byte for byte.
  lemma {:induction false} NothingLost(t: Trip, w: World, at: seq<Option<string>>, src: string)
    requires t.cfg.verify && Progressed(t, w, at)
    requires src in t.w0.card && src !in w.card
    ensures Mode(t.cfg) != Auto && exists f :: f in w.files && f !in t.w0.files && w.files[f] == t.w0.card[src]
    ensures exists i :: 0 <= i < |t.plan| && t.plan[i].entry.src == src && Known(w.rows, KeyOf(t.serial, t.plan[i].entry))
  {
    var i :| 0 <= i < |at| && t.plan[i].entry.src == src && at[i] == Some(t.plan[i].dest);
    LedgerLeadsToSource(t.cfg, t.serial, t.plan, t.w0.card, t.w0.files, w.files, w.rows, at, i);
    assert t.plan[i].dest !in t.w0.files.Keys;
    assert t.plan[i].dest in w.files && w.files[t.plan[i].dest] == t.w0.card[src];
    assert t.plan[i].entry.src == src && Known(w.rows, KeyOf(t.serial, t.plan[i].entry));
  }

  // Under Auto the card file of a job of the run is removed by some later drain,
  // whatever else has happened by then. If the run verified its copies and no two
  // jobs with different bytes share a remote path, then what the drain removes is
  // in the cloud exactly when the card still has what it had before the run.
  lemma {:induction false} FreesWhatWasUploadedIff(t: Trip, w: World, db: Db, log: Log, h0: Story, h: Story, k: nat, later: seq<S.Step>, e: S.Step)
    requires t.cfg.verify && Going(t, w, log, h0, h) && h.s0 == S.EMPTY && |t.w0.jobs| <= k < |w.jobs|
    requires Records(h, db) && db.jobs == w.jobs
    requires S.Legal(Final(h), later) && StoreSafety.NoClash(S.Run(Final(h), later))
    requires var s := S.Run(Final(h), later);
             e.Free? && S.Enabled(s, e) && s.freeing[e.p] == k && S.Removes(s, e)
    ensures var s := S.Run(Final(h), later);
            var src := w.jobs[k].spec.cardSrc;
            && src.Some? && src.value in s.card && k < |s.q.jobs| && s.q.jobs[k].state == Done
            && s.q.jobs[k].spec.remotePath in s.remote
            && S.Next(s, e).freed == s.freed + [S.Freed(k, s.card[src.value])]
            && (s.card[src.value] == s.remote[s.q.jobs[k].spec.remotePath]
                <==> Lookup(s.card, src.value) == Lookup(t.w0.card, src.value))
  {
    var s := S.Run(Final(h), later);
    S.LegalJoin(S.EMPTY, h.es, later);
    S.StoreReachable(h.es);
    S.StoreKeeps(Final(h), later);
    JobStays(t, w, h0, h, k, s);
    StoreSafety.FreesTheUploadedFileIff(h.es + later, e);
  }

  // Later events leave the job, its bytes and its source as the run entered them.
  lemma JobStays(t: Trip, w: World, h0: Story, h: Story, k: nat, s: S.Store)
    requires PayloadsOk(t, w, h0, h) && |t.w0.jobs| <= k < |w.jobs| && Final(h).q.jobs == w.jobs && t.cfg.verify
    requires S.Q.Grows(Final(h).q, s.q) && Final(h).payload <= s.payload && Final(h).sources <= s.sources
    ensures k < |s.q.jobs| && s.q.jobs[k].spec == w.jobs[k].spec && w.jobs[k].spec.cardSrc.Some?
    ensures k < |s.payload| && k < |s.sources| && s.sources[k] == Some(s.payload[k])
    ensures s.sources[k] == Lookup(t.w0.card, w.jobs[k].spec.cardSrc.value)
  {
    assert PayloadOk(t, w, Final(h).payload, Final(h).sources, k);
    assert S.Q.RowGrows(Final(h).q.jobs[k], s.q.jobs[k]);
  }

  // With verify off the length decides: a stray file of the right name and
  // length is adopted for any source, and the ledger then leads to other bytes.
  lemma {:induction false} LengthIsNotEnough(cfg: Config, serial: string, item: PlannedCopy, source: Bytes, stray: Bytes)
    requires !cfg.verify && |stray| == |source| && stray != source
    ensures var files := map[item.entry.rendered := stray];
            var rows := Upsert([], KeyOf(serial, item.entry), item.entry.rendered, None).0;
            && ItemStep(cfg, serial, item, Some(source), AdoptedAt(Adopted(item.entry.name, Mirrors(cfg))),
                        files, files, [], rows)
            && Lookup(files, rows[0].dest) != Some(source)
    ensures !ItemStep(cfg.(verify := true), serial, item, Some(source), AdoptedAt(Adopted(item.entry.name, Mirrors(cfg))),
                      map[item.entry.rendered := stray], map[item.entry.rendered := stray], [],
                      Upsert([], KeyOf(serial, item.entry), item.entry.rendered, None).0)
  {
  }

  /* ----- any number of crashes, sound storage ----- */

  function Present(listing: seq<Entry>, card: map<string, Bytes>): (r: seq<Entry>)
    ensures forall e :: e in r <==> e in listing && e.src in card
  {
    if listing == [] then []
    else
      var n := |listing| - 1;
      assert listing == listing[..n] + [listing[n]];
      Present(listing[..n], card) + if listing[n].src in card then [listing[n]] else []
  }

  lemma {:induction false} PresentDistinct(listing: seq<Entry>, card: map<string, Bytes>)
    requires DistinctSources(listing)
    ensures DistinctSources(Present(listing, card))
  {
    if listing != [] {
      var n := |listing| - 1;
      PresentDistinct(listing[..n], card);
      forall e | e in Present(listing[..n], card) ensures e.src != listing[n].src {
        var i :| 0 <= i < n && listing[i] == e;
      }
    }
  }

  // Each file of the card is still there or already in the ledger.
  ghost predicate ThereOrKnown(serial: string, listing: seq<Entry>, source: map<string, Bytes>, card: map<string, Bytes>,
                               rows: seq<Imported>) {
    forall e :: e in listing ==>
      e.src in source && (Lookup(card, e.src) == Some(source[e.src]) || (e.src !in card && Known(rows, KeyOf(serial, e))))
  }

  lemma ThereOrKnownStep(listing: seq<Entry>, source: map<string, Bytes>, t: Trip, w: World, at: seq<Option<string>>)
    requires Progressed(t, w, at)
    requires ThereOrKnown(t.serial, listing, source, t.w0.card, t.w0.rows) && DistinctSources(listing)
    requires forall i :: 0 <= i < |t.plan| ==> t.plan[i].entry in listing
    ensures ThereOrKnown(t.serial, listing, source, w.card, w.rows)
  {
    forall e | e in listing && e.src in t.w0.card && e.src !in w.card ensures Known(w.rows, KeyOf(t.serial, e)) {
      var i :| 0 <= i < |at| && t.plan[i].entry.src == e.src && at[i] == Some(t.plan[i].dest);
      assert t.plan[i].entry == e;
      var l := LastAt(t.serial, t.plan, at, |at|, i);
      assert LastOfKey(t.serial, t.plan, at, |at|, l);
      assert Recorded(w.rows, KeyOf(t.serial, e), at[l].value);
    }
  }

  lemma PresentSnoc(listing: seq<Entry>, e: Entry, card: map<string, Bytes>)
    ensures Present(listing + [e], card) == Present(listing, card) + if e.src in card then [e] else []
  {
    assert (listing + [e])[..|listing|] == listing;
  }

  // Files that are gone from the card are known, so the plan is the same.
  lemma {:induction false} KeptPresent(listing: seq<Entry>, cfg: Config, serial: string, source: map<string, Bytes>,
                                       card: map<string, Bytes>, rows: seq<Imported>)
    requires ThereOrKnown(serial, listing, source, card, rows)
    ensures Kept(Present(listing, card), cfg, rows, serial) == Kept(listing, cfg, rows, serial)
  {
    if listing != [] {
      var init, e := listing[..|listing| - 1], listing[|listing| - 1];
      assert listing == init + [e];
      KeptPresent(init, cfg, serial, source, card, rows);
      KeptSnoc(init, e, cfg, rows, serial);
      PresentSnoc(init, e, card);
      var there := Present(init, card);
      if e.src in card {
        KeptSnoc(there, e, cfg, rows, serial);
        assert Present(listing, card) == there + [e];
      } else {
        assert Present(listing, card) == there;
      }
    }
  }

  // A session on the files still there is one of the card as it was.
  lemma SessionOfAll(f: Footage, t: Trip, w: World, s: Session)
    requires SessionFits(t, w, s) && t.cfg == f.cfg && t.serial == f.serial
    requires ThereOrKnown(f.serial, f.listing, f.source, t.w0.card, t.w0.rows)
    requires Entries(t.plan) == Kept(Present(f.listing, t.w0.card), f.cfg, t.w0.rows, f.serial)
    requires PlanOk(t.plan, t.w0.files.Keys)
    ensures BeginsAt(f, SnapOf(t.w0), s)
  {
    KeptPresent(f.listing, f.cfg, f.serial, f.source, t.w0.card, t.w0.rows);
    forall i | 0 <= i < |s.results| ensures StepAt(f.cfg, f.serial, f.source, s, i) {
      assert StepAt(t.cfg, t.serial, t.w0.card, s, i);
      assert t.plan[i].entry == Entries(t.plan)[i];
    }
  }

  // One more insertion: the history so far, and what is still on the card.
  ghost predicate Inserted(f: Footage, hs: seq<Session>, w: World) {
    && HistoryOk(f, hs) && Before(f, hs, |hs|) == SnapOf(w) && UniqueKeys(w.rows)
    && DistinctSources(f.listing) && ThereOrKnown(f.serial, f.listing, f.source, w.card, w.rows)
  }

  lemma InsertedAgain(f: Footage, hs: seq<Session>, t: Trip, w: World, s: Session, at: seq<Option<string>>)
    requires Inserted(f, hs, t.w0) && t.cfg == f.cfg && t.serial == f.serial
    requires Entries(t.plan) == Kept(Present(f.listing, t.w0.card), f.cfg, t.w0.rows, f.serial)
    requires PlanOk(t.plan, t.w0.files.Keys) && SessionFits(t, w, s) && Progressed(t, w, at) && UniqueKeys(w.rows)
    ensures Inserted(f, hs + [s], w)
  {
    PresentDistinct(f.listing, t.w0.card);
    PlanIsSound(t.plan, Present(f.listing, t.w0.card), t.cfg, t.w0.rows, t.serial, t.w0.card);
    ThereOrKnownStep(f.listing, f.source, t, w, at);
    SessionOfAll(f, t, w, s);
    HistoryGrows(f, hs, s);
  }

  lemma RecoversIfCan(f: Footage, hs: seq<Session>, w: World)
    requires Listed(f) && Inserted(f, hs, w) && hs != [] && Completes(hs[|hs| - 1])
    ensures FootageOk(f) && NoBump(f) ==> Recovered(f, SnapOf(w))
  {
    if FootageOk(f) && NoBump(f) {
      RecoversAlways(f, hs);
    }
  }

  // The card is put in again and again; each time the run ends or the process
  // dies somewhere in it, until a run ends. On sound storage that is a history of
  // sessions, and SdRecovery says what comes of it.
  method InsertUntilDone(cfg: Config, serial: string, listing: seq<Entry>, card: Card, disk: Disk, ledger: Ledger,
                         times: nat, ghost h: Story)
    returns (completed: bool, ghost hs: seq<Session>, ghost h': Story)
    requires Records(h, ledger.Value()) && UniqueKeys(ledger.imported)
    requires disk.faithful && card.reliable && DistinctSources(listing)
    requires forall e :: e in listing ==> e.src in card.files
    modifies card, disk, ledger`imported, ledger`jobs
    ensures Continues(h, h') && Records(h', ledger.Value())
    ensures var f := FootageOf(cfg, serial, listing, old(Now(card, disk, ledger)));
            && HistoryOk(f, hs) && Before(f, hs, |hs|) == SnapOf(Now(card, disk, ledger))
            && (completed ==> hs != [] && Completes(hs[|hs| - 1]))
            && (completed && FootageOk(f) && NoBump(f) ==> Recovered(f, SnapOf(Now(card, disk, ledger))))
    ensures StartKept(old(disk.files), disk.files)
  {
    ghost var f := FootageOf(cfg, serial, listing, Now(card, disk, ledger));
    completed, hs, h' := false, [], h;
    for t := 0 to times
      invariant Inserted(f, hs, Now(card, disk, ledger))
      invariant StartKept(f.start.files, disk.files)
      invariant Continues(h, h') && Records(h', ledger.Value())
    {
      ghost var w := Now(card, disk, ledger);
      var present := Present(listing, card.files);
      PresentDistinct(listing, card.files);
      var plan, log, events;
      ghost var h1 := h';
      ghost var s;
      completed, plan, log, events, s, h' := RunOffload(cfg, serial, present, card, disk, ledger, h1);
      ContinuesOn(h, h1, h');
      InsertedAgain(f, hs, Trip(cfg, serial, plan, w), Now(card, disk, ledger), s, log.at);
      hs := hs + [s];
      if completed {
        RecoversIfCan(f, hs, Now(card, disk, ledger));
        return;
      }
    }
  }

  function FootageOf(cfg: Config, serial: string, listing: seq<Entry>, w: World): Footage {
    Footage(cfg, serial, listing, w.card, SnapOf(w), Kept(listing, cfg, w.rows, serial))
  }

  // A further run plans nothing exactly when everything wanted is known ...
  lemma {:induction false} FurtherRunCopiesNothing(cfg: Config, serial: string, listing: seq<Entry>, rows: seq<Imported>)
    ensures Kept(listing, cfg, rows, serial) == [] <==> AllKnown(listing, cfg, rows, serial)
  {
    var kept := Kept(listing, cfg, rows, serial);
    if kept != [] {
      assert kept[0] in kept;
    }
  }

  // ... as it is after any recovery.
  lemma RecoveredCopiesNothing(f: Footage, hs: seq<Session>)
    requires FootageOk(f) && Listed(f) && NoBump(f) && HistoryOk(f, hs) && hs != [] && Completes(hs[|hs| - 1])
    ensures Kept(f.listing, f.cfg, End(hs[|hs| - 1]).rows, f.serial) == []
    ensures AllKnown(f.listing, f.cfg, End(hs[|hs| - 1]).rows, f.serial)
  {
    var k, left := HistoryKeeps(f, hs);
    PlansTheRest(f, k, left, End(hs[|hs| - 1]));
    FurtherRunCopiesNothing(f.cfg, f.serial, f.listing, End(hs[|hs| - 1]).rows);
  }
}
