/**
  The event stream of an offload run, SD or wired, as a grammar, and what the
  reducer makes of it at every moment of the run.
 */
module RunTrace {
  import opened Wrappers
  import opened AppStateModule

  datatype Cleanup = NotAttempted | Deleted | Undeleted(error: string)

  // What one planned file contributed to the stream.
  datatype ItemTrace =
    | Adopted(file: string, queued: bool)
    | Copied(file: string, ticks: seq<nat>, size: nat, bytes: nat, queued: bool, cleanup: Cleanup)
    | Broken(file: string, ticks: seq<nat>, size: nat, error: string)

  function Ticks(file: string, ticks: seq<nat>, size: nat): (r: seq<RunEvent>)
    ensures |r| == |ticks|
    ensures forall i :: 0 <= i < |r| ==> r[i] == Progress(file, ticks[i], size)
  {
    seq(|ticks|, i requires 0 <= i < |ticks| => Progress(file, ticks[i], size))
  }

  function Queued(file: string, queued: bool): seq<RunEvent> {
    if queued then [CloudQueued(file)] else []
  }

  function CleanupEvents(file: string, c: Cleanup): seq<RunEvent> {
    match c
    case NotAttempted => []
    case Deleted => [CardFileDeleted(file)]
    case Undeleted(error) => [CardDeleteFailed(file, error)]
  }

  function ItemEvents(t: ItemTrace, index: nat, total: nat): seq<RunEvent> {
    match t
    case Adopted(file, queued) => [Skipped(file)] + Queued(file, queued)
    case Copied(file, ticks, size, bytes, queued, cleanup) =>
      [Copying(file, index, total)] + Ticks(file, ticks, size)
      + [Progress(file, bytes, bytes), Verified(file)] + Queued(file, queued) + CleanupEvents(file, cleanup)
    case Broken(file, ticks, size, error) =>
      [Copying(file, index, total)] + Ticks(file, ticks, size) + [Failed(file, error)]
  }

  function ItemsEvents(items: seq<ItemTrace>, total: nat): seq<RunEvent> {
    if items == [] then []
    else ItemsEvents(items[..|items| - 1], total) + ItemEvents(items[|items| - 1], |items|, total)
  }

  function CopiedBytes(items: seq<ItemTrace>): nat {
    if items == [] then 0
    else CopiedBytes(items[..|items| - 1]) + if items[|items| - 1].Copied? then items[|items| - 1].bytes else 0
  }

  // How a run starts; `reaped` are the files a wired run deletes from the camera
  // for earlier runs before it plans its own.
  function Opening(reaped: seq<string>, files: nat, totalBytes: nat): seq<RunEvent> {
    [CardDetected] + seq(|reaped|, i requires 0 <= i < |reaped| => CardFileDeleted(reaped[i])) + [Scanned(files, totalBytes)]
  }

  function Fold(s: Snapshot, es: seq<RunEvent>): Snapshot {
    if es == [] then s else ApplyRun(Fold(s, es[..|es| - 1]), es[|es| - 1])
  }

  // Bytes of the files verified so far, read off the stream itself: each
  // Verified stands for the Progress right before it.
  function VerifiedBytes(es: seq<RunEvent>): nat {
    if |es| < 2 then 0
    else
      VerifiedBytes(es[..|es| - 1])
      + if es[|es| - 1].Verified? && es[|es| - 2].Progress? then es[|es| - 2].copied else 0
  }

  // A stream in which every Verified directly follows a Progress, and nothing
  // starts or ends a run.
  predicate WellPaired(es: seq<RunEvent>) {
    && (forall i :: 0 <= i < |es| ==> !es[i].Scanned? && !es[i].RunComplete?)
    && (forall i :: 0 <= i < |es| && es[i].Verified? ==> i > 0 && es[i - 1].Progress?)
    && (forall i :: 0 <= i < |es| && es[i].Copying? ==> 1 <= es[i].index)
  }

  lemma PairedConcat(a: seq<RunEvent>, b: seq<RunEvent>)
    requires WellPaired(a) && WellPaired(b)
    ensures WellPaired(a + b)
  {
  }

  lemma ItemPaired(t: ItemTrace, index: nat, total: nat)
    requires index >= 1
    ensures WellPaired(ItemEvents(t, index, total))
  {
    match t
    case Copied(file, ticks, size, bytes, queued, cleanup) =>
      PairedConcat([Copying(file, index, total)], Ticks(file, ticks, size));
      var a := [Copying(file, index, total)] + Ticks(file, ticks, size);
      PairedConcat(a, [Progress(file, bytes, bytes), Verified(file)]);
      PairedConcat(a + [Progress(file, bytes, bytes), Verified(file)], Queued(file, queued));
      PairedConcat(a + [Progress(file, bytes, bytes), Verified(file)] + Queued(file, queued), CleanupEvents(file, cleanup));
    case _ =>
  }

  lemma {:induction false} ItemsPaired(items: seq<ItemTrace>, total: nat)
    ensures WellPaired(ItemsEvents(items, total))
  {
    if items != [] {
      ItemsPaired(items[..|items| - 1], total);
      ItemPaired(items[|items| - 1], |items|, total);
      PairedConcat(ItemsEvents(items[..|items| - 1], total), ItemEvents(items[|items| - 1], |items|, total));
    }
  }

  lemma {:induction false} VerifiedConcat(a: seq<RunEvent>, b: seq<RunEvent>)
    requires WellPaired(b)
    ensures VerifiedBytes(a + b) == VerifiedBytes(a) + VerifiedBytes(b)
  {
    if b == [] {
      assert a + b == a;
    } else {
      var n := |b| - 1;
      assert (a + b)[..|a + b| - 1] == a + b[..n];
      VerifiedConcat(a, b[..n]);
      assert |b| >= 2 ==> (a + b)[|a + b| - 2] == b[|b| - 2];
    }
  }

  lemma {:induction false} NoVerified(es: seq<RunEvent>)
    requires forall i :: 0 <= i < |es| ==> !es[i].Verified?
    ensures VerifiedBytes(es) == 0
  {
    if |es| >= 2 {
      NoVerified(es[..|es| - 1]);
    }
  }

  lemma OnlyPartVerifies(a: seq<RunEvent>, b: seq<RunEvent>, c: seq<RunEvent>, d: seq<RunEvent>)
    requires WellPaired(b) && WellPaired(c) && WellPaired(d)
    requires forall i :: 0 <= i < |a + c + d| ==> !(a + c + d)[i].Verified?
    ensures VerifiedBytes(a + b + c + d) == VerifiedBytes(b)
  {
    assert forall i :: 0 <= i < |a| ==> a[i] == (a + c + d)[i];
    assert forall i :: 0 <= i < |c| ==> c[i] == (a + c + d)[|a| + i];
    assert forall i :: 0 <= i < |d| ==> d[i] == (a + c + d)[|a| + |c| + i];
    NoVerified(a);
    NoVerified(c);
    NoVerified(d);
    VerifiedConcat(a, b);
    VerifiedConcat(a + b, c);
    VerifiedConcat(a + b + c, d);
  }

  lemma PartVerifies(file: string, bytes: nat)
    ensures VerifiedBytes([Progress(file, bytes, bytes), Verified(file)]) == bytes
  {
  }

  lemma ItemVerified(t: ItemTrace, index: nat, total: nat)
    requires index >= 1
    ensures VerifiedBytes(ItemEvents(t, index, total)) == if t.Copied? then t.bytes else 0
  {
    if t.Copied? {
      PartVerifies(t.file, t.bytes);
      OnlyPartVerifies([Copying(t.file, index, total)] + Ticks(t.file, t.ticks, t.size),
                       [Progress(t.file, t.bytes, t.bytes), Verified(t.file)],
                       Queued(t.file, t.queued), CleanupEvents(t.file, t.cleanup));
    } else {
      NoVerified(ItemEvents(t, index, total));
    }
  }

  lemma {:induction false} ItemsVerified(items: seq<ItemTrace>, total: nat)
    ensures VerifiedBytes(ItemsEvents(items, total)) == CopiedBytes(items)
  {
    if items != [] {
      var n := |items| - 1;
      ItemsVerified(items[..n], total);
      ItemVerified(items[n], |items|, total);
      ItemPaired(items[n], |items|, total);
      VerifiedConcat(ItemsEvents(items[..n], total), ItemEvents(items[n], |items|, total));
    }
  }

  // At every moment after the scan: the bytes the UI counts as complete are
  // those of the verified files (nothing of a failed one), and it never shows
  // more files than planned.
  predicate ShowsRun(s: Snapshot, files: nat, verified: nat) {
    s.run.Some? && s.run.value.filesTotal == files && s.run.value.filesDone <= files
    && s.run.value.completedBytes == verified
  }

  lemma {:induction false} StreamShown(s: Snapshot, es: seq<RunEvent>, files: nat)
    requires ShowsRun(s, files, 0) && WellPaired(es) && VerifiedBytes(es) <= U64_MAX
    requires forall i :: 0 <= i < |es| && es[i].Copying? ==> es[i].index <= files
    ensures ShowsRun(Fold(s, es), files, VerifiedBytes(es))
    ensures es != [] && es[|es| - 1].Progress? ==>
              Fold(s, es).run.value.bytesDone == SatAdd(VerifiedBytes(es), es[|es| - 1].copied)
  {
    if es != [] {
      var n := |es| - 1;
      if |es| >= 2 {
        assert VerifiedBytes(es[..n]) <= VerifiedBytes(es);
      }
      StreamShown(s, es[..n], files);
      if es[n].Verified? {
        assert es[n - 1].Progress? && es[..n][n - 1] == es[n - 1];
      }
    }
  }

  lemma {:induction false} FoldConcat(s: Snapshot, a: seq<RunEvent>, b: seq<RunEvent>)
    ensures Fold(s, a + b) == Fold(Fold(s, a), b)
  {
    if b == [] {
      assert a + b == a;
    } else {
      assert (a + b)[..|a + b| - 1] == a + b[..|b| - 1];
      FoldConcat(s, a, b[..|b| - 1]);
    }
  }

  lemma PrefixPaired(es: seq<RunEvent>, k: nat)
    requires k <= |es| && WellPaired(es)
    ensures WellPaired(es[..k])
  {
  }

  lemma {:induction false} VerifiedMonotone(es: seq<RunEvent>, k: nat)
    requires k <= |es|
    ensures VerifiedBytes(es[..k]) <= VerifiedBytes(es)
    decreases |es|
  {
    if k < |es| {
      assert es[..|es| - 1][..k] == es[..k];
      VerifiedMonotone(es[..|es| - 1], k);
    } else {
      assert es[..k] == es;
    }
  }

  lemma ItemIndices(t: ItemTrace, index: nat, total: nat)
    ensures forall i :: 0 <= i < |ItemEvents(t, index, total)| && ItemEvents(t, index, total)[i].Copying? ==>
                          ItemEvents(t, index, total)[i].index == index
  {
  }

  lemma {:induction false} ItemsIndices(items: seq<ItemTrace>, total: nat)
    requires |items| <= total
    ensures forall i :: 0 <= i < |ItemsEvents(items, total)| && ItemsEvents(items, total)[i].Copying? ==>
                          ItemsEvents(items, total)[i].index <= total
  {
    if items != [] {
      var init := items[..|items| - 1];
      ItemsIndices(init, total);
      ItemIndices(items[|items| - 1], |items|, total);
      var a, b := ItemsEvents(init, total), ItemEvents(items[|items| - 1], |items|, total);
      assert forall i :: 0 <= i < |a + b| ==> (a + b)[i] == if i < |a| then a[i] else b[i - |a|];
    }
  }

  // For every run, cut at any point `k` of its stream, whatever the UI showed
  // before: the counters are exact throughout.
  lemma CountersExactThroughout(s: Snapshot, reaped: seq<string>, items: seq<ItemTrace>, total: nat, totalBytes: nat, k: nat)
    requires |items| <= total && CopiedBytes(items) <= U64_MAX && k <= |ItemsEvents(items, total)|
    ensures var es := ItemsEvents(items, total)[..k];
            ShowsRun(Fold(s, Opening(reaped, total, totalBytes) + es), total, VerifiedBytes(es))
  {
    var all := ItemsEvents(items, total);
    var opening := Opening(reaped, total, totalBytes);
    var begun := Fold(s, opening);
    assert opening[|opening| - 1] == Scanned(total, totalBytes);
    assert ShowsRun(begun, total, 0);
    ItemsPaired(items, total);
    ItemsVerified(items, total);
    ItemsIndices(items, total);
    PrefixPaired(all, k);
    VerifiedMonotone(all, k);
    StreamShown(begun, all[..k], total);
    FoldConcat(s, opening, all[..k]);
  }

  // The summary a run reports equals what the UI had counted when it ends.
  lemma {:induction false} SummaryMatchesCounters(s: Snapshot, reaped: seq<string>, items: seq<ItemTrace>, total: nat, totalBytes: nat, sum: Summary)
    requires |items| == total && CopiedBytes(items) <= U64_MAX && sum.bytes == CopiedBytes(items)
    ensures var es := Opening(reaped, total, totalBytes) + ItemsEvents(items, total);
            && Fold(s, es).run.Some? && Fold(s, es).run.value.completedBytes == sum.bytes
            && Fold(s, es + [RunComplete(sum)]).run.None? && Fold(s, es + [RunComplete(sum)]).lastRun == Some(sum)
  {
    var all := ItemsEvents(items, total);
    assert all[..|all|] == all;
    CountersExactThroughout(s, reaped, items, total, totalBytes, |all|);
    ItemsVerified(items, total);
    var es := Opening(reaped, total, totalBytes) + all;
    assert (es + [RunComplete(sum)])[..|es|] == es;
  }

  /* ----- interleaving with the cloud worker ----- */

  datatype Either = OfRun(run: RunEvent) | OfCloud(cloud: CloudEvent)

  function FoldMixed(s: Snapshot, es: seq<Either>): Snapshot {
    if es == [] then s
    else
      var t := FoldMixed(s, es[..|es| - 1]);
      match es[|es| - 1]
      case OfRun(e) => ApplyRun(t, e)
      case OfCloud(e) => ApplyCloud(t, e)
  }

  function RunPart(es: seq<Either>): seq<RunEvent> {
    if es == [] then []
    else RunPart(es[..|es| - 1]) + if es[|es| - 1].OfRun? then [es[|es| - 1].run] else []
  }

  lemma RunDependsOnRun(s: Snapshot, t: Snapshot, e: RunEvent)
    requires s.run == t.run
    ensures ApplyRun(s, e).run == ApplyRun(t, e).run
  {
  }

  lemma CloudLeavesRun(s: Snapshot, e: CloudEvent)
    ensures ApplyCloud(s, e).run == s.run
  {
  }

  // Uploads going on meanwhile never disturb the counters of the run.
  lemma {:induction false} CloudEventsDoNotDisturb(s: Snapshot, es: seq<Either>)
    ensures FoldMixed(s, es).run == Fold(s, RunPart(es)).run
  {
    if es != [] {
      var n := |es| - 1;
      CloudEventsDoNotDisturb(s, es[..n]);
      var t := FoldMixed(s, es[..n]);
      match es[n] {
        case OfRun(e) =>
          assert RunPart(es) == RunPart(es[..n]) + [e];
          FoldConcat(s, RunPart(es[..n]), [e]);
          assert [e][..0] == [];
          RunDependsOnRun(t, Fold(s, RunPart(es[..n])), e);
        case OfCloud(e) =>
          assert RunPart(es) == RunPart(es[..n]);
          CloudLeavesRun(t, e);
      }
    }
  }
}
