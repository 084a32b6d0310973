/**
  The snapshot the UI shows and the reducers that fold events into it
  (app_state.rs). CloudUi and RunTrace state what the counters then mean.
 */
module AppStateModule {
  import opened Wrappers

  datatype Status = Idle | Working | Error

  datatype RunProgress = RunProgress(filesDone: nat, filesTotal: nat, bytesDone: nat, bytesTotal: nat,
                                     currentFile: Option<string>, completedBytes: nat)

  datatype Uploading = Uploading(file: string, uploaded: nat, total: nat)

  datatype CloudState = CloudState(configured: bool, pending: nat, failed: nat, uploading: Option<Uploading>)

  datatype Summary = Summary(copied: nat, skipped: nat, failed: nat, bytes: nat)

  datatype Snapshot = Snapshot(status: Status, run: Option<RunProgress>, lastRun: Option<Summary>,
                               cloud: CloudState, message: Option<string>)

  datatype RunEvent =
    | CardDetected
    | Scanned(newFiles: nat, totalBytes: nat)
    | InsufficientSpace(need: nat, have: nat)
    | Copying(file: string, index: nat, total: nat)
    | Progress(file: string, copied: nat, total: nat)
    | Verified(file: string)
    | Skipped(file: string)
    | Failed(file: string, error: string)
    | CloudQueued(file: string)
    | CardFileDeleted(file: string)
    | CardDeleteFailed(file: string, error: string)
    | RunComplete(summary: Summary)
    | Ejected

  datatype CloudEvent =
    | UploadStarted(file: string, uploaded: nat, total: nat)
    | Mirrored(file: string)
    | CloudFailed(file: string, error: string)
    | Freed(file: string)
    | FreeFailed(file: string, error: string)

  const STARTED := RunProgress(0, 0, 0, 0, None, 0)
  const BLANK := Snapshot(Idle, None, None, CloudState(false, 0, 0, None), None)

  function SatAdd(a: nat, b: nat): nat {
    if a + b > U64_MAX then U64_MAX else a + b
  }

  function SatPred(n: nat): nat {
    if n == 0 then 0 else n - 1
  }

  function RunOr(r: Option<RunProgress>): RunProgress {
    if r.Some? then r.value else STARTED
  }

  function ApplyRun(s: Snapshot, ev: RunEvent): Snapshot {
    match ev
    case Scanned(n, bytes) =>
      s.(run := Some(RunProgress(0, n, 0, bytes, None, 0)), status := Working, message := None)
    case CardDetected => s.(run := Some(RunOr(s.run)))
    case Copying(file, index, _) =>
      var r := RunOr(s.run);
      s.(run := Some(r.(currentFile := Some(file), filesDone := SatPred(index), bytesDone := r.completedBytes)),
         status := Working)
    case Progress(_, copied, _) =>
      if s.run.None? then s
      else s.(run := Some(s.run.value.(bytesDone := SatAdd(s.run.value.completedBytes, copied))))
    case Verified(_) =>
      if s.run.None? then s
      else
        var r := s.run.value;
        s.(run := Some(r.(filesDone := Min(r.filesDone + 1, r.filesTotal), completedBytes := r.bytesDone)))
    case Failed(file, error) => s.(status := Error, message := Some(file + ": " + error))
    case InsufficientSpace(_, _) => s.(status := Error, message := Some("insufficient space"))
    case RunComplete(sum) =>
      s.(lastRun := Some(sum), run := None, status := if sum.failed > 0 then Error else Idle)
    case CloudQueued(_) => s.(cloud := s.cloud.(pending := s.cloud.pending + 1, configured := true))
    case CardDeleteFailed(file, error) => s.(message := Some(file + ": card delete-after-verify failed: " + error))
    case _ => s
  }

  function ClearSlot(c: CloudState, file: string): CloudState {
    if c.uploading.Some? && c.uploading.value.file == file then c.(uploading := None) else c
  }

  function ApplyCloud(s: Snapshot, ev: CloudEvent): Snapshot {
    match ev
    case UploadStarted(file, uploaded, total) => s.(cloud := s.cloud.(uploading := Some(Uploading(file, uploaded, total))))
    case Mirrored(file) => s.(cloud := ClearSlot(s.cloud, file).(pending := SatPred(s.cloud.pending)))
    case CloudFailed(file, error) =>
      s.(cloud := ClearSlot(s.cloud, file).(pending := SatPred(s.cloud.pending), failed := s.cloud.failed + 1),
         status := Error, message := Some(file + ": " + error))
    case Freed(file) => s.(message := Some("freed card space: " + file))
    case FreeFailed(file, error) => s.(message := Some(file + ": card delete-after-verify failed: " + error))
  }

  // A hard error: no RunComplete will come.
  function ApplyRunError(s: Snapshot, msg: string): Snapshot {
    s.(run := None, status := Error, message := Some(msg))
  }

  // The object the reducers mutate, each proved against its function above.
  class AppState {
    var status: Status
    var run: Option<RunProgress>
    var lastRun: Option<Summary>
    var cloud: CloudState
    var message: Option<string>

    constructor ()
      ensures Value() == BLANK
    {
      status, run, lastRun, cloud, message := Idle, None, None, CloudState(false, 0, 0, None), None;
    }

    function Value(): Snapshot
      reads this
    {
      Snapshot(status, run, lastRun, cloud, message)
    }

    method ApplyRunEvent(ev: RunEvent)
      modifies this
      ensures Value() == ApplyRun(old(Value()), ev)
    {
      match ev {
        case Scanned(n, bytes) =>
          run := Some(RunProgress(0, n, 0, bytes, None, 0));
          status, message := Working, None;
        case CardDetected =>
          run := Some(RunOr(run));
        case Copying(file, index, _) =>
          var r := RunOr(run);
          r := r.(currentFile := Some(file));
          r := r.(filesDone := SatPred(index));
          r := r.(bytesDone := r.completedBytes);
          run, status := Some(r), Working;
        case Progress(_, copied, _) =>
          if run.Some? {
            run := Some(run.value.(bytesDone := SatAdd(run.value.completedBytes, copied)));
          }
        case Verified(_) =>
          if run.Some? {
            var r := run.value;
            r := r.(filesDone := Min(r.filesDone + 1, r.filesTotal));
            r := r.(completedBytes := r.bytesDone);
            run := Some(r);
          }
        case Failed(file, error) =>
          status, message := Error, Some(file + ": " + error);
        case InsufficientSpace(_, _) =>
          status, message := Error, Some("insufficient space");
        case RunComplete(sum) =>
          lastRun, run := Some(sum), None;
          status := if sum.failed > 0 then Error else Idle;
        case CloudQueued(_) =>
          cloud := cloud.(pending := cloud.pending + 1);
          cloud := cloud.(configured := true);
        case CardDeleteFailed(file, error) =>
          message := Some(file + ": card delete-after-verify failed: " + error);
        case _ =>
      }
    }

    method ApplyCloudEvent(ev: CloudEvent)
      modifies this
      ensures Value() == ApplyCloud(old(Value()), ev)
    {
      match ev {
        case UploadStarted(file, uploaded, total) =>
          cloud := cloud.(uploading := Some(Uploading(file, uploaded, total)));
        case Mirrored(file) =>
          if cloud.uploading.Some? && cloud.uploading.value.file == file {
            cloud := cloud.(uploading := None);
          }
          cloud := cloud.(pending := SatPred(cloud.pending));
        case CloudFailed(file, error) =>
          if cloud.uploading.Some? && cloud.uploading.value.file == file {
            cloud := cloud.(uploading := None);
          }
          cloud := cloud.(failed := cloud.failed + 1);
          cloud := cloud.(pending := SatPred(cloud.pending));
          status, message := Error, Some(file + ": " + error);
        case Freed(file) =>
          message := Some("freed card space: " + file);
        case FreeFailed(file, error) =>
          message := Some(file + ": card delete-after-verify failed: " + error);
      }
    }

    method ApplyError(msg: string)
      modifies this
      ensures Value() == ApplyRunError(old(Value()), msg)
    {
      run, status, message := None, Error, Some(msg);
    }
  }
}
