/** What both offloads share: configuration and the commit (transfer.rs). */
module Transfer {
  import opened Wrappers
  import opened Tables
  import opened LedgerModule
  import opened QueueSteps

  datatype MirrorMode = Off | Manual | Auto

  datatype Cloud = Cloud(destination: string, remoteRoot: string, mode: MirrorMode)

  datatype Config = Config(verify: bool, deleteAfterVerify: bool, includeProxies: bool, includeThumbnails: bool,
                           cloud: Option<Cloud>)

  function Mode(cfg: Config): MirrorMode {
    if cfg.cloud.Some? then cfg.cloud.value.mode else Off
  }

  predicate Mirrors(cfg: Config) {
    Mode(cfg) != Off
  }

  // Delete the original right after the local verify? Under Auto it has to
  // wait for the upload.
  predicate ShouldDeleteCard(localVerified: bool, mode: MirrorMode) {
    localVerified && mode != Auto
  }

  function TrimEndSlashes(s: string): string {
    if s != [] && s[|s| - 1] == '/' then TrimEndSlashes(s[..|s| - 1]) else s
  }

  function TrimStartSlashes(s: string): string {
    if s != [] && s[0] == '/' then TrimStartSlashes(s[1..]) else s
  }

  function RemotePathFor(root: string, destName: string): string {
    var r, n := TrimEndSlashes(root), TrimStartSlashes(destName);
    if r == [] then n else r + "/" + n
  }

  function SpecFor(cfg: Config, destName: string, size: nat, cardSrc: Option<string>): Option<JobSpec> {
    if Mirrors(cfg) then
      Some(JobSpec(cfg.cloud.value.destination, RemotePathFor(cfg.cloud.value.remoteRoot, destName), size, cardSrc))
    else None
  }

  // A file to be committed: its key, where it lies, the name its remote path is
  // formed from, its hash, and the card file it was copied from.
  datatype Import = Import(key: Key, dest: string, remoteName: string, hash: Option<Digest>, cardSrc: Option<string>)

  function UploadOf(cfg: Config, im: Import): Option<JobSpec> {
    SpecFor(cfg, im.remoteName, im.key.size, im.cardSrc)
  }

  // Record the file and, under Auto or Manual, enqueue its upload, atomically.
  // In the shared queue this is one event; `dir` says that the caller owes a
  // marker for that camera directory, `bytes` what the file holds, `mounted`
  // which card is in place.
  method CommitImported(ledger: Ledger, cfg: Config, im: Import, ghost dir: Option<string>, ghost bytes: Bytes,
                        ghost mounted: map<string, Bytes>, ghost h: Story)
    returns (id: nat, ghost h': Story)
    requires Records(h, ledger.Value())
    modifies ledger`imported, ledger`jobs
    ensures (ledger.imported, id) == Upsert(old(ledger.imported), im.key, im.dest, im.hash)
    ensures ledger.jobs == old(ledger.jobs) + if Mirrors(cfg) then [NewJob(id, im.dest, UploadOf(cfg, im).value)] else []
    ensures Continues(h, h') && Records(h', ledger.Value())
    ensures Enters(h, h', Entered(im.key, im.dest, im.hash, UploadOf(cfg, im), dir, bytes, mounted))
    ensures Mirrors(cfg) && dir.Some? ==> MarkerRow(im.key, dir.value, id) in Final(h').q.owed
  {
    ghost var c := Entered(im.key, im.dest, im.hash, UploadOf(cfg, im), dir, bytes, mounted);
    CommitStep(h, ledger.Value(), c);
    h' := Then(h, CommitEvents(c));
    id := ledger.RecordImportedWithCloudJob(im.key, im.dest, im.hash, UploadOf(cfg, im));
  }

  // Names that are one path component never share a remote path.
  lemma RemotePathInjective(root: string, a: string, b: string)
    requires a != [] && b != [] && a[0] != '/' && b[0] != '/'
    ensures RemotePathFor(root, a) == RemotePathFor(root, b) <==> a == b
  {
    var r := TrimEndSlashes(root);
    if r != [] && a != b {
      assert (r + "/" + a)[|r| + 1..] == a && (r + "/" + b)[|r| + 1..] == b;
    }
  }
}
