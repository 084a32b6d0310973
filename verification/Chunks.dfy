/**
  Chunked uploads (cloud/nextcloud.rs): the part size, the tiling of the file,
  the part names, and an upload that is resumed from a server listing.
 */
module Chunks {
  import opened Wrappers
  import opened Digits

  const CHUNK_SIZE: nat := 5 * 1024 * 1024
  const MAX_CHUNKS: nat := 10_000

  function DivCeil(a: nat, b: nat): nat
    requires b > 0
  {
    a / b + if a % b == 0 then 0 else 1
  }

  lemma CeilExceeds(a: nat, b: nat, n: nat)
    requires b > 0
    ensures DivCeil(a, b) > n <==> a > n * b
  {
    var q := a / b;
    assert a == q * b + a % b;
    if q < n {
      MultipleApart(q, n, b);
    } else if n < q {
      MultipleApart(n, q, b);
    }
  }

  function Doubled(k: nat): (r: nat)
    ensures r >= CHUNK_SIZE
  {
    if k == 0 then CHUNK_SIZE else 2 * Doubled(k - 1)
  }

  // `size` is the least doubling of 5 MiB that cuts `total` into at most 10000 parts.
  ghost predicate LeastSize(total: nat, size: nat) {
    exists k: nat :: size == Doubled(k) && DivCeil(total, size) <= MAX_CHUNKS && TooSmallBelow(total, k)
  }

  predicate TooSmallBelow(total: nat, k: nat) {
    forall i :: 0 <= i < k ==> DivCeil(total, Doubled(i)) > MAX_CHUNKS
  }

  // No u64 overflow on the way, and the number of parts fits its u32.
  method PickChunkSize(total: nat) returns (size: nat)
    requires total <= U64_MAX
    ensures LeastSize(total, size)
    ensures CHUNK_SIZE <= size <= U64_MAX && DivCeil(total, size) <= MAX_CHUNKS
  {
    size := CHUNK_SIZE;
    ghost var k := 0;
    while DivCeil(total, size) > MAX_CHUNKS
      invariant size == Doubled(k) && size <= U64_MAX && TooSmallBelow(total, k)
      decreases total - size
    {
      CeilExceeds(total, size, MAX_CHUNKS);
      size := size * 2;
      k := k + 1;
    }
  }

  lemma {:induction false} DoubledGrows(i: nat, k: nat)
    requires i < k
    ensures Doubled(i) < Doubled(k)
  {
    if i < k - 1 {
      DoubledGrows(i, k - 1);
    }
  }

  // No doubling that is small enough in parts is smaller in size ...
  lemma {:induction false} LeastSizeIsLeast(total: nat, size: nat, k: nat)
    requires LeastSize(total, size) && DivCeil(total, Doubled(k)) <= MAX_CHUNKS
    ensures size <= Doubled(k)
  {
    var m: nat :| size == Doubled(m) && TooSmallBelow(total, m);
    if m < k {
      DoubledGrows(m, k);
    }
  }

  // ... so the size is unique, and every attempt cuts the file the same way.
  lemma {:induction false} LeastSizeUnique(total: nat, a: nat, b: nat)
    requires LeastSize(total, a) && LeastSize(total, b)
    ensures a == b
  {
    var i: nat :| a == Doubled(i) && DivCeil(total, a) <= MAX_CHUNKS;
    var j: nat :| b == Doubled(j) && DivCeil(total, b) <= MAX_CHUNKS;
    LeastSizeIsLeast(total, a, j);
    LeastSizeIsLeast(total, b, i);
  }

  /* ----- the tiling ----- */

  function PartCount(total: nat, size: nat): nat
    requires size > 0
  {
    if DivCeil(total, size) == 0 then 1 else DivCeil(total, size)
  }

  function Offset(i: nat, size: nat): nat
    requires i >= 1
  {
    (i - 1) * size
  }

  // Parts 1..n lie inside the file, each but the last is full, none is empty
  // (but the single part of an empty file), and each starts where the one
  // before ends.
  lemma {:induction false} PartsTile(total: nat, size: nat, i: nat)
    requires size > 0 && 1 <= i <= PartCount(total, size)
    ensures Offset(i, size) <= total && (total > 0 ==> Offset(i, size) < total)
    ensures i < PartCount(total, size) ==> Offset(i, size) + size == Offset(i + 1, size) <= total
    ensures i == PartCount(total, size) ==> total - Offset(i, size) <= size
  {
    var n := PartCount(total, size);
    CeilExceeds(total, size, i - 1);
    CeilExceeds(total, size, i);
    assert i * size == (i - 1) * size + size;
    if total == 0 {
      assert total / size == 0 && total % size == 0;
    }
  }

  // What `put_chunk` reads for part `i`.
  function Slice(file: Bytes, size: nat, i: nat): (r: Bytes)
    requires size > 0 && 1 <= i <= PartCount(|file|, size)
    ensures PartsTiled(file, size, i, r)
  {
    PartsTile(|file|, size, i);
    var from := Offset(i, size);
    file[from..from + Min(size, |file| - from)]
  }

  predicate PartsTiled(file: Bytes, size: nat, i: nat, r: Bytes)
    requires size > 0 && 1 <= i <= PartCount(|file|, size)
  {
    Offset(i, size) <= |file| && |r| == Min(size, |file| - Offset(i, size)) && r <= file[Offset(i, size)..]
  }

  // The server's MOVE: the parts in order of their numbers.
  function Assemble(parts: map<nat, Bytes>, n: nat): Bytes {
    if n == 0 then [] else Assemble(parts, n - 1) + if n in parts then parts[n] else []
  }

  predicate FullUpTo(parts: map<nat, Bytes>, file: Bytes, size: nat, k: nat)
    requires size > 0 && k <= PartCount(|file|, size)
  {
    forall i :: 1 <= i <= k ==> i in parts && parts[i] == Slice(file, size, i)
  }

  // How far the first `k` parts reach.
  function Reach(total: nat, size: nat, k: nat): nat
    requires size > 0
  {
    Min(k * size, total)
  }

  lemma ReachOfPart(total: nat, size: nat, k: nat)
    requires size > 0 && 1 <= k <= PartCount(total, size)
    ensures Reach(total, size, k - 1) == Offset(k, size) <= total
    ensures Reach(total, size, k) == Offset(k, size) + Min(size, total - Offset(k, size))
    ensures k == PartCount(total, size) ==> Reach(total, size, k) == total
  {
    PartsTile(total, size, k);
    assert k * size == (k - 1) * size + size;
  }

  lemma PrefixThenPart(file: Bytes, from: nat, part: Bytes)
    requires from <= |file| && part <= file[from..]
    ensures file[..from] + part == file[..from + |part|]
  {
  }

  // Part `k` continues the file from where the parts before it end.
  lemma SliceReaches(file: Bytes, size: nat, k: nat)
    requires size > 0 && 1 <= k <= PartCount(|file|, size)
    ensures Reach(|file|, size, k - 1) <= |file| && Reach(|file|, size, k) <= |file|
    ensures file[..Reach(|file|, size, k - 1)] + Slice(file, size, k) == file[..Reach(|file|, size, k)]
  {
    ReachOfPart(|file|, size, k);
    PrefixThenPart(file, Offset(k, size), Slice(file, size, k));
  }

  lemma {:induction false} AssembleReaches(parts: map<nat, Bytes>, file: Bytes, size: nat, k: nat)
    requires size > 0 && k <= PartCount(|file|, size) && FullUpTo(parts, file, size, k)
    ensures Reach(|file|, size, k) <= |file| && Assemble(parts, k) == file[..Reach(|file|, size, k)]
  {
    if k > 0 {
      AssembleReaches(parts, file, size, k - 1);
      SliceReaches(file, size, k);
      assert parts[k] == Slice(file, size, k);
    }
  }

  // Full parts 1..n, put together, are the file.
  lemma AssembleIsFile(parts: map<nat, Bytes>, file: Bytes, size: nat)
    requires size > 0 && FullUpTo(parts, file, size, PartCount(|file|, size))
    ensures Assemble(parts, PartCount(|file|, size)) == file
  {
    var n := PartCount(|file|, size);
    AssembleReaches(parts, file, size, n);
    ReachOfPart(|file|, size, n);
  }

  /* ----- part names ----- */

  function ChunkName(n: nat): string {
    Padded(n, 5)
  }

  // The part-number rule of the listing: five characters that parse as a u32.
  function PartNumber(tail: string): Option<nat> {
    if |tail| == 5 then Parse(tail, U32_MAX) else None
  }

  lemma ChunkNames(m: nat, n: nat)
    requires m <= MAX_CHUNKS && n <= MAX_CHUNKS
    ensures PartNumber(ChunkName(n)) == Some(n)
    ensures LexLess(ChunkName(m), ChunkName(n)) <==> m < n
  {
    assert Pow10(5) == 100_000 by { assert Pow10(2) == 100; assert Pow10(4) == 10_000; }
    DecimalLength(n, 5);
    DecimalLength(m, 5);
    ValueOfPadded(n, 5);
    ValueOfPadded(m, 5);
    assert IsDigit(ChunkName(n)[0]);
    LexIsNumeric(ChunkName(m), ChunkName(n));
  }

  /* ----- the upload ----- */

  // The upload directory of one upload id. The id is derived from the job, its
  // remote path and its size, so every attempt of a job finds the same one.
  class UploadDir {
    var parts: map<nat, Bytes>
    var assembled: Option<Bytes>

    constructor ()
      ensures parts == map[] && assembled == None
    {
      parts, assembled := map[], None;
    }

    // PROPFIND. The server may have expired the directory in the meantime.
    method List() returns (ok: bool, present: map<nat, nat>)
      modifies this`parts
      ensures parts == old(parts) || parts == map[]
      ensures ok ==> present == map i | i in parts :: |parts[i]|
    {
      var expired: bool := *;
      if expired {
        parts := map[];
      }
      ok := *;
      present := if ok then map i | i in parts :: |parts[i]| else map[];
    }

    // PUT of a part. A broken transfer may leave nothing, an initial piece, or
    // all of it.
    method Put(i: nat, body: Bytes) returns (ok: bool)
      modifies this`parts
      ensures ok ==> parts == old(parts)[i := body]
      ensures !ok ==> parts == old(parts) || exists k :: 0 <= k <= |body| && parts == old(parts)[i := body[..k]]
    {
      var landed, kept: int := *, *;
      assert body[..|body|] == body;
      if landed > 0 {
        parts := parts[i := body];
        return true;
      }
      if landed == 0 && 0 <= kept <= |body| {
        parts := parts[i := body[..kept]];
      }
      ok := false;
    }

    // MOVE of `.file`: consumes the directory; the reply may get lost.
    method Move(n: nat) returns (ok: bool)
      modifies this
      ensures ok ==> assembled == Some(Assemble(old(parts), n)) && parts == map[]
      ensures !ok ==> (assembled == old(assembled) && parts == old(parts))
                      || (assembled == Some(Assemble(old(parts), n)) && parts == map[])
    {
      var moved, replied: bool := *, *;
      if moved {
        assembled := Some(Assemble(parts, n));
        parts := map[];
      }
      ok := moved && replied;
    }
  }

  // Every stored part is a piece, from its start, of the slice of that number.
  predicate PartsOk(parts: map<nat, Bytes>, file: Bytes, size: nat)
    requires size > 0
  {
    forall i :: i in parts ==> 1 <= i <= PartCount(|file|, size) && parts[i] <= Slice(file, size, i)
  }

  ghost predicate DirOk(parts: map<nat, Bytes>, file: Bytes) {
    forall size :: size > 0 && LeastSize(|file|, size) ==> PartsOk(parts, file, size)
  }

  predicate Increasing(progress: seq<nat>) {
    forall i, j :: 0 <= i < j < |progress| ==> progress[i] < progress[j]
  }

  // The listing still describes the parts from `i` on.
  predicate ListedFrom(present: map<nat, nat>, parts: map<nat, Bytes>, i: nat) {
    forall k :: k in present && k >= i ==> k in parts && |parts[k]| == present[k]
  }

  // One turn of the loop: skip the part if the listing shows it complete.
  method SendPart(dir: UploadDir, file: Bytes, size: nat, i: nat, present: map<nat, nat>) returns (ok: bool, len: nat)
    requires size > 0 && 1 <= i <= PartCount(|file|, size)
    requires PartsOk(dir.parts, file, size) && FullUpTo(dir.parts, file, size, i - 1) && ListedFrom(present, dir.parts, i)
    modifies dir`parts
    ensures PartsOk(dir.parts, file, size) && len == Min(size, |file| - Offset(i, size))
    ensures ok ==> FullUpTo(dir.parts, file, size, i) && ListedFrom(present, dir.parts, i + 1)
  {
    var body := Slice(file, size, i);
    len := |body|;
    if i in present && present[i] == len {
      assert dir.parts[i] == body;
      ok := true;
    } else {
      ok := dir.Put(i, body);
    }
  }

  // Cumulative counts so far, the last of them `uploaded`.
  predicate Ticking(progress: seq<nat>, uploaded: nat, strict: bool) {
    && (strict ==> Increasing(progress))
    && (forall k :: 0 <= k < |progress| ==> progress[k] <= uploaded)
    && (progress != [] ==> progress[|progress| - 1] == uploaded)
    && (progress == [] ==> uploaded == 0)
  }

  lemma Tick(progress: seq<nat>, uploaded: nat, strict: bool, len: nat)
    requires Ticking(progress, uploaded, strict) && (strict ==> len > 0)
    ensures Ticking(progress + [uploaded + len], uploaded + len, strict)
  {
  }

  // One attempt, which may die at any request. Whatever earlier attempts left
  // behind, if this one reaches the MOVE then it assembles exactly the file.
  method PutChunked(dir: UploadDir, file: Bytes) returns (ok: bool, progress: seq<nat>)
    requires |file| <= U64_MAX && DirOk(dir.parts, file)
    modifies dir
    ensures DirOk(dir.parts, file)
    ensures dir.assembled == old(dir.assembled) || dir.assembled == Some(file)
    ensures ok ==> dir.assembled == Some(file) && progress != [] && Ticking(progress, |file|, file != [])
    ensures file != [] ==> Increasing(progress)
  {
    progress := [];
    var total := |file|;
    var listed, present := dir.List();
    if !listed {
      return false, [];
    }
    var size := PickChunkSize(total);
    OnlySize(dir.parts, file, size);
    var n := PartCount(total, size);
    var uploaded := 0;
    for i := 1 to n + 1
      invariant dir.assembled == old(dir.assembled)
      invariant PartsOk(dir.parts, file, size) && FullUpTo(dir.parts, file, size, i - 1)
      invariant ListedFrom(present, dir.parts, i)
      invariant uploaded == (if i <= n then Offset(i, size) else total)
      invariant Ticking(progress, uploaded, file != []) && (i > 1 ==> progress != [])
    {
      PartsTile(total, size, i);
      var stored, len := SendPart(dir, file, size, i, present);
      if !stored {
        OnlySize(dir.parts, file, size);
        return false, progress;
      }
      Tick(progress, uploaded, file != [], len);
      uploaded := uploaded + len;
      progress := progress + [uploaded];
    }
    AssembleIsFile(dir.parts, file, size);
    ok := dir.Move(n);
    OnlySize(dir.parts, file, size);
  }

  lemma OnlySize(parts: map<nat, Bytes>, file: Bytes, size: nat)
    requires size > 0 && LeastSize(|file|, size)
    ensures DirOk(parts, file) <==> PartsOk(parts, file, size)
  {
  }

  // Any number of interrupted attempts, then whatever comes: the remote object
  // never holds anything but the file.
  method UploadWithRetries(dir: UploadDir, file: Bytes, attempts: nat) returns (ok: bool)
    requires |file| <= U64_MAX && dir.parts == map[] && dir.assembled == None
    modifies dir
    ensures dir.assembled == None || dir.assembled == Some(file)
    ensures ok ==> dir.assembled == Some(file)
  {
    ok := false;
    for k := 0 to attempts
      invariant DirOk(dir.parts, file) && !ok
      invariant dir.assembled == None || dir.assembled == Some(file)
    {
      var progress;
      ok, progress := PutChunked(dir, file);
      if ok {
        return;
      }
    }
  }
}
