/**
  The resumable wired download (wired/client.rs): ranged requests into a `.part`
  file, against a camera that may answer anything, break off anywhere, or send
  the whole file again, on a disk whose writes and removals may fail.
 */
module Download {
  import opened Wrappers
  import opened Digits

  datatype Reply =
    | NoAnswer
    | Answer(status: nat, rangeStart: Option<nat>, body: Bytes, complete: bool)

  // What a camera holding `file` may send for `Range: bytes=<offset>-`: a 200
  // body is the file from its start, a 206 body is the file from the start it
  // declares, which is the requested offset when it asked for the whole file
  // (section 15.3.7 of RFC 9110). Any body may stop short, cleanly or not.
  predicate Honest(file: Bytes, offset: nat, r: Reply) {
    r.Answer? ==>
      && (r.status == 200 ==> r.body <= file)
      && (r.status == 206 && offset > 0 && r.rangeStart.Some? ==>
            r.rangeStart.value <= |file| && r.body <= file[r.rangeStart.value..])
      && (r.status == 206 && offset == 0 ==> r.body <= file)
  }

  class Camera {
    const file: Bytes
    var script: seq<Reply> // its next answers, whatever they are; after that it is honest

    constructor (file: Bytes, script: seq<Reply>)
      ensures this.file == file && this.script == script
    {
      this.file, this.script := file, script;
    }

    method Get(offset: nat) returns (r: Reply)
      modifies this
      ensures if old(script) == [] then script == [] && Honest(file, offset, r)
              else r == old(script)[0] && script == old(script)[1..]
    {
      if script != [] {
        r, script := script[0], script[1..];
        return;
      }
      var dead, complete, declared: bool := *, *, *;
      var status, start, len: int := *, *, *;
      if dead || status < 0 {
        return NoAnswer;
      }
      start := if start < 0 || start > |file| then 0 else start;
      start := if status == 206 && offset > 0 && declared then start else 0;
      len := if len < 0 || len > |file| - start then 0 else len;
      assert file[0..] == file;
      r := Answer(status, if declared then Some(start) else None, file[start..start + len], complete);
    }
  }

  // A `.part` that a download may find: absent, too long, exactly full (not
  // trusted whatever it holds), or a prefix of the camera's file.
  predicate Usable(part: Option<Bytes>, file: Bytes, size: nat) {
    part.Some? && |part.value| < size ==> part.value <= file
  }

  // ... and leave behind when it has touched it.
  predicate Clean(part: Option<Bytes>, file: Bytes) {
    part.Some? ==> part.value <= file
  }

  datatype Outcome = Complete(total: nat, hash: Digest) | Broken(retryable: bool)

  // `is_retryable` on the status of an answer.
  predicate RetryableStatus(status: nat) {
    status >= 500 || status == 429 || status == 408
  }

  class PartFile {
    const reliable: bool // no write and no removal fails
    var content: Option<Bytes>

    constructor (content: Option<Bytes>, reliable: bool)
      ensures this.content == content && this.reliable == reliable
    {
      this.content, this.reliable := content, reliable;
    }

    // Best effort: the caller ignores a failure.
    method Remove()
      modifies this
      ensures content == None || content == old(content)
      ensures reliable ==> content == None
    {
      var ok: bool := *;
      if ok || reliable {
        content := None;
      }
    }

    method Truncate() returns (ok: bool)
      modifies this
      ensures content == if ok then Some([]) else old(content)
      ensures reliable ==> ok
    {
      ok := *;
      ok := ok || reliable;
      if ok {
        content := Some([]);
      }
    }

    // A failed write leaves any initial part of the chunk behind.
    method Append(chunk: Bytes) returns (ok: bool)
      requires content.Some?
      modifies this
      ensures ok ==> content == Some(old(content).value + chunk)
      ensures exists n :: 0 <= n <= |chunk| && content == Some(old(content).value + chunk[..n])
      ensures reliable ==> ok
    {
      var n: int := *;
      n := if 0 <= n <= |chunk| && !reliable then n else |chunk|;
      content := Some(content.value + chunk[..n]);
      ok := n == |chunk|;
      assert chunk[..|chunk|] == chunk;
    }
  }

  lemma PrefixExtends(file: Bytes, base: Bytes, body: Bytes, k: nat)
    requires base <= file && body <= file[|base|..] && k <= |body|
    ensures base + body[..k] <= file
  {
  }

  // Request until an answer is accepted; `resume` tells that its body continues
  // the `.part`. One restart from offset 0 is allowed. The start that a 206
  // declares is looked at only when it was asked to resume.
  method Connect(camera: Camera, part: PartFile, offset: nat) returns (r: Reply, resume: bool, fail: Option<bool>)
    requires offset > 0 ==> part.content.Some? && |part.content.value| == offset
    modifies part, camera
    ensures part.content == None || part.content == old(part.content)
    ensures fail.None? ==> r.Answer? && (r.status == 200 || r.status == 206)
    ensures fail.None? && resume ==>
              offset > 0 && part.content == old(part.content) && r.status == 206 && r.rangeStart == Some(offset)
    ensures old(camera.script) == [] ==> camera.script == []
    ensures old(camera.script) == [] && fail.None? && resume ==> offset <= |camera.file| && r.body <= camera.file[offset..]
    ensures old(camera.script) == [] && fail.None? && !resume ==> r.body <= camera.file
    ensures old(camera.script) != [] && Accepts(old(camera.script)[0], offset) ==>
              fail.None? && r == old(camera.script)[0] && (resume <==> r.status == 206 && offset > 0)
  {
    var already, restarted := offset, false;
    resume, fail := false, None;
    while true
      invariant part.content == None || part.content == old(part.content)
      invariant already == (if restarted then 0 else offset)
      invariant !restarted ==> part.content == old(part.content) && camera.script == old(camera.script)
      invariant old(camera.script) == [] ==> camera.script == []
      invariant old(camera.script) != [] && Accepts(old(camera.script)[0], offset) ==> !restarted
      decreases !restarted
    {
      r := camera.Get(already);
      if r.NoAnswer? {
        return r, false, Some(true);
      }
      if r.status == 416 && !restarted {
        restarted, already := true, 0;
        part.Remove();
        continue;
      }
      if r.status != 200 && r.status != 206 {
        return r, false, Some(RetryableStatus(r.status));
      }
      if r.status == 206 && already > 0 {
        if r.rangeStart == Some(already) {
          return r, true, None;
        }
        if restarted {
          return r, false, Some(false);
        }
        restarted, already := true, 0;
        part.Remove();
        continue;
      }
      return r, false, None;
    }
  }

  // An answer that is taken at once.
  predicate Accepts(r: Reply, offset: nat) {
    r.Answer? && (r.status == 200 || (r.status == 206 && (offset == 0 || r.rangeStart == Some(offset))))
  }

  // Stream the body chunk by chunk behind `seed`, hashing exactly what is on disk.
  method Stream(part: PartFile, seed: Bytes, r: Reply) returns (out: Outcome, progress: seq<nat>)
    requires part.content == Some(seed) && r.Answer?
    modifies part
    ensures PartlyLanded(seed, r.body, part.content)
    ensures out.Complete? ==> r.complete && part.content == Some(seed + r.body)
    ensures out.Complete? ==> out.total == |seed + r.body| && out.hash == Digest(seed + r.body)
    ensures part.reliable ==> part.content == Some(seed + r.body) && (if r.complete then out.Complete? else out == Broken(true))
    ensures forall i, j :: 0 <= i <= j < |progress| ==> progress[i] <= progress[j]
    ensures forall i :: 0 <= i < |progress| ==> |seed| <= progress[i] <= |part.content.value|
    ensures out.Complete? ==> progress == [] || progress[|progress| - 1] == out.total
  {
    var hasher, total, sent := seed, |seed|, 0;
    progress := [];
    assert seed + r.body[..0] == seed;
    while sent < |r.body|
      invariant 0 <= sent <= |r.body| && total == |seed| + sent
      invariant part.content == Some(seed + r.body[..sent]) && hasher == seed + r.body[..sent]
      invariant forall i, j :: 0 <= i <= j < |progress| ==> progress[i] <= progress[j]
      invariant forall i :: 0 <= i < |progress| ==> |seed| <= progress[i] <= total
      invariant progress == [] || progress[|progress| - 1] == total
      decreases |r.body| - sent
    {
      var n: int := *;
      n := if 1 <= n <= |r.body| - sent then n else |r.body| - sent;
      var chunk := r.body[sent..sent + n];
      ghost var before := part.content.value;
      var ok := part.Append(chunk);
      if !ok {
        ghost var k :| 0 <= k <= n && part.content == Some(before + chunk[..k]);
        assert before + chunk[..k] == seed + r.body[..sent + k];
        var stalled: bool := *; // a stalled write is retryable, a failed one is not
        return Broken(stalled), progress;
      }
      assert before + chunk == seed + r.body[..sent + n];
      hasher := hasher + chunk;
      total := total + n;
      sent := sent + n;
      progress := progress + [total];
    }
    assert r.body[..sent] == r.body;
    if !r.complete {
      return Broken(true), progress;
    }
    out := Complete(total, Digest(hasher));
  }

  // What an accepted answer may leave: its body, or the start of it, behind `seed`.
  predicate PartlyLanded(seed: Bytes, body: Bytes, content: Option<Bytes>) {
    exists n :: 0 <= n <= |body| && content == Some(seed + body[..n])
  }

  // The answer that an attempt accepted: its body lands behind `seed`, which is
  // empty or what the `.part` held.
  datatype Accepted = Accepted(seed: Bytes, body: Bytes)

  // The `.part` after an attempt, whatever the camera is.
  predicate Lands(before: Option<Bytes>, acc: Option<Accepted>, after: Option<Bytes>) {
    match acc
    case None => after == before || after == None
    case Some(a) => (a.seed == [] || before == Some(a.seed)) && PartlyLanded(a.seed, a.body, after)
  }

  // A body lands a prefix of the file exactly when it continues a prefix with
  // what follows there.
  lemma {:induction false} LandsRightIff(file: Bytes, seed: Bytes, body: Bytes)
    ensures seed + body <= file <==> seed <= file && body <= file[|seed|..]
  {
    if seed + body <= file {
      assert file[..|seed + body|] == seed + body;
      assert forall i :: 0 <= i < |seed| ==> seed[i] == (seed + body)[i];
      assert forall i :: 0 <= i < |body| ==> body[i] == (seed + body)[|seed| + i];
    }
  }

  lemma CleanLanding(file: Bytes, seed: Bytes, body: Bytes, content: Option<Bytes>)
    requires PartlyLanded(seed, body, content) && seed <= file && body <= file[|seed|..]
    ensures Clean(content, file)
  {
    var n :| 0 <= n <= |body| && content == Some(seed + body[..n]);
    PrefixExtends(file, seed, body, n);
  }

  // One attempt. What it leaves is the old `.part`, nothing, or an accepted body
  // behind the seed; on success all of it, with its length and hash, which is a
  // prefix of the camera's file exactly if the body continues the seed as the
  // file does. With an honest camera and a usable `.part` it always is.
  method Attempt(camera: Camera, size: nat, part: PartFile) returns (out: Outcome, progress: seq<nat>, ghost acc: Option<Accepted>)
    modifies part, camera
    ensures Lands(old(part.content), acc, part.content)
    ensures out.Complete? ==> acc.Some? && part.content == Some(acc.value.seed + acc.value.body)
                              && out.total == |part.content.value| && out.hash == Digest(part.content.value)
    ensures out.Complete? ==> (part.content.value <= camera.file
                               <==> acc.value.seed <= camera.file && acc.value.body <= camera.file[|acc.value.seed|..])
    ensures old(camera.script) == [] ==> camera.script == []
    ensures old(camera.script) == [] && Usable(old(part.content), camera.file, size) ==>
              && (part.content == old(part.content) || Clean(part.content, camera.file))
              && (out.Complete? ==> part.content.value <= camera.file)
    ensures part.reliable && Takes(old(camera.script), old(part.content), size) ==>
              && part.content == Some(SeedFor(old(camera.script)[0], old(part.content), size) + old(camera.script)[0].body)
              && if old(camera.script)[0].complete then out.Complete? else out == Broken(true)
    ensures forall i, j :: 0 <= i <= j < |progress| ==> progress[i] <= progress[j]
    ensures out.Complete? ==> progress == [] || progress[|progress| - 1] == out.total
  {
    progress, acc := [], None;
    var already := if part.content.Some? then |part.content.value| else 0;
    if already > size {
      part.Remove();
      already := 0;
    }
    if already == size && already > 0 {
      part.Remove();
      already := 0;
    }
    var seed := if already > 0 then part.content.value else [];
    var r, resume, fail := Connect(camera, part, already);
    if fail.Some? {
      return Broken(fail.value), [], None;
    }
    if !resume {
      seed := [];
      var ok := part.Truncate();
      if !ok {
        return Broken(false), [], None;
      }
    }
    assert resume || camera.file[0..] == camera.file;
    out, progress := Stream(part, seed, r);
    acc := Some(Accepted(seed, r.body));
    LandsRightIff(camera.file, seed, r.body);
    if seed <= camera.file && r.body <= camera.file[|seed|..] {
      CleanLanding(camera.file, seed, r.body, part.content);
    }
  }

  // Where an attempt asks to resume.
  function ResumeOffset(part: Option<Bytes>, size: nat): nat {
    if part.Some? && |part.value| < size then |part.value| else 0
  }

  // The camera's next answer will be taken at once ...
  predicate Takes(script: seq<Reply>, part: Option<Bytes>, size: nat) {
    script != [] && Accepts(script[0], ResumeOffset(part, size))
  }

  // ... and its body put behind this.
  function SeedFor(r: Reply, part: Option<Bytes>, size: nat): Bytes
    requires r.Answer?
  {
    if r.status == 206 && ResumeOffset(part, size) > 0 then part.value else []
  }

  // The retry loop.
  method DownloadResumable(camera: Camera, size: nat, part: PartFile, maxAttempts: nat)
    returns (out: Outcome, attempts: nat, progress: seq<nat>)
    modifies part, camera
    ensures out.Complete? ==> part.content.Some? && out.total == |part.content.value| && out.hash == Digest(part.content.value)
    ensures old(camera.script) == [] && Usable(old(part.content), camera.file, size) ==>
              && (part.content == old(part.content) || Clean(part.content, camera.file))
              && (out.Complete? ==> part.content.value <= camera.file)
    ensures 1 <= attempts && (maxAttempts >= 1 ==> attempts <= maxAttempts)
    ensures out.Broken? && out.retryable ==> attempts >= maxAttempts
    ensures part.reliable && Takes(old(camera.script), old(part.content), size)
            && (maxAttempts <= 1 || old(camera.script)[0].complete) ==>
              && part.content == Some(SeedFor(old(camera.script)[0], old(part.content), size) + old(camera.script)[0].body)
              && if old(camera.script)[0].complete then out.Complete? else out == Broken(true)
  {
    attempts, progress := 0, [];
    ghost var usable := camera.script == [] && Usable(part.content, camera.file, size);
    while true
      invariant usable ==> camera.script == [] && (part.content == old(part.content) || Clean(part.content, camera.file))
      invariant attempts == 0 ==> part.content == old(part.content) && camera.script == old(camera.script)
      invariant attempts == 0 || attempts < maxAttempts
      invariant attempts > 0 && part.reliable && Takes(old(camera.script), old(part.content), size) ==>
                  !old(camera.script)[0].complete && maxAttempts > 1
      decreases maxAttempts - attempts
    {
      var ticks;
      ghost var acc;
      out, ticks, acc := Attempt(camera, size, part);
      attempts, progress := attempts + 1, progress + ticks;
      if out.Complete? || !out.retryable || attempts >= maxAttempts {
        return;
      }
    }
  }

  /* ----- what cannot be told apart ----- */

  // A 206 answer to a request from offset 0 that declares another start is taken
  // as the start of the file: the download succeeds with other bytes.
  method UncheckedStartCorrupts(file: Bytes, k: nat, size: nat) returns (out: Outcome, part: PartFile)
    requires k < |file| && file[k] != file[0]
    ensures out == Complete(1, Digest([file[k]])) && part.content == Some([file[k]]) && !([file[k]] <= file)
  {
    var camera := new Camera(file, [Answer(206, Some(k), [file[k]], true)]);
    part := new PartFile(None, true);
    var progress;
    ghost var acc;
    out, progress, acc := Attempt(camera, size, part);
    assert [] + [file[k]] == [file[k]];
  }

  // A `.part` that is no prefix of the file is resumed all the same by an honest
  // camera: the result has the right length and the wrong bytes. So being usable
  // is not only enough for a right download but needed.
  method ForeignPrefixCorrupts(file: Bytes, foreign: Bytes) returns (out: Outcome, part: PartFile)
    requires !Usable(Some(foreign), file, |file|)
    ensures |foreign| < |file| && part.content == Some(foreign + file[|foreign|..]) && part.content != Some(file)
    ensures |part.content.value| == |file| && out == Complete(|file|, Digest(part.content.value))
  {
    var answer := Answer(206, Some(|foreign|), file[|foreign|..], true);
    var camera := new Camera(file, [answer]);
    assert Honest(file, |foreign|, answer);
    part := new PartFile(Some(foreign), true);
    var attempts, progress;
    out, attempts, progress := DownloadResumable(camera, |file|, part, 1);
    LandsRightIff(file, foreign, file[|foreign|..]);
  }

  /* ----- Content-Range ----- */

  function TrimStart(s: string): string {
    if s != [] && s[0] == ' ' then TrimStart(s[1..]) else s
  }

  function TrimEnd(s: string): string {
    if s != [] && s[|s| - 1] == ' ' then TrimEnd(s[..|s| - 1]) else s
  }

  function Trim(s: string): string {
    TrimEnd(TrimStart(s))
  }

  function SplitOnce(s: string, c: char): Option<(string, string)> {
    if s == [] then None
    else if s[0] == c then Some(([], s[1..]))
    else
      var r := SplitOnce(s[1..], c);
      if r.None? then None else Some(([s[0]] + r.value.0, r.value.1))
  }

  function ContentRangeStart(header: string): Option<nat> {
    var t := Trim(header);
    if |t| < 5 || t[..5] != "bytes" then None
    else
      var range := SplitOnce(TrimStart(t[5..]), '/');
      if range.None? then None
      else
        var ends := SplitOnce(range.value.0, '-');
        if ends.None? then None else Parse(Trim(ends.value.0), U64_MAX)
  }

  lemma {:induction false} SplitOnceAt(a: string, c: char, b: string)
    requires c !in a
    ensures SplitOnce(a + [c] + b, c) == Some((a, b))
  {
    if a != [] {
      SplitOnceAt(a[1..], c, b);
      assert a[0] in a && forall x :: x in a[1..] ==> x in a;
      assert (a + [c] + b)[1..] == a[1..] + [c] + b;
      assert [a[0]] + a[1..] == a;
    } else {
      assert (a + [c] + b)[1..] == b;
    }
  }

  // Every satisfied range the standard can form is read back exactly; `last`
  // and `complete` may be any text, `*` included.
  lemma ContentRangeRoundTrip(start: nat, last: string, complete: string)
    requires start <= U64_MAX && '/' !in last && complete != [] && complete[|complete| - 1] != ' '
    ensures ContentRangeStart("bytes " + Decimal(start) + "-" + last + "/" + complete) == Some(start)
  {
    var d := Decimal(start);
    var body := d + "-" + last;
    var rest := body + "/" + complete;
    var header := "bytes " + d + "-" + last + "/" + complete;
    assert header == "bytes " + rest;
    assert header[|header| - 1] == complete[|complete| - 1];
    assert header[..5] == "bytes" && header[5..] == " " + rest;
    assert (" " + rest)[1..] == rest && IsDigit(rest[0]);
    assert TrimStart(" " + rest) == rest;
    SplitOnceAt(body, '/', complete);
    SplitOnceAt(d, '-', last);
    assert d[0] != ' ' && d[|d| - 1] != ' ';
    ParseDecimal(start, U64_MAX);
  }
}
