/** Files by name: a mounted card, a destination disk, and how they may fail. */
module Storage {
  import opened Wrappers

  function Lookup(files: map<string, Bytes>, name: string): Option<Bytes> {
    if name in files then Some(files[name]) else None
  }

  // Only the file `name` may differ.
  predicate SameElsewhere(a: map<string, Bytes>, b: map<string, Bytes>, name: string) {
    a - {name} == b - {name}
  }

  lemma SameButOne(files: map<string, Bytes>, files': map<string, Bytes>, d: string)
    requires SameElsewhere(files, files', d)
    ensures forall f :: f != d ==> (f in files <==> f in files') && (f in files ==> files'[f] == files[f])
  {
    forall f | f != d ensures (f in files <==> f in files') && (f in files ==> files'[f] == files[f]) {
      assert f in files - {d} <==> f in files' - {d};
      assert f in files ==> (files - {d})[f] == (files' - {d})[f];
    }
  }

  class Card {
    const reliable: bool
    var files: map<string, Bytes>

    constructor (files: map<string, Bytes>, reliable: bool)
      ensures this.files == files && this.reliable == reliable
    {
      this.files, this.reliable := files, reliable;
    }

    method Read(src: string) returns (b: Option<Bytes>)
      ensures b.Some? ==> src in files && b.value == files[src]
      ensures reliable && src in files ==> b.Some?
    {
      var fails: bool := *;
      b := if src in files && (reliable || !fails) then Some(files[src]) else None;
    }

    method Remove(src: string) returns (ok: bool)
      modifies this
      ensures ok ==> src in old(files)
      ensures files == if ok then old(files) - {src} else old(files)
    {
      ok := *;
      ok := ok && src in files;
      if ok {
        files := files - {src};
      }
    }

    // Somebody may take the card out, edit it or put in another.
    method MayBeSwapped()
      modifies this
    {
      files := *;
    }
  }

  class Disk {
    const faithful: bool // persists what it is given, and every read succeeds
    var files: map<string, Bytes>

    constructor (files: map<string, Bytes>, faithful: bool)
      ensures this.files == files && this.faithful == faithful
    {
      this.files, this.faithful := files, faithful;
    }

    // Atomic rename of the temporary file. The bytes that end up there may be
    // damaged; the call may fail before or after the rename.
    method Persist(name: string, bytes: Bytes) returns (ok: bool)
      modifies this
      ensures ok ==> name in files
      ensures files == old(files) || (name in files && files == old(files)[name := files[name]])
      ensures faithful ==> ok && files == old(files)[name := bytes]
    {
      var kept: int := *;
      var fails: bool := *;
      if faithful || kept < 0 {
        files := files[name := bytes];
      } else {
        files := files[name := bytes[..Min(kept, |bytes|)]];
      }
      ok := faithful || !fails;
    }

    method Read(name: string) returns (b: Option<Bytes>)
      ensures b.Some? ==> name in files && b.value == files[name]
      ensures faithful && name in files ==> b.Some?
    {
      var fails: bool := *;
      b := if name in files && (faithful || !fails) then Some(files[name]) else None;
    }

    method Remove(name: string)
      modifies this
      ensures files == old(files) || files == old(files) - {name}
    {
      var ok: bool := *;
      if ok {
        files := files - {name};
      }
    }
  }
}
