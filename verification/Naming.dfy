/** Destination names (naming.rs): one safe path component, free of collisions. */
module Naming {
  import opened Wrappers
  import opened Digits

  predicate IsSeparator(c: char) {
    c == '/' || c == '\\' || c == '\0'
  }

  // A name that `dest_root.join(name)` keeps directly inside `dest_root`.
  predicate SafeComponent(name: string) {
    name != "" && name != "." && name != ".." && forall i :: 0 <= i < |name| ==> !IsSeparator(name[i])
  }

  function Cleaned(name: string): (r: string)
    ensures |r| == |name|
    ensures forall i :: 0 <= i < |name| ==> r[i] == if IsSeparator(name[i]) then '_' else name[i]
  {
    seq(|name|, i requires 0 <= i < |name| => if IsSeparator(name[i]) then '_' else name[i])
  }

  function SanitizeFileName(name: string): (r: string)
    ensures SafeComponent(r)
  {
    var c := Cleaned(name);
    if c == "" || c == "." || c == ".." then "_" else c
  }

  // Sanitising changes exactly the unsafe names, so it is idempotent.
  lemma {:induction false} SanitizeFixes(name: string)
    ensures SanitizeFileName(name) == name <==> SafeComponent(name)
    ensures SanitizeFileName(SanitizeFileName(name)) == SanitizeFileName(name)
  {
  }

  // `rsplit_once('.')`, with the dot kept in the extension.
  function SplitExt(name: string): (r: (string, string))
    ensures r.0 + r.1 == name
  {
    if name == [] then ([], [])
    else if name[|name| - 1] == '.' then (name[..|name| - 1], ".")
    else
      var r := SplitExt(name[..|name| - 1]);
      if r.1 == [] then (name, [])
      else
        assert name == name[..|name| - 1] + [name[|name| - 1]];
        (r.0, r.1 + [name[|name| - 1]])
  }

  function Numbered(name: string, n: nat): string {
    var (stem, ext) := SplitExt(name);
    stem + "_" + Decimal(n) + ext
  }

  lemma NumberedInjective(name: string, m: nat, n: nat)
    requires Numbered(name, m) == Numbered(name, n)
    ensures m == n
  {
    var (stem, ext) := SplitExt(name);
    var a, b := Decimal(m), Decimal(n);
    assert |stem + "_" + a + ext| == |stem| + 1 + |a| + |ext|;
    assert |stem + "_" + b + ext| == |stem| + 1 + |b| + |ext|;
    assert a == (stem + "_" + a + ext)[|stem| + 1..|stem| + 1 + |a|];
    assert b == (stem + "_" + b + ext)[|stem| + 1..|stem| + 1 + |b|];
    DecimalInjective(m, n);
  }

  lemma NumberedDiffers(name: string, n: nat)
    ensures Numbered(name, n) != name
  {
  }

  lemma NumberedSafe(name: string, n: nat)
    requires SafeComponent(name)
    ensures SafeComponent(Numbered(name, n))
  {
    var (stem, ext) := SplitExt(name);
    var d := Decimal(n);
    var r := Numbered(name, n);
    assert r[|stem|] == '_';
    forall i | 0 <= i < |r| ensures !IsSeparator(r[i]) {
      if i < |stem| {
        assert r[i] == name[i];
      } else if i >= |stem| + 1 + |d| {
        assert r[i] == ext[i - |stem| - 1 - |d|] == name[i - 1 - |d|];
      }
    }
  }

  // The name `resolve_collision` settles on: the name itself if free, else the
  // first free number.
  predicate Resolves(taken: set<string>, name: string, free: string) {
    && free !in taken
    && (name !in taken ==> free == name)
    && (name in taken ==> exists n :: 1 <= n <= |taken| && free == Numbered(name, n) && TakenBelow(taken, name, n))
  }

  predicate TakenBelow(taken: set<string>, name: string, n: nat) {
    forall m :: 1 <= m < n ==> Numbered(name, m) in taken
  }

  lemma ResolvesUnique(taken: set<string>, name: string, a: string, b: string)
    requires Resolves(taken, name, a) && Resolves(taken, name, b)
    ensures a == b
  {
    if name in taken {
      var m :| 1 <= m <= |taken| && a == Numbered(name, m) && TakenBelow(taken, name, m);
      var n :| 1 <= n <= |taken| && b == Numbered(name, n) && TakenBelow(taken, name, n);
      assert m == n;
    }
  }

  // The pigeonhole principle: the numbers below `n` name distinct files, all of
  // them taken, and they cannot use up the taken names.
  lemma {:induction false} FreeNumber(taken: set<string>, name: string, n: nat, tried: set<string>) returns (k: nat)
    requires name in taken && n >= 1 && TakenBelow(taken, name, n)
    requires tried <= taken - {name} && |tried| == n - 1
    requires forall s :: s in tried ==> exists m :: 1 <= m < n && s == Numbered(name, m)
    ensures n <= k <= |taken| && Numbered(name, k) !in taken && TakenBelow(taken, name, k)
    decreases |taken| - |tried|
  {
    Fits(tried, taken, name);
    var alt := Numbered(name, n);
    if alt !in taken {
      k := n;
    } else {
      NumberedDiffers(name, n);
      forall s | s in tried ensures s != alt {
        var m :| 1 <= m < n && s == Numbered(name, m);
        if s == alt {
          NumberedInjective(name, m, n);
        }
      }
      Fits(tried + {alt}, taken, name);
      k := FreeNumber(taken, name, n + 1, tried + {alt});
    }
  }

  lemma ResolvesSome(taken: set<string>, name: string) returns (free: string)
    ensures Resolves(taken, name, free)
  {
    if name !in taken {
      free := name;
    } else {
      var k := FreeNumber(taken, name, 1, {});
      free := Numbered(name, k);
    }
  }

  method ResolveCollision(onDisk: set<string>, name: string, reserved: set<string>) returns (free: string, tries: nat)
    ensures Resolves(onDisk + reserved, name, free)
    ensures 1 <= tries <= |onDisk + reserved| + 1
    ensures SafeComponent(name) ==> SafeComponent(free)
  {
    ghost var taken := onDisk + reserved;
    if name !in onDisk && name !in reserved {
      return name, 1;
    }
    var n := 1;
    ghost var k := FreeNumber(taken, name, 1, {});
    while true
      invariant 1 <= n <= k && TakenBelow(taken, name, n)
      decreases k - n
    {
      var alt := Numbered(name, n);
      if alt !in onDisk && alt !in reserved {
        if SafeComponent(name) {
          NumberedSafe(name, n);
        }
        return alt, n + 1;
      }
      n := n + 1;
    }
  }

  lemma {:induction false} SubsetSize(a: set<string>, b: set<string>)
    requires a <= b
    ensures |a| <= |b|
    decreases a
  {
    if a != {} {
      var x :| x in a;
      SubsetSize(a - {x}, b - {x});
    }
  }

  lemma Fits(tried: set<string>, taken: set<string>, name: string)
    requires tried <= taken - {name} && name in taken
    ensures |tried| < |taken|
  {
    SubsetSize(tried, taken - {name});
    assert |taken - {name}| == |taken| - 1;
  }
}
