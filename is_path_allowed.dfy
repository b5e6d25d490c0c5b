/** The allow-list test (src/is-path-allowed.ts). */
module PathAllowed {
  import opened Types
  import opened Text
  import opened Normalize

  /**
   * One entry's verdict on an already normalised path: equal to the entry,
   * or a strict leading segment prefix of it.
   */
  predicate EntryAllows(e: AllowEntry, normalizedFull: string)
  {
    var allowed := NormalizePath(e);
    var allowedSegs := Split(allowed, '.');
    var fullSegs := Split(normalizedFull, '.');
    || allowed == normalizedFull
    || (|allowedSegs| > |fullSegs| && Join(allowedSegs[..|fullSegs|], ".") == Join(fullSegs, "."))
  }

  /** `isPathAllowed({ fullPath, allowedPaths })`. */
  predicate IsPathAllowed(fullPath: string, allow: seq<AllowEntry>)
  {
    exists i | 0 <= i < |allow| :: EntryAllows(allow[i], NormalizeDotted(fullPath))
  }

  /** The normalised segments of a dotted path. */
  function NormalSegments(path: string): seq<string>
  {
    NormalizeAll(Split(path, '.'))
  }

  /** The segment-level reading of one entry's verdict. */
  predicate SegmentsAllow(entrySegs: seq<string>, pathSegs: seq<string>)
  {
    entrySegs == pathSegs || (|entrySegs| > |pathSegs| && entrySegs[..|pathSegs|] == pathSegs)
  }

  lemma NormalSegmentsDotFree(path: string)
    ensures |NormalSegments(path)| >= 1
    ensures forall i | 0 <= i < |NormalSegments(path)| :: '.' !in NormalSegments(path)[i]
  {
    NormalizedSegments(path);
    SplitNoSeparator(NormalizeDotted(path), '.');
  }

  lemma EntryAllowsBySegments(e: AllowEntry, fullPath: string)
    ensures EntryAllows(e, NormalizeDotted(fullPath))
        <==> SegmentsAllow(NormalSegments(EntryName(e)), NormalSegments(fullPath))
  {
    var a := NormalSegments(EntryName(e));
    var f := NormalSegments(fullPath);
    NormalizedSegments(EntryName(e));
    NormalizedSegments(fullPath);
    NormalSegmentsDotFree(EntryName(e));
    NormalSegmentsDotFree(fullPath);
    JoinInjective(a, f, '.');
    JoinSplit(NormalizePath(e), '.');
    JoinSplit(NormalizeDotted(fullPath), '.');
    if |a| > |f| {
      JoinInjective(a[..|f|], f, '.');
    }
  }

  /**
   * A path is allowed exactly when some entry, segment by segment after
   * normalisation, equals it or extends it.
   */
  lemma AllowedIff(fullPath: string, allow: seq<AllowEntry>)
    ensures IsPathAllowed(fullPath, allow)
        <==> exists i | 0 <= i < |allow| :: SegmentsAllow(NormalSegments(EntryName(allow[i])), NormalSegments(fullPath))
  {
    forall i | 0 <= i < |allow|
      ensures EntryAllows(allow[i], NormalizeDotted(fullPath))
          <==> SegmentsAllow(NormalSegments(EntryName(allow[i])), NormalSegments(fullPath))
    {
      EntryAllowsBySegments(allow[i], fullPath);
    }
  }

  /** Adding entries, before or after, never revokes an allowed path. */
  lemma AllowedMonotone(fullPath: string, allow: seq<AllowEntry>, more: seq<AllowEntry>)
    requires IsPathAllowed(fullPath, allow)
    ensures IsPathAllowed(fullPath, allow + more)
    ensures IsPathAllowed(fullPath, more + allow)
  {
    var i :| 0 <= i < |allow| && EntryAllows(allow[i], NormalizeDotted(fullPath));
    assert (allow + more)[i] == allow[i];
    assert (more + allow)[|more| + i] == allow[i];
  }

  /** The dotted prefix made of the first `n` segments of a path. */
  function LeadingSegments(path: string, n: nat): string
    requires 1 <= n <= |Split(path, '.')|
  {
    Join(Split(path, '.')[..n], ".")
  }

  lemma SegmentsAllowPrefix(a: seq<string>, f: seq<string>, n: nat)
    requires SegmentsAllow(a, f) && n <= |f|
    ensures SegmentsAllow(a, f[..n])
  {
    if n < |f| {
      assert a[..n] == f[..n];
    }
  }

  lemma LeadingNormalSegments(fullPath: string, n: nat)
    requires 1 <= n <= |Split(fullPath, '.')|
    ensures NormalSegments(LeadingSegments(fullPath, n)) == NormalSegments(fullPath)[..n]
  {
    var segs := Split(fullPath, '.');
    SplitNoSeparator(fullPath, '.');
    SplitJoin(segs[..n], '.');
  }

  /** Every non-empty leading segment prefix of an allowed path is allowed. */
  lemma AllowedPrefixClosed(fullPath: string, allow: seq<AllowEntry>, n: nat)
    requires IsPathAllowed(fullPath, allow)
    requires 1 <= n <= |Split(fullPath, '.')|
    ensures IsPathAllowed(LeadingSegments(fullPath, n), allow)
  {
    var q := LeadingSegments(fullPath, n);
    var i :| 0 <= i < |allow| && EntryAllows(allow[i], NormalizeDotted(fullPath));
    EntryAllowsBySegments(allow[i], fullPath);
    EntryAllowsBySegments(allow[i], q);
    LeadingNormalSegments(fullPath, n);
    SegmentsAllowPrefix(NormalSegments(EntryName(allow[i])), NormalSegments(fullPath), n);
  }

  /** The largest segment count of any entry. */
  function MaxSegments(allow: seq<AllowEntry>): (r: nat)
    ensures forall i | 0 <= i < |allow| :: |Split(EntryName(allow[i]), '.')| <= r
  {
    if allow == [] then 0
    else
      var rest := MaxSegments(allow[1..]);
      var here := |Split(EntryName(allow[0]), '.')|;
      assert forall i | 1 <= i < |allow| :: allow[i] == allow[1..][i - 1];
      if here > rest then here else rest
  }

  /** An allowed path is never deeper than the deepest entry. */
  lemma AllowedDepthBound(fullPath: string, allow: seq<AllowEntry>)
    requires IsPathAllowed(fullPath, allow)
    ensures |Split(fullPath, '.')| <= MaxSegments(allow)
  {
    var i :| 0 <= i < |allow| && EntryAllows(allow[i], NormalizeDotted(fullPath));
    EntryAllowsBySegments(allow[i], fullPath);
    assert |NormalSegments(fullPath)| <= |NormalSegments(EntryName(allow[i]))|;
  }

  /** Nothing is allowed by an empty allow-list. */
  lemma EmptyAllowsNothing(fullPath: string)
    ensures !IsPathAllowed(fullPath, [])
  {
  }
}

/**
 * The allow-list verdicts pinned down by the repository's tests
 * (src/tests/regenerate-zod.spec.ts:326-365). Paths are written as
 * concatenations of their segments.
 */
module PathAllowedExamples {
  import opened Types
  import opened Text
  import opened Normalize
  import opened PathAllowed

  lemma PlainTwo(a: string, b: string)
    requires '.' !in a && '.' !in b && '[' !in a && '[' !in b
    ensures NormalSegments(a + "." + b) == [a, b]
  {
    SplitTwo(a, b, '.');
    NormalizeKeyPlain(a);
    NormalizeKeyPlain(b);
  }

  lemma PlainThree(a: string, b: string, d: string)
    requires '.' !in a && '.' !in b && '.' !in d && '[' !in a && '[' !in b && '[' !in d
    ensures NormalSegments(a + "." + b + "." + d) == [a, b, d]
  {
    SplitThree(a, b, d, '.');
    NormalizeKeyPlain(a);
    NormalizeKeyPlain(b);
    NormalizeKeyPlain(d);
  }

  lemma Rejects(e: AllowEntry, p: string)
    requires !SegmentsAllow(NormalSegments(EntryName(e)), NormalSegments(p))
    ensures !EntryAllows(e, NormalizeDotted(p))
  {
    EntryAllowsBySegments(e, p);
  }

  function DemoAllow(): seq<AllowEntry>
  {
    [ Bare("select" + "." + "id"), Bare("select" + "." + "email"), Bare("select" + "." + "tags"),
      Bare("select" + "." + "profile" + "." + "bio"), Bare("select" + "." + "profile" + "." + "website") ]
  }

  lemma DemoSegments()
    ensures NormalSegments("select" + "." + "id") == ["select", "id"]
    ensures NormalSegments("select" + "." + "email") == ["select", "email"]
    ensures NormalSegments("select" + "." + "tags") == ["select", "tags"]
    ensures NormalSegments("select" + "." + "profile" + "." + "bio") == ["select", "profile", "bio"]
    ensures NormalSegments("select" + "." + "profile" + "." + "website") == ["select", "profile", "website"]
  {
    PlainTwo("select", "id");
    PlainTwo("select", "email");
    PlainTwo("select", "tags");
    PlainThree("select", "profile", "bio");
    PlainThree("select", "profile", "website");
  }

  /** Exact and nested matches are allowed. */
  lemma DemoAccepts()
    ensures IsPathAllowed("select" + "." + "id", DemoAllow())
    ensures IsPathAllowed("select" + "." + "profile" + "." + "bio", DemoAllow())
    ensures IsPathAllowed("select" + "." + "profile", DemoAllow())
  {
    DemoSegments();
    PlainTwo("select", "profile");
    EntryAllowsBySegments(DemoAllow()[0], "select" + "." + "id");
    EntryAllowsBySegments(DemoAllow()[3], "select" + "." + "profile" + "." + "bio");
    EntryAllowsBySegments(DemoAllow()[3], "select" + "." + "profile");
  }

  /** A path that equals no entry and extends past all of them is rejected. */
  lemma DemoRejectsAge()
    ensures !IsPathAllowed("select" + "." + "age", DemoAllow())
  {
    DemoSegments();
    PlainTwo("select", "age");
    var p := "select" + "." + "age";
    Rejects(DemoAllow()[0], p);
    Rejects(DemoAllow()[1], p);
    Rejects(DemoAllow()[2], p);
    Rejects(DemoAllow()[3], p);
    Rejects(DemoAllow()[4], p);
  }

  lemma DemoRejectsPicture()
    ensures !IsPathAllowed("select" + "." + "profile" + "." + "picture", DemoAllow())
  {
    DemoSegments();
    PlainThree("select", "profile", "picture");
    var p := "select" + "." + "profile" + "." + "picture";
    Rejects(DemoAllow()[0], p);
    Rejects(DemoAllow()[1], p);
    Rejects(DemoAllow()[2], p);
    Rejects(DemoAllow()[3], p);
    Rejects(DemoAllow()[4], p);
  }

  lemma MarkedTwo(a: string, b: string)
    requires '.' !in a && '.' !in b && '[' !in a && '[' !in b
    ensures NormalSegments(a + "." + b + "[]") == [a, b]
  {
    assert a + "." + b + "[]" == a + "." + (b + "[]");
    SplitTwo(a, b + "[]", '.');
    NormalizeKeyPlain(a);
    NormalizeKeyListMarker(b);
  }

  /** List markers are ignored: `select.tags` is allowed by `select.tags[]`. */
  lemma ListMarkerIgnored()
    ensures IsPathAllowed("select" + "." + "tags", [Bare("select" + "." + "tags" + "[]")])
  {
    MarkedTwo("select", "tags");
    PlainTwo("select", "tags");
    var e := Bare("select" + "." + "tags" + "[]");
    EntryAllowsBySegments(e, "select" + "." + "tags");
    assert [e][0] == e;
  }
}
