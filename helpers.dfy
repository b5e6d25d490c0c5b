/** Object test and deep merge of schema trees (src/helpers.ts). */
module Helpers {
  import opened Types

  /** `isObject(v)`: truthy, of type object and not an array. */
  predicate IsObject(n: Node)
  {
    Truthy(n) && (n.Obj? || n.Arr?) && !n.Arr?
  }

  lemma IsObjectExactlyObjects(n: Node)
    ensures IsObject(n) <==> n.Obj?
  {
  }

  /**
   * `deepMerge(target, source)`: arrays concatenate; two objects merge key by
   * key, shared keys recursively; in every other pairing the source wins.
   */
  function Merge(target: Node, source: Node): (r: Node)
    decreases target, 1
    ensures target.Arr? && source.Arr? ==>
      && r.Arr? && |r.items| == |target.items| + |source.items|
      && r.items[..|target.items|] == target.items && r.items[|target.items|..] == source.items
    ensures !(target.Arr? && source.Arr?) && !(target.Obj? && source.Obj?) ==> r == source
  {
    if target.Arr? && source.Arr? then Arr(target.items + source.items)
    else if IsObject(target) && IsObject(source) then
      Obj(MergedTarget(target.entries, source.entries) + SourceOnly(source.entries, target.entries))
    else source
  }

  /** The target's entries in order, each merged with the source's value for that key. */
  function MergedTarget(t: seq<(string, Node)>, s: seq<(string, Node)>): (r: seq<(string, Node)>)
    decreases Obj(t), 0
    ensures |r| == |t| && forall j | 0 <= j < |t| :: r[j].0 == t[j].0
  {
    seq(|t|, j requires 0 <= j < |t| => (t[j].0, MergedValue(t[j].1, Find(s, t[j].0))))
  }

  /** A target value, merged with the source's value for its key when there is one. */
  function MergedValue(tv: Node, sv: Option<Node>): Node
    decreases tv, 2
  {
    match sv
    case Some(v) => Merge(tv, v)
    case None => tv
  }

  /** The source entries whose key the target lacks, in source order. */
  function SourceOnly(s: seq<(string, Node)>, t: seq<(string, Node)>): (r: seq<(string, Node)>)
    ensures |r| <= |s|
  {
    if s == [] then []
    else
      var last := s[|s| - 1];
      SourceOnly(s[..|s| - 1], t) + (if Find(t, last.0).None? then [last] else [])
  }

  lemma {:induction false} SourceOnlyFind(s: seq<(string, Node)>, t: seq<(string, Node)>, k: string)
    ensures Find(SourceOnly(s, t), k) == if Find(t, k).Some? then None else Find(s, k)
  {
    if s != [] {
      var last := s[|s| - 1];
      var init := s[..|s| - 1];
      SourceOnlyFind(init, t, k);
      FindAppend(SourceOnly(init, t), if Find(t, last.0).None? then [last] else [], k);
      FindAppend(init, [last], k);
      assert init + [last] == s;
    }
  }

  lemma {:induction false} SourceOnlyMembers(s: seq<(string, Node)>, t: seq<(string, Node)>)
    ensures forall e :: e in SourceOnly(s, t) <==> e in s && Find(t, e.0).None?
  {
    if s != [] {
      var last := s[|s| - 1];
      var init := s[..|s| - 1];
      SourceOnlyMembers(init, t);
      assert init + [last] == s;
    }
  }

  lemma MergedTargetFind(t: seq<(string, Node)>, s: seq<(string, Node)>, k: string)
    ensures Find(MergedTarget(t, s), k).Some? <==> Find(t, k).Some?
    ensures Find(t, k).Some? ==>
      Find(MergedTarget(t, s), k).value == MergedValue(Find(t, k).value, Find(s, k))
  {
    var m := MergedTarget(t, s);
    var i := FindFirst(t, k);
    var i' := FindFirst(m, k);
    if Find(t, k).Some? {
      assert m[i].0 == k;
      assert i' == i;
    }
  }

  /**
   * Two objects: a key is in the result iff it is in either; a shared key
   * maps to the merge of both values, any other key to the value it had.
   */
  lemma MergeObjects(t: seq<(string, Node)>, s: seq<(string, Node)>, k: string)
    ensures Merge(Obj(t), Obj(s)).Obj?
    ensures Find(Merge(Obj(t), Obj(s)).entries, k).Some? <==> Find(t, k).Some? || Find(s, k).Some?
    ensures Find(t, k).Some? && Find(s, k).Some? ==>
      Find(Merge(Obj(t), Obj(s)).entries, k) == Some(Merge(Find(t, k).value, Find(s, k).value))
    ensures Find(t, k).Some? && Find(s, k).None? ==> Find(Merge(Obj(t), Obj(s)).entries, k) == Find(t, k)
    ensures Find(t, k).None? ==> Find(Merge(Obj(t), Obj(s)).entries, k) == Find(s, k)
  {
    assert IsObject(Obj(t)) && IsObject(Obj(s));
    var r := MergedTarget(t, s) + SourceOnly(s, t);
    assert Merge(Obj(t), Obj(s)) == Obj(r);
    MergedTargetFind(t, s, k);
    SourceOnlyFind(s, t, k);
    FindAppend(MergedTarget(t, s), SourceOnly(s, t), k);
  }

  /**
   * Key order of a merged object: the target's keys in order, then exactly
   * the source entries whose key the target lacks, in source order.
   */
  lemma MergeKeyOrder(t: seq<(string, Node)>, s: seq<(string, Node)>)
    ensures Merge(Obj(t), Obj(s)).Obj?
    ensures Keys(Merge(Obj(t), Obj(s)).entries)[..|t|] == Keys(t)
    ensures Merge(Obj(t), Obj(s)).entries[|t|..] == SourceOnly(s, t)
    ensures forall e :: e in Merge(Obj(t), Obj(s)).entries[|t|..] <==> e in s && Find(t, e.0).None?
  {
    var r := Merge(Obj(t), Obj(s)).entries;
    assert r[|t|..] == SourceOnly(s, t);
    SourceOnlyMembers(s, t);
  }

  /** With no key in common, merging either way maps every key to the same value. */
  lemma MergeDisjointCommutes(a: seq<(string, Node)>, b: seq<(string, Node)>, k: string)
    requires forall i | 0 <= i < |a| :: Find(b, a[i].0).None?
    ensures Find(Merge(Obj(a), Obj(b)).entries, k) == Find(Merge(Obj(b), Obj(a)).entries, k)
  {
    MergeObjects(a, b, k);
    MergeObjects(b, a, k);
    var i := FindFirst(a, k);
    if Find(a, k).Some? {
      assert Find(b, a[i].0).None?;
    }
  }

  /** Every JavaScript object has distinct keys, at every level of the tree. */
  predicate WellFormed(n: Node)
  {
    match n
    case Obj(es) => UniqueKeys(es) && forall i | 0 <= i < |es| :: WellFormed(es[i].1)
    case Arr(xs) => forall i | 0 <= i < |xs| :: WellFormed(xs[i])
    case _ => true
  }

  /** `merged[key] = value` on an ordered object: overwrite in place, or append. */
  function Assign(d: seq<(string, Node)>, k: string, v: Node): (r: seq<(string, Node)>)
  {
    if d == [] then [(k, v)]
    else if d[0].0 == k then [(k, v)] + d[1..]
    else [d[0]] + Assign(d[1..], k, v)
  }

  lemma {:induction false} AssignAt(d: seq<(string, Node)>, k: string, v: Node, p: nat)
    requires p < |d| && d[p].0 == k && forall j | 0 <= j < p :: d[j].0 != k
    ensures Assign(d, k, v) == d[p := (k, v)]
  {
    if p > 0 {
      AssignAt(d[1..], k, v, p - 1);
      assert [d[0]] + d[1..][p - 1 := (k, v)] == d[p := (k, v)];
    } else {
      assert [(k, v)] + d[1..] == d[0 := (k, v)];
    }
  }

  lemma {:induction false} AssignNew(d: seq<(string, Node)>, k: string, v: Node)
    requires forall j | 0 <= j < |d| :: d[j].0 != k
    ensures Assign(d, k, v) == d + [(k, v)]
  {
    if d != [] {
      AssignNew(d[1..], k, v);
      assert [d[0]] + (d[1..] + [(k, v)]) == d + [(k, v)];
    }
  }

  lemma FindNotInPrefix(s: seq<(string, Node)>, i: nat)
    requires UniqueKeys(s) && i < |s|
    ensures Find(s[..i], s[i].0).None?
    ensures Find(s[..i + 1], s[i].0) == Some(s[i].1)
    ensures forall k | k != s[i].0 :: Find(s[..i + 1], k) == Find(s[..i], k)
  {
    assert s[..i + 1] == s[..i] + [s[i]];
    var f := FindFirst(s[..i], s[i].0);
    forall k
      ensures Find(s[..i + 1], k) == if Find(s[..i], k).Some? then Find(s[..i], k) else if s[i].0 == k then Some(s[i].1) else None
    {
      FindSnoc(s[..i], s[i], k);
    }
  }

  lemma MergedTargetStepShared(t: seq<(string, Node)>, s: seq<(string, Node)>, i: nat, p: nat)
    requires UniqueKeys(t) && UniqueKeys(s) && i < |s| && p < |t| && t[p].0 == s[i].0
    ensures MergedTarget(t, s[..i + 1]) == MergedTarget(t, s[..i])[p := (s[i].0, Merge(t[p].1, s[i].1))]
  {
    FindNotInPrefix(s, i);
    var a := MergedTarget(t, s[..i]);
    var a' := MergedTarget(t, s[..i + 1]);
    forall j | 0 <= j < |t|
      ensures a'[j] == a[p := (s[i].0, Merge(t[p].1, s[i].1))][j]
    {
      if j != p {
        assert t[j].0 != s[i].0;
        assert Find(s[..i + 1], t[j].0) == Find(s[..i], t[j].0);
      } else {
        assert Find(s[..i + 1], t[j].0) == Some(s[i].1);
        assert a'[j] == (t[j].0, MergedValue(t[j].1, Some(s[i].1)));
      }
    }
  }

  lemma SourceOnlyStepShared(t: seq<(string, Node)>, s: seq<(string, Node)>, i: nat)
    requires i < |s| && Find(t, s[i].0).Some?
    ensures SourceOnly(s[..i + 1], t) == SourceOnly(s[..i], t)
  {
    assert s[..i + 1][..i] == s[..i];
  }

  lemma AssignInPrefix(a: seq<(string, Node)>, b: seq<(string, Node)>, k: string, m: Node, p: nat)
    requires p < |a| && a[p].0 == k && forall j | 0 <= j < p :: a[j].0 != k
    ensures Assign(a + b, k, m) == a[p := (k, m)] + b
  {
    var ab := a + b;
    assert forall j | 0 <= j < p :: ab[j] == a[j];
    AssignAt(ab, k, m, p);
    assert ab[p := (k, m)] == a[p := (k, m)] + b;
  }

  /** The merge loop's step for a source key the target also has. */
  lemma MergeStepShared(t: seq<(string, Node)>, s: seq<(string, Node)>, i: nat, p: nat)
    requires UniqueKeys(t) && UniqueKeys(s) && i < |s| && p < |t| && t[p].0 == s[i].0
    ensures Assign(MergedTarget(t, s[..i]) + SourceOnly(s[..i], t), s[i].0, Merge(t[p].1, s[i].1))
         == MergedTarget(t, s[..i + 1]) + SourceOnly(s[..i + 1], t)
  {
    var k := s[i].0;
    var m := Merge(t[p].1, s[i].1);
    var a := MergedTarget(t, s[..i]);
    var b := SourceOnly(s[..i], t);
    assert forall j | 0 <= j < p :: a[j].0 != k by {
      assert forall j | 0 <= j < p :: a[j].0 == t[j].0;
    }
    AssignInPrefix(a, b, k, m, p);
    var f := FindFirst(t, k);
    SourceOnlyStepShared(t, s, i);
    MergedTargetStepShared(t, s, i, p);
  }

  /** The merge loop's step for a source key the target lacks. */
  lemma MergeStepNew(t: seq<(string, Node)>, s: seq<(string, Node)>, i: nat)
    requires UniqueKeys(s) && i < |s| && Find(t, s[i].0).None?
    ensures Assign(MergedTarget(t, s[..i]) + SourceOnly(s[..i], t), s[i].0, s[i].1)
         == MergedTarget(t, s[..i + 1]) + SourceOnly(s[..i + 1], t)
  {
    var k := s[i].0;
    var a := MergedTarget(t, s[..i]);
    var b := SourceOnly(s[..i], t);
    FindNotInPrefix(s, i);
    assert s[..i + 1][..i] == s[..i];
    var f := FindFirst(t, k);
    assert MergedTarget(t, s[..i + 1]) == a;
    assert SourceOnly(s[..i + 1], t) == b + [s[i]];
    SourceOnlyMembers(s[..i], t);
    forall j | 0 <= j < |a + b|
      ensures (a + b)[j].0 != k
    {
      if j >= |a| {
        assert b[j - |a|] in b;
        var e := b[j - |a|];
        assert e in s[..i];
        var q :| 0 <= q < i && s[q] == e;
      }
    }
    AssignNew(a + b, k, s[i].1);
  }

  /**
   * The imperative merge: a copy of the target object whose keys are then
   * overwritten or appended in source key order.
   */
  method DeepMerge(target: Node, source: Node) returns (r: Node)
    requires WellFormed(target) && WellFormed(source)
    ensures r == Merge(target, source)
    decreases target
  {
    if target.Arr? && source.Arr? {
      return Arr(target.items + source.items);
    } else if IsObject(target) && IsObject(source) {
      var t := target.entries;
      var s := source.entries;
      var merged := t;
      assert MergedTarget(t, s[..0]) == t;
      for i := 0 to |s|
        invariant merged == MergedTarget(t, s[..i]) + SourceOnly(s[..i], t)
      {
        var key := s[i].0;
        ghost var p := FindFirst(t, key);
        match Find(t, key)
        case Some(tv) =>
          assert t[p].1 == tv;
          var m := DeepMerge(tv, s[i].1);
          MergeStepShared(t, s, i, p);
          merged := Assign(merged, key, m);
        case None =>
          MergeStepNew(t, s, i);
          merged := Assign(merged, key, s[i].1);
      }
      assert s[..|s|] == s;
      return Obj(merged);
    } else {
      return source;
    }
  }

  function Max(a: nat, b: nat): nat
  {
    if a >= b then a else b
  }

  /** Nesting depth of a tree; an array counts twice, as its items are merged into one. */
  function Depth(n: Node): nat
    decreases n, 1
  {
    match n
    case Obj(es) => 1 + EntriesDepth(es, 0)
    case Arr(xs) => 2 + ItemsDepth(xs, 0)
    case _ => 0
  }

  /** The largest depth among the values `es[i..]`. */
  function EntriesDepth(es: seq<(string, Node)>, i: nat): nat
    decreases Obj(es), 0, |es| - i
  {
    if i >= |es| then 0 else Max(Depth(es[i].1), EntriesDepth(es, i + 1))
  }

  /** The largest depth among the items `xs[i..]`. */
  function ItemsDepth(xs: seq<Node>, i: nat): nat
    decreases Arr(xs), 0, |xs| - i
  {
    if i >= |xs| then 0 else Max(Depth(xs[i]), ItemsDepth(xs, i + 1))
  }

  lemma {:induction false} EntriesDepthBound(es: seq<(string, Node)>, i: nat, d: nat)
    requires forall j | i <= j < |es| :: Depth(es[j].1) <= d
    ensures EntriesDepth(es, i) <= d
    decreases |es| - i
  {
    if i < |es| {
      EntriesDepthBound(es, i + 1, d);
    }
  }

  lemma {:induction false} EntriesDepthAbove(es: seq<(string, Node)>, i: nat, j: nat)
    requires i <= j < |es|
    ensures Depth(es[j].1) <= EntriesDepth(es, i)
    decreases j - i
  {
    if i < j {
      EntriesDepthAbove(es, i + 1, j);
    }
  }

  lemma {:induction false} ItemsDepthBound(xs: seq<Node>, i: nat, d: nat)
    requires forall j | i <= j < |xs| :: Depth(xs[j]) <= d
    ensures ItemsDepth(xs, i) <= d
    decreases |xs| - i
  {
    if i < |xs| {
      ItemsDepthBound(xs, i + 1, d);
    }
  }

  lemma {:induction false} ItemsDepthAbove(xs: seq<Node>, i: nat, j: nat)
    requires i <= j < |xs|
    ensures Depth(xs[j]) <= ItemsDepth(xs, i)
    decreases j - i
  {
    if i < j {
      ItemsDepthAbove(xs, i + 1, j);
    }
  }

  /** Merging never makes a tree deeper than the deeper of its two inputs. */
  lemma {:induction false} MergeDepth(t: Node, s: Node)
    ensures Depth(Merge(t, s)) <= Max(Depth(t), Depth(s))
    decreases t
  {
    if t.Arr? && s.Arr? {
      var xs := t.items + s.items;
      forall j | 0 <= j < |xs|
        ensures Depth(xs[j]) <= Max(ItemsDepth(t.items, 0), ItemsDepth(s.items, 0))
      {
        if j < |t.items| {
          ItemsDepthAbove(t.items, 0, j);
        } else {
          ItemsDepthAbove(s.items, 0, j - |t.items|);
        }
      }
      ItemsDepthBound(xs, 0, Max(ItemsDepth(t.items, 0), ItemsDepth(s.items, 0)));
    } else if t.Obj? && s.Obj? {
      var a := MergedTarget(t.entries, s.entries);
      var b := SourceOnly(s.entries, t.entries);
      var d := Max(EntriesDepth(t.entries, 0), EntriesDepth(s.entries, 0));
      forall j | 0 <= j < |a|
        ensures Depth(a[j].1) <= d
      {
        EntriesDepthAbove(t.entries, 0, j);
        var f := FindFirst(s.entries, t.entries[j].0);
        assert a[j].1 == MergedValue(t.entries[j].1, Find(s.entries, t.entries[j].0));
        if Find(s.entries, t.entries[j].0).Some? {
          EntriesDepthAbove(s.entries, 0, f);
          MergeDepth(t.entries[j].1, s.entries[f].1);
        }
      }
      SourceOnlyMembers(s.entries, t.entries);
      forall j | 0 <= j < |b|
        ensures Depth(b[j].1) <= d
      {
        assert b[j] in s.entries;
        var q :| 0 <= q < |s.entries| && s.entries[q] == b[j];
        EntriesDepthAbove(s.entries, 0, q);
      }
      var ab := a + b;
      assert forall j | 0 <= j < |ab| :: Depth(ab[j].1) <= d by {
        forall j | 0 <= j < |ab|
          ensures Depth(ab[j].1) <= d
        {
          if j >= |a| {
            assert ab[j] == b[j - |a|];
          }
        }
      }
      EntriesDepthBound(ab, 0, d);
      assert Merge(t, s) == Obj(ab);
    }
  }

  /** `items.reduce((acc, item) => deepMerge(acc, item), {})`. */
  function MergeAll(xs: seq<Node>): Node
  {
    if xs == [] then Obj([]) else Merge(MergeAll(xs[..|xs| - 1]), xs[|xs| - 1])
  }

  /** Folding an array into one value lowers the depth, which bounds the rendering recursion. */
  lemma {:induction false} MergeAllDepth(xs: seq<Node>)
    ensures Depth(MergeAll(xs)) <= Max(1, ItemsDepth(xs, 0))
    ensures Depth(MergeAll(xs)) < Depth(Arr(xs))
  {
    if xs != [] {
      var init := xs[..|xs| - 1];
      MergeAllDepth(init);
      MergeDepth(MergeAll(init), xs[|xs| - 1]);
      ItemsDepthAbove(xs, 0, |xs| - 1);
      ItemsDepthBound(init, 0, ItemsDepth(xs, 0)) by {
        forall j | 0 <= j < |init|
          ensures Depth(init[j]) <= ItemsDepth(xs, 0)
        {
          ItemsDepthAbove(xs, 0, j);
        }
      }
    } else {
      assert EntriesDepth([], 0) == 0;
    }
  }
}
