/**
 Helm values as immutable trees, and the deep merge of two of them.

 `Merge` is the pure counterpart of `MergeMaps`: the later tree wins at every key, except that two
 maps at one key are merged recursively.
 */
module HelmValue {
  import opened Wrappers

  /** What a Helm value that is not a map can be: YAML scalars, and slices of strings or of any values. */
  datatype Scalar =
    | Null | Bool(b: bool) | Num(n: real) | Str(s: string) | Strs(ss: seq<string>) | List(items: seq<Value>)

  datatype Value = Leaf(scalar: Scalar) | Map(entries: Tree)

  type Tree = map<string, Value>

  function Merge(dest: Tree, src: Tree): Tree
    decreases Map(src)
  {
    map k | k in dest.Keys + src.Keys ::
      if k !in src then dest[k]
      else if src[k].Map? && k in dest && dest[k].Map?
      then Map(Merge(dest[k].entries, src[k].entries))
      else src[k]
  }

  /** `src` without the keys still to be visited. */
  function Visited(src: Tree, todo: set<string>): Tree {
    map k | k in src && k !in todo :: src[k]
  }

  lemma VisitedPut(src: Tree, todo: set<string>, key: string)
    requires key in src && key in todo
    ensures Visited(src, todo - {key}) == Visited(src, todo)[key := src[key]]
  {}

  // ---------- algebra ----------

  lemma MergeIdentity(t: Tree)
    ensures Merge(t, map[]) == t
    ensures Merge(map[], t) == t
  {
    assert Merge(t, map[]).Keys == t.Keys;
  }

  /** Merging the same source a second time changes nothing. */
  lemma {:induction false} MergeIdempotent(d: Tree, s: Tree)
    ensures Merge(Merge(d, s), s) == Merge(d, s)
    decreases Map(s)
  {
    var m := Merge(d, s);
    forall k | k in s && s[k].Map?
      ensures Map(Merge(m[k].entries, s[k].entries)) == m[k]
    {
      if k in d && d[k].Map? {
        MergeIdempotent(d[k].entries, s[k].entries);
      } else {
        MergeIdempotent(map[], s[k].entries);
      }
    }
  }

  /** Every key of `a` is also in `c`, at every level where both are maps. */
  predicate Covers(c: Tree, a: Tree)
    decreases Map(c)
  {
    && a.Keys <= c.Keys
    && forall k | k in a && k in c && a[k].Map? && c[k].Map? :: Covers(c[k].entries, a[k].entries)
  }

  lemma {:induction false} CoversIff(c: Tree, a: Tree)
    ensures Merge(a, c) == c <==> Covers(c, a)
    decreases Map(c)
  {
    var m := Merge(a, c);
    forall k | k in a && k in c && a[k].Map? && c[k].Map?
      ensures m[k] == c[k] <==> Covers(c[k].entries, a[k].entries)
    {
      CoversIff(c[k].entries, a[k].entries);
    }
    if m == c {
      assert m.Keys == a.Keys + c.Keys;
      assert a.Keys <= c.Keys;
    }
    if Covers(c, a) {
      assert m.Keys == c.Keys;
      assert forall k | k in c :: m[k] == c[k];
    }
  }

  /**
   At a path that is a map in `a`, a non-map in `b` and a map in `c`, merging `b` first deletes what `a`
   had there, while merging `b` into `c` first brings it back.  The two agree only if `c` overwrites
   everything that `a` had there.
   */
  predicate NothingResurrected(a: Tree, b: Tree, c: Tree)
    decreases Map(c)
  {
    forall k | k in a && k in b && k in c && a[k].Map? && c[k].Map? ::
      if b[k].Map? then NothingResurrected(a[k].entries, b[k].entries, c[k].entries)
      else Covers(c[k].entries, a[k].entries)
  }

  /** Exactly when the deep merge of three layers does not depend on grouping. */
  lemma {:induction false} MergeAssociativeIff(a: Tree, b: Tree, c: Tree)
    ensures Merge(Merge(a, b), c) == Merge(a, Merge(b, c)) <==> NothingResurrected(a, b, c)
    decreases Map(c), 1
  {
    var l, r := Merge(Merge(a, b), c), Merge(a, Merge(b, c));
    assert l.Keys == r.Keys == a.Keys + b.Keys + c.Keys;
    forall k | k in l
      ensures k in a && k in b && k in c && a[k].Map? && c[k].Map? ==>
                (l[k] == r[k] <==> if b[k].Map? then NothingResurrected(a[k].entries, b[k].entries, c[k].entries)
                                   else Covers(c[k].entries, a[k].entries))
      ensures !(k in a && k in b && k in c && a[k].Map? && c[k].Map?) ==> l[k] == r[k]
    {
      MergeAssociativeAt(a, b, c, k);
    }
    assert l == r <==> forall k | k in l :: l[k] == r[k];
  }

  lemma {:induction false} MergeAssociativeAt(a: Tree, b: Tree, c: Tree, k: string)
    requires k in a.Keys + b.Keys + c.Keys
    ensures var l, r := Merge(Merge(a, b), c), Merge(a, Merge(b, c));
            if k in a && k in b && k in c && a[k].Map? && c[k].Map?
            then l[k] == r[k] <==> if b[k].Map? then NothingResurrected(a[k].entries, b[k].entries, c[k].entries)
                                   else Covers(c[k].entries, a[k].entries)
            else l[k] == r[k]
    decreases Map(c), 0
  {
    if k in a && k in b && k in c && a[k].Map? && c[k].Map? {
      if b[k].Map? {
        MergeAssociativeIff(a[k].entries, b[k].entries, c[k].entries);
      } else {
        CoversIff(c[k].entries, a[k].entries);
      }
    }
  }

  /** No path is a map in `a`, a non-map in `b` and a map in `c`. */
  ghost predicate NoMapLeafMap(a: Tree, b: Tree, c: Tree) {
    forall p: seq<string> | p != [] ::
      !(Get(a, p).Some? && Get(a, p).value.Map? && Get(b, p).Some? && Get(b, p).value.Leaf?
        && Get(c, p).Some? && Get(c, p).value.Map?)
  }

  lemma {:induction false} MergeAssociative(a: Tree, b: Tree, c: Tree)
    requires NoMapLeafMap(a, b, c)
    ensures Merge(Merge(a, b), c) == Merge(a, Merge(b, c))
  {
    NoMapLeafMapSuffices(a, b, c);
    MergeAssociativeIff(a, b, c);
  }

  lemma {:induction false} NoMapLeafMapSuffices(a: Tree, b: Tree, c: Tree)
    requires NoMapLeafMap(a, b, c)
    ensures NothingResurrected(a, b, c)
    decreases Map(c)
  {
    forall k | k in a && k in b && k in c && a[k].Map? && c[k].Map?
      ensures b[k].Map? && NothingResurrected(a[k].entries, b[k].entries, c[k].entries)
    {
      assert Get(a, [k]).Some? && Get(c, [k]).Some? && Get(b, [k]).Some?;
      forall p: seq<string> | p != []
        ensures Get(a, [k] + p) == Get(a[k].entries, p)
        ensures Get(c, [k] + p) == Get(c[k].entries, p)
        ensures b[k].Map? ==> Get(b, [k] + p) == Get(b[k].entries, p)
      {
        assert ([k] + p)[1..] == p;
      }
      NoMapLeafMapSuffices(a[k].entries, b[k].entries, c[k].entries);
    }
  }

  /** The merge is not associative: a non-empty map, a scalar and an empty map at one key. */
  lemma MergeNotAssociative(key: string, x: Tree, scalar: Scalar)
    requires x != map[]
    ensures var a: Tree, b: Tree, c: Tree := map[key := Map(x)], map[key := Leaf(scalar)], map[key := Map(map[])];
            Merge(Merge(a, b), c) != Merge(a, Merge(b, c))
  {
    var a: Tree, b: Tree, c: Tree := map[key := Map(x)], map[key := Leaf(scalar)], map[key := Map(map[])];
    assert !Covers(map[], x);
    assert a[key] == Map(x) && b[key].Leaf? && c[key] == Map(map[]);
    MergeAssociativeIff(a, b, c);
  }

  // ---------- paths ----------

  /** The value at path `p`; the empty path is not a path of a tree. */
  function Get(t: Tree, p: seq<string>): Option<Value>
    decreases |p|
  {
    if p == [] || p[0] !in t then None
    else if |p| == 1 then Some(t[p[0]])
    else if t[p[0]].Map? then Get(t[p[0]].entries, p[1..])
    else None
  }

  function LeafAt(t: Tree, p: seq<string>): Option<Scalar> {
    var v := Get(t, p);
    if v.Some? && v.value.Leaf? then Some(v.value.scalar) else None
  }

  /** Some non-empty prefix of `p` is in `t`, and is `p` itself or a non-map. */
  ghost predicate Sets(t: Tree, p: seq<string>) {
    exists i | 0 < i <= |p| ::
      Get(t, p[..i]).Some? && (i == |p| || Get(t, p[..i]).value.Leaf?)
  }

  lemma SetsStep(t: Tree, p: seq<string>)
    requires p != []
    ensures Sets(t, p) <==>
            p[0] in t && (|p| == 1 || t[p[0]].Leaf? || Sets(t[p[0]].entries, p[1..]))
  {
    forall i | 0 < i <= |p| ensures p[..i][0] == p[0] && p[..i][1..] == p[1..][..i - 1] {}
    if Sets(t, p) {
      var i :| 0 < i <= |p| && Get(t, p[..i]).Some? && (i == |p| || Get(t, p[..i]).value.Leaf?);
      if |p| != 1 && t[p[0]].Map? {
        assert i > 1;
        assert Get(t[p[0]].entries, p[1..][..i - 1]).Some?;
      }
    }
    if p[0] in t {
      if |p| == 1 || t[p[0]].Leaf? {
        assert Get(t, p[..1]) == Some(t[p[0]]);
      } else if Sets(t[p[0]].entries, p[1..]) {
        var e, q := t[p[0]].entries, p[1..];
        var i :| 0 < i <= |q| && Get(e, q[..i]).Some? && (i == |q| || Get(e, q[..i]).value.Leaf?);
        assert Get(t, p[..i + 1]) == Get(e, q[..i]);
      }
    }
  }

  /** What the merge holds at every path: the source's leaf, else the destination's leaf unless the
      source sets that path to a map or one of its prefixes to a non-map. */
  lemma {:induction false} MergeLeaf(d: Tree, s: Tree, p: seq<string>)
    requires p != []
    ensures LeafAt(Merge(d, s), p) ==
            if LeafAt(s, p).Some? then LeafAt(s, p)
            else if Sets(s, p) then None
            else LeafAt(d, p)
    decreases |p|
  {
    var k := p[0];
    SetsStep(s, p);
    if |p| > 1 && k in s && s[k].Map? {
      if k in d && d[k].Map? {
        MergeLeaf(d[k].entries, s[k].entries, p[1..]);
      } else {
        MergeLeaf(map[], s[k].entries, p[1..]);
        MergeIdentity(s[k].entries);
      }
    }
  }

  /** The two layers of overrides that value generation applies; an absent layer is skipped. */
  function Overlay(generated: Tree, additional: Option<Tree>, extra: Option<Tree>): Tree {
    var v := if additional.Some? then Merge(generated, additional.value) else generated;
    if extra.Some? then Merge(v, extra.value) else v
  }

  function OrEmpty(layer: Option<Tree>): Tree {
    if layer.Some? then layer.value else map[]
  }

  /** Which leaf of which layer survives at every path of the final values. */
  lemma OverlayLeaf(generated: Tree, additional: Option<Tree>, extra: Option<Tree>, p: seq<string>)
    requires p != []
    ensures var a, x := OrEmpty(additional), OrEmpty(extra);
            LeafAt(Overlay(generated, additional, extra), p) ==
            if LeafAt(x, p).Some? then LeafAt(x, p)
            else if Sets(x, p) then None
            else if LeafAt(a, p).Some? then LeafAt(a, p)
            else if Sets(a, p) then None
            else LeafAt(generated, p)
  {
    var a, x := OrEmpty(additional), OrEmpty(extra);
    MergeIdentity(generated);
    MergeIdentity(Merge(generated, a));
    assert Overlay(generated, additional, extra) == Merge(Merge(generated, a), x);
    MergeLeaf(Merge(generated, a), x, p);
    MergeLeaf(generated, a, p);
  }

  // ---------- what a merge leaves of an earlier source ----------

  /** Merging `s` into `f` finds everything there already. */
  predicate Absorbs(f: Tree, s: Tree)
    decreases Map(s)
  {
    forall k | k in s ::
      k in f && if s[k].Map? then f[k].Map? && Absorbs(f[k].entries, s[k].entries) else f[k] == s[k]
  }

  lemma {:induction false} AbsorbsIff(f: Tree, s: Tree)
    ensures Merge(f, s) == f <==> Absorbs(f, s)
    decreases Map(s)
  {
    var m := Merge(f, s);
    forall k | k in f && k in s && f[k].Map? && s[k].Map?
      ensures m[k] == f[k] <==> Absorbs(f[k].entries, s[k].entries)
    {
      AbsorbsIff(f[k].entries, s[k].entries);
    }
    assert m.Keys == f.Keys + s.Keys;
    if Absorbs(f, s) {
      assert m.Keys == f.Keys;
      assert forall k | k in f :: m[k] == f[k];
    } else {
      var k :| k in s
          && !(k in f && if s[k].Map? then f[k].Map? && Absorbs(f[k].entries, s[k].entries) else f[k] == s[k]);
      assert k in m && (k in f ==> m[k] != f[k]);
    }
  }

  /** What the source `f` holds after it was merged into `d`, which took sub-maps from it by reference, and after `s`
      was then merged into the same destination. */
  function SourceAfter(d: Tree, f: Tree, s: Tree): Tree
    decreases Map(f)
  {
    map k | k in f ::
      if !f[k].Map? || k !in s || !s[k].Map? then f[k]
      else if k in d && d[k].Map? then Map(SourceAfter(d[k].entries, f[k].entries, s[k].entries))
      else Map(Merge(f[k].entries, s[k].entries))
  }

  /** At every path at which `d` took a sub-map from `f` by reference, merging that of `s` into it adds and changes
      nothing. */
  predicate Spares(d: Tree, f: Tree, s: Tree)
    decreases Map(f)
  {
    forall k | k in f && f[k].Map? && k in s && s[k].Map? ::
      if k in d && d[k].Map? then Spares(d[k].entries, f[k].entries, s[k].entries)
      else Absorbs(f[k].entries, s[k].entries)
  }

  /** Exactly when an earlier source survives a later merge. */
  lemma {:induction false} SourceKeptIff(d: Tree, f: Tree, s: Tree)
    ensures SourceAfter(d, f, s) == f <==> Spares(d, f, s)
    decreases Map(f)
  {
    var a := SourceAfter(d, f, s);
    assert a.Keys == f.Keys;
    forall k | k in f && f[k].Map? && k in s && s[k].Map?
      ensures a[k] == f[k] <==> if k in d && d[k].Map? then Spares(d[k].entries, f[k].entries, s[k].entries)
                                else Absorbs(f[k].entries, s[k].entries)
    {
      if k in d && d[k].Map? {
        SourceKeptIff(d[k].entries, f[k].entries, s[k].entries);
      } else {
        AbsorbsIff(f[k].entries, s[k].entries);
      }
    }
    assert forall k | k in f && !(f[k].Map? && k in s && s[k].Map?) :: a[k] == f[k];
    if Spares(d, f, s) {
      assert forall k | k in f :: a[k] == f[k];
    }
  }

  lemma {:induction false} NothingLater(d: Tree, f: Tree)
    ensures SourceAfter(d, f, map[]) == f && Spares(d, f, map[])
  {
    SourceKeptIff(d, f, map[]);
  }
}
