/**
 A map of Helm values together with the addresses of its nodes.

 Images are immutable: they say which node holds which sub-map, so that sharing between two maps, and what a merge
 writes to, can be reasoned about apart from the memory itself.
 */
module HelmImage {
  import opened HelmValue

  datatype Image<A> = Image(at: A, items: map<string, Item<A>>)

  datatype Item<A> = Flat(scalar: Scalar) | Deep(image: Image<A>)

  predicate HasDeep<A>(img: Image<A>, key: string) {
    key in img.items && img.items[key].Deep?
  }

  /** The values, without the addresses. */
  function Erase<A>(img: Image<A>): Tree {
    map k | k in img.items :: if img.items[k].Deep? then Map(Erase(img.items[k].image)) else Leaf(img.items[k].scalar)
  }

  lemma ErasePut<A>(img: Image<A>, key: string, item: Item<A>)
    ensures Erase(img.(items := img.items[key := item])) ==
            Erase(img)[key := if item.Deep? then Map(Erase(item.image)) else Leaf(item.scalar)]
  {}

  /** All addresses. */
  ghost function Nodes<A>(img: Image<A>): set<A>
    decreases img, 1
  {
    {img.at} + Below(img)
  }

  /** The addresses of the sub-maps. */
  ghost function Below<A>(img: Image<A>): set<A>
    decreases img, 0
  {
    set k, n | k in img.items && img.items[k].Deep? && n in Nodes(img.items[k].image) :: n
  }

  /** No address occurs twice. */
  ghost predicate Proper<A>(img: Image<A>) {
    && (forall k | HasDeep(img, k) :: img.at !in Nodes(img.items[k].image) && Proper(img.items[k].image))
    && (forall k, l | HasDeep(img, k) && HasDeep(img, l) && k != l ::
          Nodes(img.items[k].image) !! Nodes(img.items[l].image))
  }

  lemma ChildNodes<A>(img: Image<A>, k: string)
    requires HasDeep(img, k)
    ensures Nodes(img.items[k].image) <= Nodes(img)
  {}

  // ---------- merging ----------

  /** What the destination's map looks like after a merge: its own sub-maps are written in place, and whatever else the
      source has is stored as it is. */
  function Merged<A>(d: Image<A>, s: Image<A>): (m: Image<A>)
    ensures forall k :: HasDeep(m, k) <==> HasDeep(s, k) || (k !in s.items && HasDeep(d, k))
    decreases s
  {
    Image(d.at, map k | k in d.items.Keys + s.items.Keys :: MergedItem(d, s, k))
  }

  function MergedItem<A>(d: Image<A>, s: Image<A>, k: string): Item<A>
    requires k in d.items.Keys + s.items.Keys
    decreases s, k
  {
    if HasDeep(d, k) && HasDeep(s, k) then Deep(Merged(d.items[k].image, s.items[k].image))
    else if k in s.items then s.items[k] else d.items[k]
  }

  /** The source without the keys still to be visited. */
  function Pending<A>(s: Image<A>, todo: set<string>): Image<A> {
    Image(s.at, map k | k in s.items && k !in todo :: s.items[k])
  }

  /** `d` after the source's item at `key` has been merged in. */
  function MergedAt<A>(d: Image<A>, key: string, item: Item<A>): Image<A> {
    var merged := if item.Deep? && HasDeep(d, key) then Deep(Merged(d.items[key].image, item.image)) else item;
    d.(items := d.items[key := merged])
  }

  /** What one more visited key adds to a merge in progress. */
  lemma MergedStep<A>(d: Image<A>, s: Image<A>, todo: set<string>, key: string)
    requires key in s.items && key in todo
    ensures Merged(d, Pending(s, todo - {key})) == MergedAt(Merged(d, Pending(s, todo)), key, s.items[key])
    ensures HasDeep(Merged(d, Pending(s, todo)), key) <==> HasDeep(d, key)
    ensures HasDeep(d, key) ==> Merged(d, Pending(s, todo)).items[key] == d.items[key]
  {}

  /** The addresses that such a merge writes to. */
  ghost function Touched<A>(d: Image<A>, s: Image<A>): set<A>
    decreases s
  {
    {d.at} + set k, n | k in d.items && k in s.items && d.items[k].Deep? && s.items[k].Deep?
                        && n in Touched(d.items[k].image, s.items[k].image) :: n
  }

  lemma TouchedChild<A>(d: Image<A>, s: Image<A>, k: string)
    requires HasDeep(d, k) && HasDeep(s, k)
    ensures Touched(d.items[k].image, s.items[k].image) <= Touched(d, s)
  {}

  lemma {:induction false} TouchedNodes<A>(d: Image<A>, s: Image<A>)
    ensures Touched(d, s) <= Nodes(d)
    decreases s
  {
    forall k | HasDeep(d, k) && HasDeep(s, k)
      ensures Touched(d.items[k].image, s.items[k].image) <= Nodes(d.items[k].image)
    {
      TouchedNodes(d.items[k].image, s.items[k].image);
    }
  }

  /** The values merge as trees do. */
  lemma {:induction false} EraseMerged<A>(d: Image<A>, s: Image<A>)
    ensures Erase(Merged(d, s)) == Merge(Erase(d), Erase(s))
    decreases s
  {
    var m := Merged(d, s);
    forall k | HasDeep(d, k) && HasDeep(s, k)
      ensures Erase(Merged(d.items[k].image, s.items[k].image)) ==
              Merge(Erase(d.items[k].image), Erase(s.items[k].image))
    {
      EraseMerged(d.items[k].image, s.items[k].image);
    }
    assert m.items.Keys == d.items.Keys + s.items.Keys;
  }

  /** A merge reaches only addresses of the two maps, and of the source not its root. */
  lemma {:induction false} MergedNodes<A>(d: Image<A>, s: Image<A>)
    ensures Nodes(Merged(d, s)) <= Nodes(d) + Below(s)
    decreases s
  {
    var m := Merged(d, s);
    forall k | HasDeep(m, k)
      ensures Nodes(m.items[k].image) <= (if HasDeep(d, k) then Nodes(d.items[k].image) else {})
                                         + (if HasDeep(s, k) then Nodes(s.items[k].image) else {})
    {
      if HasDeep(d, k) && HasDeep(s, k) {
        MergedNodes(d.items[k].image, s.items[k].image);
        assert Below(s.items[k].image) <= Nodes(s.items[k].image);
      }
    }
  }

  lemma {:induction false} MergedProper<A>(d: Image<A>, s: Image<A>)
    requires Proper(d) && Proper(s) && Nodes(d) !! Nodes(s)
    ensures Proper(Merged(d, s))
    decreases s
  {
    var m := Merged(d, s);
    forall k | HasDeep(m, k)
      ensures d.at !in Nodes(m.items[k].image) && Proper(m.items[k].image)
      ensures Nodes(m.items[k].image) <= Held(d, k) + Held(s, k)
    {
      assert m.items[k] == MergedItem(d, s, k);
      assert Held(s, k) <= Nodes(s);
      if HasDeep(d, k) && HasDeep(s, k) {
        ChildNodes(d, k);
        MergedProper(d.items[k].image, s.items[k].image);
        MergedNodes(d.items[k].image, s.items[k].image);
        assert Below(s.items[k].image) <= Nodes(s.items[k].image);
      }
    }
    forall k, l | HasDeep(m, k) && HasDeep(m, l) && k != l
      ensures Nodes(m.items[k].image) !! Nodes(m.items[l].image)
    {
      HeldApart(d, s, k, l);
    }
  }

  /** The addresses below one key. */
  ghost function Held<A>(img: Image<A>, k: string): (nodes: set<A>)
    ensures nodes <= Below(img)
  {
    if HasDeep(img, k) then Nodes(img.items[k].image) else {}
  }

  lemma HeldApart<A>(d: Image<A>, s: Image<A>, k: string, l: string)
    requires Proper(d) && Proper(s) && Nodes(d) !! Nodes(s) && k != l
    ensures Held(d, k) + Held(s, k) !! Held(d, l) + Held(s, l)
  {
    assert Below(d) <= Nodes(d) && Below(s) <= Nodes(s);
  }

  // ---------- a source after later merges ----------

  /** What the source `f` looks like after it was merged into `d`, and then `s` into the same destination. */
  function Patched<A>(d: Image<A>, f: Image<A>, s: Image<A>): Image<A>
    decreases f
  {
    Image(f.at, map k | k in f.items :: PatchedItem(d, f, s, k))
  }

  function PatchedItem<A>(d: Image<A>, f: Image<A>, s: Image<A>, k: string): Item<A>
    requires k in f.items
    decreases f, k
  {
    if !HasDeep(f, k) || !HasDeep(s, k) then f.items[k]
    else if HasDeep(d, k) then Deep(Patched(d.items[k].image, f.items[k].image, s.items[k].image))
    else Deep(Merged(f.items[k].image, s.items[k].image))
  }

  lemma {:induction false} ErasePatched<A>(d: Image<A>, f: Image<A>, s: Image<A>)
    ensures Erase(Patched(d, f, s)) == SourceAfter(Erase(d), Erase(f), Erase(s))
    decreases f
  {
    forall k | HasDeep(f, k) && HasDeep(s, k)
      ensures if HasDeep(d, k)
              then Erase(Patched(d.items[k].image, f.items[k].image, s.items[k].image)) ==
                   SourceAfter(Erase(d.items[k].image), Erase(f.items[k].image), Erase(s.items[k].image))
              else Erase(Merged(f.items[k].image, s.items[k].image)) ==
                   Merge(Erase(f.items[k].image), Erase(s.items[k].image))
    {
      if HasDeep(d, k) {
        ErasePatched(d.items[k].image, f.items[k].image, s.items[k].image);
      } else {
        EraseMerged(f.items[k].image, s.items[k].image);
      }
    }
  }

  lemma {:induction false} PatchedNodes<A>(d: Image<A>, f: Image<A>, s: Image<A>)
    ensures Nodes(Patched(d, f, s)) <= Nodes(f) + Below(s)
    decreases f
  {
    var p := Patched(d, f, s);
    forall k | HasDeep(p, k)
      ensures Nodes(p.items[k].image) <= Held(f, k) + Held(s, k)
    {
      PatchedNodesAt(d, f, s, k);
    }
  }

  lemma {:induction false} PatchedNodesAt<A>(d: Image<A>, f: Image<A>, s: Image<A>, k: string)
    requires HasDeep(Patched(d, f, s), k)
    ensures HasDeep(f, k) && Nodes(Patched(d, f, s).items[k].image) <= Held(f, k) + Held(s, k)
    decreases f, 0
  {
    assert Patched(d, f, s).items[k] == PatchedItem(d, f, s, k);
    if HasDeep(s, k) {
      assert Below(s.items[k].image) <= Nodes(s.items[k].image);
      if HasDeep(d, k) {
        PatchedNodes(d.items[k].image, f.items[k].image, s.items[k].image);
      } else {
        MergedNodes(f.items[k].image, s.items[k].image);
      }
    }
  }

  lemma {:induction false} PatchedProper<A>(d: Image<A>, f: Image<A>, s: Image<A>)
    requires Proper(f) && Proper(s) && Nodes(f) !! Nodes(s)
    ensures Proper(Patched(d, f, s))
    decreases f
  {
    var p := Patched(d, f, s);
    forall k | HasDeep(p, k)
      ensures f.at !in Nodes(p.items[k].image) && Proper(p.items[k].image)
      ensures Nodes(p.items[k].image) <= Held(f, k) + Held(s, k)
    {
      PatchedNodesAt(d, f, s, k);
      ChildNodes(f, k);
      if HasDeep(s, k) {
        ChildNodes(s, k);
        if HasDeep(d, k) {
          PatchedProper(d.items[k].image, f.items[k].image, s.items[k].image);
        } else {
          MergedProper(f.items[k].image, s.items[k].image);
        }
      }
      assert p.items[k] == PatchedItem(d, f, s, k);
    }
    forall k, l | HasDeep(p, k) && HasDeep(p, l) && k != l
      ensures Nodes(p.items[k].image) !! Nodes(p.items[l].image)
    {
      HeldApart(f, s, k, l);
    }
  }

  /** Exactly when it holds the values that it held. */
  lemma PatchedKept<A>(d: Image<A>, f: Image<A>, s: Image<A>)
    ensures Erase(Patched(d, f, s)) == SourceAfter(Erase(d), Erase(f), Erase(s))
    ensures Erase(Patched(d, f, s)) == Erase(f) <==> Spares(Erase(d), Erase(f), Erase(s))
  {
    ErasePatched(d, f, s);
    SourceKeptIff(Erase(d), Erase(f), Erase(s));
  }

  /** The second merge writes to the nodes below key `k` of the first source only through key `k`. */
  lemma TouchedBelow<A>(d: Image<A>, f: Image<A>, s: Image<A>, k: string)
    requires Proper(f) && Nodes(d) !! Nodes(f) && HasDeep(f, k)
    ensures var m := Merged(d, f);
            Touched(m, s) * Nodes(f.items[k].image) <=
              if HasDeep(s, k) then Touched(m.items[k].image, s.items[k].image) else {}
  {
    var m := Merged(d, f);
    forall l | HasDeep(m, l) && HasDeep(s, l) && l != k
      ensures Touched(m.items[l].image, s.items[l].image) !! Nodes(f.items[k].image)
    {
      TouchedNodes(m.items[l].image, s.items[l].image);
      BelowKey(d, f, l);
      ChildNodes(f, k);
    }
    ChildNodes(f, k);
  }

  lemma BelowKey<A>(d: Image<A>, f: Image<A>, l: string)
    requires HasDeep(Merged(d, f), l)
    ensures Nodes(Merged(d, f).items[l].image) <=
            Nodes(d) + (if HasDeep(f, l) then Nodes(f.items[l].image) else {})
  {
    if HasDeep(d, l) {
      ChildNodes(d, l);
      if HasDeep(f, l) {
        MergedNodes(d.items[l].image, f.items[l].image);
        assert Below(f.items[l].image) <= Nodes(f.items[l].image);
      }
    }
  }

  /** The second merge does not write to the first source's root. */
  lemma RootUntouched<A>(d: Image<A>, f: Image<A>, s: Image<A>)
    requires Proper(f) && Nodes(d) !! Nodes(f)
    ensures f.at !in Touched(Merged(d, f), s)
  {
    TouchedNodes(Merged(d, f), s);
    MergedNodes(d, f);
  }
}
