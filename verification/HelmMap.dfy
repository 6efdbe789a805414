/**
 The same Helm values as they live in memory: maps are mutable nodes that hold their sub-maps by
 reference, and a merge writes into the destination's nodes.
 */
module HelmMap {
  import opened Wrappers
  import opened HelmValue
  import opened HelmImage

  datatype Entry = Atom(scalar: Scalar) | Sub(node: MapNode)

  class MapNode {
    var entries: map<string, Entry>
    // Every node reachable from this one (and possibly some that once were).
    ghost var Repr: set<MapNode>
    // The tree of values that this node stands for, with the nodes that hold them.
    ghost var Shape: Image<MapNode>

    /** The tree of values that this node stands for. */
    ghost function Content(): Tree
      reads this
    {
      Erase(Shape)
    }

    /** The nodes reachable from here form a tree, and `Shape` is what they hold. */
    ghost predicate Valid()
      reads this, Repr
      ensures Valid() ==> this in Repr
      decreases Repr
    {
      && this in Repr
      && Shape.at == this && Shape.items.Keys == entries.Keys
      && (forall k | k in entries ::
            match entries[k]
            case Atom(s) => Shape.items[k] == Flat(s)
            case Sub(n) =>
              && n in Repr && n.Repr <= Repr && this !in n.Repr && n.Valid()
              && Shape.items[k] == Deep(n.Shape))
      && (forall k, l | k in entries && l in entries && k != l && entries[k].Sub? && entries[l].Sub? ::
            entries[k].node.Repr !! entries[l].node.Repr)
    }

    /** Valid apart from what is held at `key`. */
    ghost predicate ValidExcept(key: string)
      reads this, Repr
    {
      && this in Repr
      && Shape.at == this && Shape.items.Keys == entries.Keys
      && (forall k | k in entries && k != key ::
            match entries[k]
            case Atom(s) => Shape.items[k] == Flat(s)
            case Sub(n) =>
              && n in Repr && n.Repr <= Repr && this !in n.Repr && n.Valid()
              && Shape.items[k] == Deep(n.Shape))
      && (forall k, l | k in entries && l in entries && k != l && k != key && l != key
                        && entries[k].Sub? && entries[l].Sub? ::
            entries[k].node.Repr !! entries[l].node.Repr)
    }

    /** The children at keys other than `key` share no node with `nodes`. */
    ghost predicate Apart(key: string, nodes: set<MapNode>)
      reads this, Repr
      requires this in Repr
    {
      && this !in nodes
      && forall k | k in entries && k != key && entries[k].Sub? && entries[k].node in Repr ::
           entries[k].node.Repr !! nodes
    }

    constructor ()
      ensures Valid() && fresh(Repr) && Repr == {this}
      ensures entries == map[] && Content() == map[] && Shape == Image(this, map[])
    {
      entries := map[];
      Repr := {this};
      Shape := Image(this, map[]);
    }

    /** Accounts for writes that went through an alias to the sub-map at `key`. */
    ghost method Refresh(key: string)
      requires ValidExcept(key) && key in entries && entries[key].Sub?
      requires entries[key].node.Valid() && Apart(key, entries[key].node.Repr)
      modifies this`Repr, this`Shape
      ensures Valid() && Repr == old(Repr) + entries[key].node.Repr
      ensures Content() == old(Content())[key := Map(entries[key].node.Content())]
      ensures Shape == old(Shape).(items := old(Shape).items[key := Deep(entries[key].node.Shape)])
    {
      ErasePut(Shape, key, Deep(entries[key].node.Shape));
      Shape := Shape.(items := Shape.items[key := Deep(entries[key].node.Shape)]);
      Repr := Repr + entries[key].node.Repr;
    }

    /** `m[key] = e`, for an entry that shares nothing with the rest of the tree. */
    method Put(key: string, e: Entry)
      requires ValidExcept(key)
      requires e.Sub? ==> e.node.Valid() && Apart(key, e.node.Repr)
      modifies this
      ensures Valid() && entries == old(entries)[key := e]
      ensures Repr == old(Repr) + if e.Sub? then e.node.Repr else {}
      ensures Content() == old(Content())[key := if e.Sub? then Map(e.node.Content()) else Leaf(e.scalar)]
      ensures Shape == old(Shape).(items := old(Shape).items[key := ItemOf(e)])
    {
      ErasePut(Shape, key, ItemOf(e));
      if e.Sub? {
        PutNode(key, e.node);
      } else {
        PutScalar(key, e.scalar);
      }
    }

    method PutNode(key: string, n: MapNode)
      requires ValidExcept(key) && n.Valid() && Apart(key, n.Repr)
      modifies this
      ensures Valid() && entries == old(entries)[key := Sub(n)]
      ensures Repr == old(Repr) + n.Repr
      ensures Shape == old(Shape).(items := old(Shape).items[key := Deep(n.Shape)])
    {
      Shape := Shape.(items := Shape.items[key := Deep(n.Shape)]);
      entries := entries[key := Sub(n)];
      Repr := Repr + n.Repr;
    }

    method PutScalar(key: string, s: Scalar)
      requires ValidExcept(key)
      modifies this
      ensures Valid() && entries == old(entries)[key := Atom(s)]
      ensures Repr == old(Repr)
      ensures Shape == old(Shape).(items := old(Shape).items[key := Flat(s)])
    {
      Shape := Shape.(items := Shape.items[key := Flat(s)]);
      entries := entries[key := Atom(s)];
    }
  }

  predicate HasMap(entries: map<string, Entry>, key: string) {
    key in entries && entries[key].Sub?
  }

  ghost function ItemOf(e: Entry): Item<MapNode>
    reads if e.Sub? then {e.node} else {}
  {
    if e.Sub? then Deep(e.node.Shape) else Flat(e.scalar)
  }

  /** `n` is at the root of a tree as soon as its children are trees among `nodes` that share nothing. */
  ghost predicate Sealable(n: MapNode, nodes: set<MapNode>)
    reads n, nodes
  {
    && n !in nodes
    && (forall k | k in n.entries && n.entries[k].Sub? ::
          n.entries[k].node in nodes && n.entries[k].node.Repr <= nodes && n.entries[k].node.Valid())
    && (forall k, l | k in n.entries && l in n.entries && k != l && n.entries[k].Sub? && n.entries[l].Sub? ::
          n.entries[k].node.Repr !! n.entries[l].node.Repr)
  }

  ghost method Seal(n: MapNode, nodes: set<MapNode>)
    requires Sealable(n, nodes)
    modifies n`Repr, n`Shape
    ensures n.Valid() && n.Repr == {n} + nodes
    ensures n.Content() == old(map k | k in n.entries :: EntryValue(n.entries[k]))
  {
    n.Shape := Image(n, map k | k in n.entries :: ItemOf(n.entries[k]));
    n.Repr := {n} + nodes;
  }

  ghost function EntryValue(e: Entry): Value
    reads if e.Sub? then {e.node} else {}
  {
    if e.Sub? then Map(e.node.Content()) else Leaf(e.scalar)
  }

  /** The part of `src`'s nodes that `dest` may share once the keys outside `todo` are merged. */
  ghost predicate SharesOnly(dest: MapNode, src: MapNode, todo: set<string>)
    requires dest.Valid() && src.Valid()
    reads dest, dest.Repr, src, src.Repr
  {
    && dest !in src.Repr
    && forall k | k in dest.entries && dest.entries[k].Sub? ::
         dest.entries[k].node.Repr !!
         if k in src.entries && k !in todo && src.entries[k].Sub? then src.Repr - src.entries[k].node.Repr else src.Repr
  }

  // ---------- a tree and its image ----------

  lemma {:induction false} NodesInRepr(n: MapNode)
    requires n.Valid()
    ensures Nodes(n.Shape) <= n.Repr && Proper(n.Shape)
    decreases n.Repr
  {
    forall k | HasDeep(n.Shape, k)
      ensures n.Shape.items[k].image == n.entries[k].node.Shape
      ensures Nodes(n.entries[k].node.Shape) <= n.entries[k].node.Repr && Proper(n.entries[k].node.Shape)
    {
      NodesInRepr(n.entries[k].node);
    }
  }

  lemma ChildRepr(n: MapNode, key: string)
    requires n.Valid() && HasMap(n.entries, key)
    ensures n.entries[key].node.Repr <= n.Repr - {n}
  {}

  // ---------- merging in place ----------

  /** Merges `src` into `dest` in place.  Writes only to the maps of `dest` at paths at which both have one, and stores
      whatever else `src` has by reference. */
  method MergeMaps(dest: MapNode?, src: MapNode?) returns (r: Result<MapNode, string>)
    requires dest != null && src != null ==> dest.Valid() && src.Valid() && dest.Repr !! src.Repr
    modifies if dest != null && src != null then dest.Repr * Touched(dest.Shape, src.Shape) else {}
    ensures src == null ==> r == Err("source map is nil")
    ensures src != null && dest == null ==> r == Err("destination map is nil")
    ensures dest != null && src != null ==>
              && r == Ok(dest) && dest.Valid()
              && dest.Content() == Merge(old(dest.Content()), old(src.Content()))
              && dest.Shape == Merged(old(dest.Shape), old(src.Shape))
              && dest.Repr <= old(dest.Repr) + (src.Repr - {src})
    ensures dest != null && src != null ==> unchanged(src.Repr) && src.Valid()
    decreases if src == null then {} else src.Repr, 4
  {
    if src == null {
      return Err("source map is nil");
    }
    if dest == null {
      return Err("destination map is nil");
    }
    EraseMerged(dest.Shape, src.Shape);
    MergeKeys(dest, src);
    return Ok(dest);
  }

  /** Visits the keys of `src` in any order. */
  method MergeKeys(dest: MapNode, src: MapNode)
    requires dest.Valid() && src.Valid() && dest.Repr !! src.Repr
    modifies dest.Repr * Touched(dest.Shape, src.Shape)
    ensures dest.Valid() && src.Valid()
    ensures dest.Shape == Merged(old(dest.Shape), old(src.Shape))
    ensures dest.Repr <= old(dest.Repr) + (src.Repr - {src})
    decreases src.Repr, 3
  {
    ghost var d0, s0 := dest.Shape, src.Shape;
    ghost var nodes := dest.Repr + (src.Repr - {src});
    var todo := src.entries.Keys;
    while todo != {}
      invariant todo <= src.entries.Keys && src.entries == old(src.entries) && src.Shape == s0
                && src.Repr == old(src.Repr)
      invariant dest.Valid() && src.Valid()
      invariant dest.Repr <= nodes
      invariant SharesOnly(dest, src, todo)
      invariant dest.Shape == Merged(d0, Pending(s0, todo))
    {
      var key :| key in todo;
      MergedStep(d0, s0, todo, key);
      if src.entries[key].Sub? && key in dest.entries && dest.entries[key].Sub? {
        TouchedChild(d0, s0, key);
        MergeAt(dest, src, todo, key, nodes);
      } else {
        StoreAt(dest, src, todo, key, nodes);
      }
      todo := todo - {key};
    }
    assert Pending(s0, todo) == s0;
  }

  /** One iteration with two maps at `key`: the source's is merged into the destination's. */
  method MergeAt(dest: MapNode, src: MapNode, ghost todo: set<string>, key: string, ghost nodes: set<MapNode>)
    requires dest.Valid() && src.Valid() && SharesOnly(dest, src, todo)
    requires dest.Repr <= nodes && src.Repr - {src} <= nodes
    requires key in todo && key in src.entries && src.entries[key].Sub? && HasMap(dest.entries, key)
    modifies {dest} + dest.entries[key].node.Repr * Touched(dest.Shape.items[key].image, src.Shape.items[key].image)
    ensures dest.Valid() && src.Valid() && unchanged(src)
    ensures SharesOnly(dest, src, todo - {key})
    ensures dest.Repr <= nodes
    ensures dest.Shape == old(MergedAt(dest.Shape, key, src.Shape.items[key]))
    decreases src.Repr, 2
  {
    ChildRepr(dest, key);
    ChildRepr(src, key);
    var merged := MergeChild(dest, src, todo, key);
    assert merged.Repr <= nodes;
    PutMerged(dest, src, todo, key, merged);
  }

  /** The children of `dest` at keys other than `key` share with `src` what they may. */
  ghost predicate OthersShare(dest: MapNode, src: MapNode, todo: set<string>, key: string)
    reads dest, dest.Repr, src, src.Repr
  {
    && dest !in src.Repr
    && forall k | HasMap(dest.entries, k) && k != key ::
         dest.entries[k].node in dest.Repr && MayShare(dest.entries[k].node, src, todo, k)
  }

  /** The child `n` at `key` shares at most the source's sub-map at that key. */
  ghost predicate MayShare(n: MapNode, src: MapNode, todo: set<string>, key: string)
    reads n, src, src.Repr
  {
    n.Repr !! if HasMap(src.entries, key) && key !in todo && src.entries[key].node in src.Repr
              then src.Repr - src.entries[key].node.Repr else src.Repr
  }

  /** `dest[key] = merged`. */
  method PutMerged(dest: MapNode, src: MapNode, ghost todo: set<string>, key: string, merged: MapNode)
    requires dest.ValidExcept(key) && src.Valid() && OthersShare(dest, src, todo, key)
    requires key in todo && HasMap(src.entries, key)
    requires merged.Valid() && dest.Apart(key, merged.Repr) && merged.Repr !! src.Repr - src.entries[key].node.Repr
    modifies dest
    ensures dest.Valid() && src.Valid() && SharesOnly(dest, src, todo - {key})
    ensures dest.Repr == old(dest.Repr) + merged.Repr
    ensures dest.Shape == old(dest.Shape).(items := old(dest.Shape).items[key := Deep(merged.Shape)])
  {
    dest.Put(key, Sub(merged));
  }

  /** One iteration with at most one map at `key`: the source's value replaces the destination's. */
  method StoreAt(dest: MapNode, src: MapNode, ghost todo: set<string>, key: string, ghost nodes: set<MapNode>)
    requires dest.Valid() && src.Valid() && SharesOnly(dest, src, todo)
    requires dest.Repr <= nodes && src.Repr - {src} <= nodes
    requires key in todo && key in src.entries && !(src.entries[key].Sub? && HasMap(dest.entries, key))
    modifies dest
    ensures dest.Valid() && src.Valid() && unchanged(src)
    ensures SharesOnly(dest, src, todo - {key})
    ensures dest.Repr <= nodes
    ensures dest.Shape == old(MergedAt(dest.Shape, key, src.Shape.items[key]))
  {
    if src.entries[key].Sub? {
      ChildRepr(src, key);
    }
    dest.Put(key, src.entries[key]);
  }

  /** The recursive merge below one key; everything that `dest` holds at its other keys is left alone. */
  method MergeChild(dest: MapNode, src: MapNode, ghost todo: set<string>, key: string) returns (merged: MapNode)
    requires dest.Valid() && src.Valid() && OthersShare(dest, src, todo, key)
    requires HasMap(src.entries, key) && HasMap(dest.entries, key) && dest.entries[key].node.Repr !! src.Repr
    modifies dest.entries[key].node.Repr * Touched(dest.Shape.items[key].image, src.Shape.items[key].image)
    ensures merged == dest.entries[key].node && merged.Valid()
    ensures merged.Shape == Merged(old(dest.Shape.items[key].image), old(src.Shape.items[key].image))
    ensures merged.Repr <= old(dest.entries[key].node.Repr) + src.entries[key].node.Repr
    ensures dest.ValidExcept(key) && dest.Apart(key, merged.Repr)
    ensures src.Valid() && OthersShare(dest, src, todo, key)
    decreases src.Repr, 1
  {
    merged := MergeBelow(dest, src, key);
  }

  method MergeBelow(dest: MapNode, src: MapNode, key: string) returns (merged: MapNode)
    requires dest.Valid() && src.Valid()
    requires HasMap(src.entries, key) && HasMap(dest.entries, key) && dest.entries[key].node.Repr !! src.Repr
             && dest !in src.Repr
    modifies dest.entries[key].node.Repr * Touched(dest.Shape.items[key].image, src.Shape.items[key].image)
    ensures merged == dest.entries[key].node && merged.Valid()
    ensures merged.Shape == Merged(old(dest.Shape.items[key].image), old(src.Shape.items[key].image))
    ensures merged.Repr <= old(dest.entries[key].node.Repr) + src.entries[key].node.Repr
    ensures dest.ValidExcept(key) && src.Valid() && unchanged(src.Repr)
    decreases src.Repr, 0
  {
    var r := MergeMaps(dest.entries[key].node, src.entries[key].node);
    return r.value;
  }

  // ---------- what an earlier source holds afterwards ----------

  type Memory = map<MapNode, map<string, Entry>>

  ghost function Snapshot(nodes: set<MapNode>): Memory
    reads nodes
  {
    map n | n in nodes :: n.entries
  }

  function EntryOf(item: Item<MapNode>): Entry {
    if item.Deep? then Sub(item.image.at) else Atom(item.scalar)
  }

  /** The memory `h` holds exactly what `img` says, at every node of it. */
  predicate HeldIn(h: Memory, img: Image<MapNode>)
    decreases img
  {
    && img.at in h && h[img.at].Keys == img.items.Keys
    && forall k | k in img.items :: h[img.at][k] == EntryOf(img.items[k])
                                    && (img.items[k].Deep? ==> HeldIn(h, img.items[k].image))
  }

  ghost predicate Holds(img: Image<MapNode>)
    reads Nodes(img)
  {
    HeldIn(Snapshot(Nodes(img)), img)
  }

  lemma {:induction false} ValidHeld(n: MapNode, nodes: set<MapNode>)
    requires n.Valid() && n.Repr <= nodes
    ensures HeldIn(Snapshot(nodes), n.Shape)
    decreases n.Repr
  {
    forall k | HasDeep(n.Shape, k)
      ensures HeldIn(Snapshot(nodes), n.Shape.items[k].image)
    {
      ValidHeld(n.entries[k].node, nodes);
    }
  }

  /** Untouched nodes hold what they held. */
  lemma {:induction false} HeldStill(h: Memory, h': Memory, img: Image<MapNode>)
    requires HeldIn(h, img)
    requires forall n | n in Nodes(img) && n in h :: n in h' && h'[n] == h[n]
    ensures HeldIn(h', img)
    decreases img
  {
    forall k | HasDeep(img, k)
      ensures HeldIn(h', img.items[k].image)
    {
      ChildNodes(img, k);
      HeldStill(h, h', img.items[k].image);
    }
  }

  /** What the first source holds once a second one was merged into the same destination. */
  lemma {:induction false} PatchedHeld(h: Memory, h': Memory, d: Image<MapNode>, f: Image<MapNode>, s: Image<MapNode>)
    requires Proper(f) && Nodes(d) !! Nodes(f)
    requires HeldIn(h, f) && HeldIn(h', Merged(Merged(d, f), s))
    requires forall n | n in Nodes(f) && n in h && n !in Touched(Merged(d, f), s) :: n in h' && h'[n] == h[n]
    ensures HeldIn(h', Patched(d, f, s))
    decreases f
  {
    RootUntouched(d, f, s);
    var p := Patched(d, f, s);
    forall k | k in f.items
      ensures EntryOf(p.items[k]) == EntryOf(f.items[k])
      ensures HasDeep(p, k) ==> HeldIn(h', p.items[k].image)
    {
      PatchedAddress(d, f, s, k);
      if HasDeep(f, k) {
        if HasDeep(s, k) {
          HeldMerged(h', Merged(d, f), s, k);
        }
        PatchedHeldAt(h, h', d, f, s, k);
      }
    }
  }

  lemma PatchedAddress(d: Image<MapNode>, f: Image<MapNode>, s: Image<MapNode>, k: string)
    requires k in f.items
    ensures EntryOf(Patched(d, f, s).items[k]) == EntryOf(f.items[k])
    ensures HasDeep(Patched(d, f, s), k) <==> HasDeep(f, k)
  {
    assert Patched(d, f, s).items[k] == PatchedItem(d, f, s, k);
  }

  lemma HeldMerged(h: Memory, d: Image<MapNode>, s: Image<MapNode>, k: string)
    requires HeldIn(h, Merged(d, s)) && HasDeep(d, k) && HasDeep(s, k)
    ensures HeldIn(h, Merged(d.items[k].image, s.items[k].image))
  {
    var m := Merged(d, s);
    assert m.items[k] == MergedItem(d, s, k);
    assert HeldIn(h, m.items[k].image);
  }

  lemma {:induction false} PatchedHeldAt(h: Memory, h': Memory, d: Image<MapNode>, f: Image<MapNode>, s: Image<MapNode>,
                                         k: string)
    requires Proper(f) && Nodes(d) !! Nodes(f) && HasDeep(f, k) && HeldIn(h, f)
    requires HasDeep(s, k) ==> HeldIn(h', Merged(Merged(d, f).items[k].image, s.items[k].image))
    requires forall n | n in Nodes(f) && n in h && n !in Touched(Merged(d, f), s) :: n in h' && h'[n] == h[n]
    ensures HasDeep(Patched(d, f, s), k) && HeldIn(h', Patched(d, f, s).items[k].image)
    decreases f, 0
  {
    TouchedBelow(d, f, s, k);
    ChildNodes(f, k);
    if !HasDeep(s, k) {
      HeldStill(h, h', f.items[k].image);
    } else if HasDeep(d, k) {
      ChildNodes(d, k);
      PatchedHeld(h, h', d.items[k].image, f.items[k].image, s.items[k].image);
    }
  }

  lemma PatchedNow(dest: MapNode, d: Image<MapNode>, f: Image<MapNode>, s: Image<MapNode>, before: Memory,
                   nodes: set<MapNode>)
    requires dest.Valid() && dest.Repr <= nodes && dest.Shape == Merged(Merged(d, f), s)
    requires Proper(f) && Nodes(d) !! Nodes(f) && HeldIn(before, f) && Nodes(f) <= nodes
    requires forall n | n in nodes && n !in Touched(Merged(d, f), s) :: n in before && n.entries == before[n]
    ensures Holds(Patched(d, f, s))
  {
    var p, now := Patched(d, f, s), Snapshot(nodes);
    ValidHeld(dest, nodes);
    PatchedHeld(before, now, d, f, s);
    HeldStill(now, Snapshot(Nodes(p)), p);
  }

  /** A merge into `dest` after `first` was merged into it, when it held `d`. */
  method MergeLater(dest: MapNode, first: MapNode, second: MapNode, ghost d: Image<MapNode>)
    returns (ghost after: Image<MapNode>)
    requires dest.Valid() && first.Valid() && second.Valid() && dest.Repr !! second.Repr && first.Repr !! second.Repr
    requires dest.Shape == Merged(d, first.Shape) && Nodes(d) !! Nodes(first.Shape)
    modifies dest.Repr * Touched(dest.Shape, second.Shape)
    ensures dest.Valid() && dest.Content() == Merge(old(dest.Content()), old(second.Content()))
    ensures second.Valid() && unchanged(second.Repr)
    ensures after.at == first && Holds(after) && Proper(after)
    ensures after == Patched(d, old(first.Shape), old(second.Shape)) && Nodes(after) <= old(first.Repr) + second.Repr
  {
    ghost var f, s := first.Shape, second.Shape;
    ghost var nodes := dest.Repr + first.Repr + second.Repr;
    NodesInRepr(first);
    NodesInRepr(second);
    PatchedProper(d, f, s);
    PatchedNodes(d, f, s);
    assert Below(s) <= Nodes(s);
    ValidHeld(first, nodes);
    ghost var before := Snapshot(nodes);
    var _ := MergeMaps(dest, second);
    PatchedNow(dest, d, f, s, before, nodes);
    after := Patched(d, f, s);
  }

  /** `first` holds what the merge of `s` left of its values `f`, after both were merged into a map that held `d`. */
  ghost predicate LeftOver(first: MapNode, after: Image<MapNode>, d: Tree, f: Tree, s: Tree)
    reads Nodes(after)
  {
    && after.at == first && Holds(after) && Proper(after)
    && Erase(after) == SourceAfter(d, f, s)
    && (Erase(after) == f <==> Spares(d, f, s))
  }

  /** Without a later merge a valid source holds what it held. */
  lemma NothingLeft(first: MapNode, d: Tree)
    requires first.Valid()
    ensures LeftOver(first, first.Shape, d, first.Content(), map[]) && Nodes(first.Shape) <= first.Repr
  {
    NodesInRepr(first);
    ValidHeld(first, first.Repr);
    HeldStill(Snapshot(first.Repr), Snapshot(Nodes(first.Shape)), first.Shape);
    NothingLater(d, first.Content());
  }

  method MergeFirst(dest: MapNode, first: MapNode, second: MapNode)
    requires dest.Valid() && first.Valid() && second.Valid()
    requires dest.Repr !! first.Repr && dest.Repr !! second.Repr && first.Repr !! second.Repr
    modifies dest.Repr
    ensures dest.Valid() && first.Valid() && unchanged(first.Repr) && second.Valid() && unchanged(second.Repr)
    ensures dest.Shape == Merged(old(dest.Shape), first.Shape) && Nodes(old(dest.Shape)) !! Nodes(first.Shape)
    ensures dest.Content() == Merge(old(dest.Content()), old(first.Content()))
    ensures dest.Repr <= old(dest.Repr) + (first.Repr - {first}) && dest.Repr !! second.Repr
  {
    NodesInRepr(dest);
    NodesInRepr(first);
    var _ := MergeMaps(dest, first);
  }

  /** Two sources merged into one map, one after the other.  The second merge may write into sub-maps that the first
      source still holds. */
  method MergeTwo(dest: MapNode, first: MapNode, second: MapNode) returns (ghost after: Image<MapNode>)
    requires dest.Valid() && first.Valid() && second.Valid()
    requires dest.Repr !! first.Repr && dest.Repr !! second.Repr && first.Repr !! second.Repr
    modifies dest.Repr, first.Repr - {first}
    ensures dest.Valid()
            && dest.Content() == Merge(Merge(old(dest.Content()), old(first.Content())), old(second.Content()))
    ensures second.Valid() && unchanged(second.Repr)
    ensures LeftOver(first, after, old(dest.Content()), old(first.Content()), old(second.Content()))
    ensures Nodes(after) <= old(first.Repr) + second.Repr
  {
    ghost var d := dest.Shape;
    PatchedKept(d, first.Shape, second.Shape);
    MergeFirst(dest, first, second);
    after := MergeLater(dest, first, second, d);
  }

  /** The ghost fields agree with `img`. */
  ghost predicate Adopted(img: Image<MapNode>)
    reads Nodes(img)
  {
    img.at.Repr == Nodes(img) && img.at.Valid() && img.at.Shape == img
  }

  /** Brings the ghost fields up to date with what the memory holds. */
  ghost method Adopt(img: Image<MapNode>)
    requires Holds(img) && Proper(img)
    modifies Nodes(img)`Repr, Nodes(img)`Shape
    ensures Adopted(img)
    decreases img, 1
  {
    ghost var h := Snapshot(Nodes(img));
    var todo := img.items.Keys;
    while todo != {}
      invariant todo <= img.items.Keys && Snapshot(Nodes(img)) == h
      invariant forall k | HasDeep(img, k) && k !in todo :: Adopted(img.items[k].image)
    {
      var key :| key in todo;
      if HasDeep(img, key) {
        AdoptAt(img, key, h);
      }
      todo := todo - {key};
    }
    Root(img);
  }

  ghost method AdoptAt(img: Image<MapNode>, key: string, h: Memory)
    requires HasDeep(img, key) && HeldIn(h, img) && h == Snapshot(Nodes(img)) && Proper(img.items[key].image)
    modifies Nodes(img.items[key].image)`Repr, Nodes(img.items[key].image)`Shape
    ensures Adopted(img.items[key].image) && Snapshot(Nodes(img)) == h
    decreases img, 0
  {
    ghost var child := img.items[key].image;
    ChildNodes(img, key);
    HeldStill(h, Snapshot(Nodes(child)), child);
    Adopt(child);
  }

  ghost method Root(img: Image<MapNode>)
    requires Holds(img) && Proper(img)
    requires forall k | HasDeep(img, k) :: (ChildNodes(img, k); Adopted(img.items[k].image))
    modifies img.at`Repr, img.at`Shape
    ensures Adopted(img)
  {
    img.at.Shape, img.at.Repr := img, Nodes(img);
  }

  /** The map held at `key`, which is created if there is none; the caller writes through the result. */
  method GetOrCreateNestedMap(m: MapNode?, key: string) returns (r: Result<MapNode, string>)
    modifies m
    ensures m == null ==> r == Err("input map is nil")
    ensures m != null && key == "" ==> r == Err("key cannot be empty")
    ensures m != null && key != "" && HasMap(old(m.entries), key) ==> r == Ok(old(m.entries)[key].node)
    ensures m != null && key != "" && key in old(m.entries) && old(m.entries)[key].Atom?
            && old(m.entries)[key] != Atom(Null)
            ==> r.Err?
    ensures m != null && (r.Err? || HasMap(old(m.entries), key)) ==> unchanged(m)
    ensures m != null && key != "" && Vacant(old(m.entries), key) ==>
              && r.Ok? && fresh(r.value) && r.value.Valid() && r.value.Content() == map[] && r.value.Repr == {r.value}
              && m.entries == old(m.entries)[key := Sub(r.value)]
              && (old(m.Valid()) ==>
                    && m.Valid() && m.Repr == old(m.Repr) + {r.value}
                    && m.Content() == old(m.Content())[key := Map(map[])])
  {
    if m == null {
      return Err("input map is nil");
    }
    if key == "" {
      return Err("key cannot be empty");
    }
    if key in m.entries && m.entries[key] != Atom(Null) {
      if m.entries[key].Atom? {
        return Err("value for key is not a map");
      }
      return Ok(m.entries[key].node);
    }
    var newMap := CreateNestedMap(m, key);
    return Ok(newMap);
  }

  method CreateNestedMap(m: MapNode, key: string) returns (newMap: MapNode)
    modifies m
    ensures fresh(newMap) && newMap.Valid() && newMap.Content() == map[] && newMap.Repr == {newMap}
    ensures m.entries == old(m.entries)[key := Sub(newMap)]
    ensures old(m.Valid()) ==> m.Valid() && m.Repr == old(m.Repr) + {newMap}
    ensures m.Content() == old(m.Content())[key := Map(map[])]
  {
    newMap := new MapNode();
    ErasePut(m.Shape, key, Deep(newMap.Shape));
    m.entries := m.entries[key := Sub(newMap)];
    m.Shape := m.Shape.(items := m.Shape.items[key := Deep(newMap.Shape)]);
    m.Repr := m.Repr + {newMap};
  }

  predicate Vacant(entries: map<string, Entry>, key: string) {
    key !in entries || entries[key] == Atom(Null)
  }

  /** A map literal. */
  method FromTree(t: Tree) returns (n: MapNode)
    ensures n.Valid() && fresh(n.Repr) && n.Content() == t
    decreases Map(t)
  {
    n := new MapNode();
    var todo := t.Keys;
    while todo != {}
      invariant todo <= t.Keys
      invariant n.Valid() && fresh(n.Repr) && n.Content() == Visited(t, todo)
    {
      var key :| key in todo;
      VisitedPut(t, todo, key);
      if t[key].Map? {
        var sub := FromTree(t[key].entries);
        n.Put(key, Sub(sub));
      } else {
        n.Put(key, Atom(t[key].scalar));
      }
      todo := todo - {key};
    }
    assert Visited(t, todo) == t;
  }

  /** The values that a map holds, read out of memory. */
  method ToTree(n: MapNode) returns (t: Tree)
    requires n.Valid()
    ensures t == n.Content()
    decreases n.Repr
  {
    t := map[];
    var todo := n.entries.Keys;
    while todo != {}
      invariant todo <= n.entries.Keys && t == Visited(n.Content(), todo)
    {
      var key :| key in todo;
      VisitedPut(n.Content(), todo, key);
      if n.entries[key].Sub? {
        var sub := ToTree(n.entries[key].node);
        t := t[key := Map(sub)];
      } else {
        t := t[key := Leaf(n.entries[key].scalar)];
      }
      todo := todo - {key};
    }
    assert Visited(n.Content(), todo) == n.Content();
  }

  /** Flattens a list of maps into a new one; later maps win, and sub-maps are shared. */
  method ShallowMerge(maps: seq<MapNode>) returns (flattened: MapNode)
    ensures fresh(flattened) && flattened.entries == Flattened(maps) && LastWins(maps, flattened.entries)
  {
    flattened := new MapNode();
    for i := 0 to |maps|
      invariant fresh(flattened) && flattened.entries == Flattened(maps[..i])
    {
      var m := maps[i];
      assert maps[..i + 1][..i] == maps[..i];
      ghost var before := flattened.entries;
      var todo := m.entries.Keys;
      while todo != {}
        invariant todo <= m.entries.Keys && m.entries == old(m.entries) && flattened != m
        invariant flattened.entries == before + map k | k in m.entries && k !in todo :: m.entries[k]
      {
        var key :| key in todo;
        flattened.entries := flattened.entries[key := m.entries[key]];
        todo := todo - {key};
      }
      assert (map k | k in m.entries && k !in todo :: m.entries[k]) == m.entries;
    }
    assert maps[..|maps|] == maps;
    FlattenedLastWins(maps);
  }

  /** Map `i` is the last one with an entry for the key. */
  ghost predicate LastWith(maps: seq<MapNode>, i: nat, key: string)
    reads maps
  {
    i < |maps| && key in maps[i].entries && forall j | i < j < |maps| :: key !in maps[j].entries
  }

  /** Each entry is that of the last map with one for its key. */
  ghost predicate LastWins(maps: seq<MapNode>, entries: map<string, Entry>)
    reads maps
  {
    && (forall i: nat, key | LastWith(maps, i, key) :: key in entries && entries[key] == maps[i].entries[key])
    && (forall key | key in entries :: exists i: nat :: LastWith(maps, i, key))
  }

  lemma {:induction false} FlattenedLast(maps: seq<MapNode>, i: nat, key: string)
    requires LastWith(maps, i, key)
    ensures key in Flattened(maps) && Flattened(maps)[key] == maps[i].entries[key]
    decreases |maps|
  {
    var n := |maps| - 1;
    if i < n {
      assert forall j | 0 <= j < n :: maps[..n][j] == maps[j];
      FlattenedLast(maps[..n], i, key);
    }
  }

  lemma {:induction false} FlattenedFrom(maps: seq<MapNode>, key: string) returns (i: nat)
    requires key in Flattened(maps)
    ensures LastWith(maps, i, key)
    decreases |maps|
  {
    var n := |maps| - 1;
    if key in maps[n].entries {
      i := n;
    } else {
      i := FlattenedFrom(maps[..n], key);
      assert forall j | 0 <= j < n :: maps[..n][j] == maps[j];
    }
  }

  lemma FlattenedLastWins(maps: seq<MapNode>)
    ensures LastWins(maps, Flattened(maps))
  {
    forall i: nat, key | LastWith(maps, i, key)
      ensures key in Flattened(maps) && Flattened(maps)[key] == maps[i].entries[key]
    {
      FlattenedLast(maps, i, key);
    }
    forall key | key in Flattened(maps) ensures exists i: nat :: LastWith(maps, i, key) {
      var i := FlattenedFrom(maps, key);
    }
  }

  function Flattened(maps: seq<MapNode>): map<string, Entry>
    reads maps
  {
    if maps == [] then map[] else Flattened(maps[..|maps| - 1]) + maps[|maps| - 1].entries
  }

  /** The values of the maps that are flattened; later maps win. */
  ghost function FlattenedContent(maps: seq<MapNode>): Tree
    reads maps
  {
    if maps == [] then map[] else FlattenedContent(maps[..|maps| - 1]) + maps[|maps| - 1].Content()
  }

  /** Where a flattened entry comes from. */
  lemma {:induction false} FlattenedOrigin(maps: seq<MapNode>, key: string) returns (i: nat)
    requires forall m | m in maps :: m.Valid()
    requires key in Flattened(maps)
    ensures i < |maps| && key in maps[i].entries && maps[i].entries[key] == Flattened(maps)[key]
    ensures key in maps[i].Content() && key in FlattenedContent(maps)
    ensures FlattenedContent(maps)[key] == maps[i].Content()[key]
    decreases |maps|
  {
    var n := |maps| - 1;
    assert maps[n] in maps && maps[n].Valid();
    if key in maps[n].entries {
      i := n;
    } else {
      i := FlattenedOrigin(maps[..n], key);
    }
  }

  lemma {:induction false} FlattenedKeys(maps: seq<MapNode>)
    requires forall m | m in maps :: m.Valid()
    ensures FlattenedContent(maps).Keys == Flattened(maps).Keys
    decreases |maps|
  {
    if maps != [] {
      assert maps[|maps| - 1] in maps && maps[|maps| - 1].Valid();
      FlattenedKeys(maps[..|maps| - 1]);
    }
  }

  lemma FlattenedEntry(maps: seq<MapNode>, nodes: set<MapNode>, key: string)
    requires forall m | m in maps :: m.Valid() && m.Repr <= nodes
    requires key in Flattened(maps)
    ensures var e := Flattened(maps)[key];
            && (e.Sub? ==> e.node in nodes && e.node.Repr <= nodes && e.node.Valid())
            && key in FlattenedContent(maps) && FlattenedContent(maps)[key] == EntryValue(e)
  {
    var i := FlattenedOrigin(maps, key);
    assert maps[i] in maps;
  }

  lemma FlattenedApart(maps: seq<MapNode>, k: string, l: string)
    requires forall m | m in maps :: m.Valid()
    requires forall i, j | 0 <= i < j < |maps| :: maps[i].Repr !! maps[j].Repr
    requires HasMap(Flattened(maps), k) && HasMap(Flattened(maps), l) && k != l
    ensures Flattened(maps)[k].node.Repr !! Flattened(maps)[l].node.Repr
  {
    var i := FlattenedOrigin(maps, k);
    var j := FlattenedOrigin(maps, l);
    assert maps[i] in maps && maps[j] in maps;
    assert maps[i].entries[k].node.Repr <= maps[i].Repr && maps[j].entries[l].node.Repr <= maps[j].Repr;
  }

  lemma FlattenedEntries(n: MapNode, maps: seq<MapNode>, nodes: set<MapNode>)
    requires forall m | m in maps :: m.Valid() && m.Repr <= nodes
    requires forall i, j | 0 <= i < j < |maps| :: maps[i].Repr !! maps[j].Repr
    requires n.entries == Flattened(maps)
    ensures forall key | key in n.entries ::
              && (n.entries[key].Sub? ==>
                    var c := n.entries[key].node; c in nodes && c.Repr <= nodes && c.Valid())
              && key in FlattenedContent(maps) && FlattenedContent(maps)[key] == EntryValue(n.entries[key])
  {
    forall key | key in n.entries
      ensures n.entries[key].Sub? ==>
                var c := n.entries[key].node; c in nodes && c.Repr <= nodes && c.Valid()
      ensures key in FlattenedContent(maps) && FlattenedContent(maps)[key] == EntryValue(n.entries[key])
    {
      FlattenedEntry(maps, nodes, key);
    }
  }

  lemma FlattenedSealable(n: MapNode, maps: seq<MapNode>, nodes: set<MapNode>)
    requires forall m | m in maps :: m.Valid() && m.Repr <= nodes
    requires forall i, j | 0 <= i < j < |maps| :: maps[i].Repr !! maps[j].Repr
    requires n.entries == Flattened(maps) && n !in nodes
    ensures Sealable(n, nodes)
    ensures FlattenedContent(maps) == map k | k in n.entries :: EntryValue(n.entries[k])
  {
    FlattenedEntries(n, maps, nodes);
    AllApart(n, maps);
    FlattenedKeys(maps);
  }

  lemma AllApart(n: MapNode, maps: seq<MapNode>)
    requires forall m | m in maps :: m.Valid()
    requires forall i, j | 0 <= i < j < |maps| :: maps[i].Repr !! maps[j].Repr
    requires n.entries == Flattened(maps)
    ensures forall k, l | HasMap(n.entries, k) && HasMap(n.entries, l) && k != l ::
              n.entries[k].node.Repr !! n.entries[l].node.Repr
  {
    forall k, l | HasMap(n.entries, k) && HasMap(n.entries, l) && k != l
      ensures n.entries[k].node.Repr !! n.entries[l].node.Repr
    {
      FlattenedApart(maps, k, l);
    }
  }

  /** Flattening trees that share nothing gives a tree. */
  method Combine(maps: seq<MapNode>, ghost nodes: set<MapNode>) returns (combined: MapNode)
    requires forall m | m in maps :: m.Valid() && m.Repr <= nodes
    requires forall i, j | 0 <= i < j < |maps| :: maps[i].Repr !! maps[j].Repr
    ensures fresh(combined) && combined.Valid() && combined.Repr == {combined} + nodes
    ensures combined.Content() == old(FlattenedContent(maps))
  {
    combined := ShallowMerge(maps);
    assert FlattenedContent(maps) == old(FlattenedContent(maps));
    FlattenedSealable(combined, maps, nodes);
    Seal(combined, nodes);
  }
}
