/** The tree of block candidates (block/manager.go): reference counted nodes, freed upwards when the
    last handle goes, cut when a block is finalized.

    A block ID is a hash over its parent's ID, so an ID determines its ancestors: IDs are modelled as
    the chains they stand for. The transitions a node holds are one flag, `live`. */
module CandidateTree {
  import Quorum

  datatype Block = Root(tag: nat) | Next(prev: Block, tag: nat)

  predicate Under(x: Block, a: Block) { x == a || (x.Next? && Under(x.prev, a)) }

  // --- the tree as a value ---------------------------------------------------------------------

  function Children(keys: set<Block>, b: Block): set<Block> { set x | x in keys && x.Next? && x.prev == b }

  /** References to a node: its handles, its children, and the manager's own to the finalized one. */
  function Refs(keys: set<Block>, fin: Block, handles: multiset<Block>, b: Block): nat {
    handles[b] + |Children(keys, b)| + if b == fin then 1 else 0
  }

  ghost predicate Rooted(keys: set<Block>, fin: Block) {
    fin in keys && forall x :: x in keys && x != fin ==> x.Next? && x.prev in keys && Under(x, fin)
  }

  /** Every node is referenced, and a handle to a block outside the tree can never come alive again. */
  ghost predicate TreeOk(keys: set<Block>, fin: Block, handles: multiset<Block>) {
    && Rooted(keys, fin)
    && (forall x :: x in keys ==> Refs(keys, fin, handles, x) > 0)
    && (forall x :: x in handles ==> x in keys || x == fin || !Under(x, fin))
  }

  lemma {:induction false} UnderTrans(x: Block, y: Block, z: Block)
    requires Under(x, y) && Under(y, z)
    ensures Under(x, z)
  {
    if x != y { UnderTrans(x.prev, y, z); }
  }

  function Below(keys: set<Block>, b: Block): set<Block> { set x | x in keys && Under(x, b) }

  function Height(b: Block): nat { if b.Root? then 0 else Height(b.prev) + 1 }

  lemma {:induction false} UnderHeight(x: Block, a: Block)
    requires Under(x, a)
    ensures Height(x) >= Height(a) && (Height(x) == Height(a) ==> x == a)
  {
    if x != a { UnderHeight(x.prev, a); }
  }

  /** Two ancestors of one block lie on one chain. */
  lemma {:induction false} UnderLinear(x: Block, y: Block, z: Block)
    requires Under(x, y) && Under(x, z)
    ensures Under(y, z) || Under(z, y)
  {
    if x != y && x != z { UnderLinear(x.prev, y, z); }
  }

  /** Blocks with the same parent have nothing under them in common. */
  lemma SiblingsApart(x: Block, y: Block, z: Block)
    requires y.Next? && z.Next? && y.prev == z.prev && Under(x, y) && Under(x, z)
    ensures y == z
  {
    UnderLinear(x, y, z);
    if Under(y, z) { UnderHeight(y, z); } else { UnderHeight(z, y); }
  }

  /** A node strictly below b is under exactly one child of b in the tree. */
  lemma {:induction false} ChildTowards(keys: set<Block>, b: Block, x: Block) returns (y: Block)
    requires x in keys && Under(x, b) && x != b
    requires forall z :: z in keys && Under(z, b) && z != b ==> z.Next? && z.prev in keys
    ensures y in Children(keys, b) && Under(x, y)
  {
    if x.prev == b { y := x; } else { y := ChildTowards(keys, b, x.prev); }
  }

  /** The tree holds exactly the finalized block and the blocks between it and a live handle. */
  lemma TreeIsAncestors(keys: set<Block>, fin: Block, handles: multiset<Block>)
    requires TreeOk(keys, fin, handles)
    ensures forall x :: x in keys <==> x == fin || exists h :: h in handles && h in keys && Under(h, x) && Under(x, fin)
  {
    forall x | x in keys && x != fin ensures exists h :: h in handles && h in keys && Under(h, x) && Under(x, fin) {
      var h := HandleBelow(keys, fin, handles, x, keys);
    }
    forall x, h | h in keys && Under(h, x) && Under(x, fin) ensures x in keys { AncestorsIn(keys, fin, h, x); }
  }

  lemma {:induction false} AncestorsIn(keys: set<Block>, fin: Block, h: Block, x: Block)
    requires Rooted(keys, fin) && h in keys && Under(h, x) && Under(x, fin)
    ensures x in keys
  {
    if h != x {
      if h == fin { UnderHeight(fin, x); UnderHeight(x, fin); } else { AncestorsIn(keys, fin, h.prev, x); }
    }
  }

  /** Below every node there is a live handle. */
  lemma {:induction false} HandleBelow(keys: set<Block>, fin: Block, handles: multiset<Block>, x: Block, below: set<Block>) returns (h: Block)
    requires TreeOk(keys, fin, handles) && x in keys && x != fin
    requires below <= keys && forall z :: z in keys && Under(z, x) ==> z in below
    ensures h in handles && h in keys && Under(h, x)
    decreases below
  {
    if x in handles {
      h := x;
    } else {
      assert Children(keys, x) != {};
      var y :| y in Children(keys, x);
      forall z | z in keys && Under(z, y) ensures z in below - {x} {
        UnderTrans(z, y, x);
        UnderHeight(z, y);
      }
      UnderHeight(x, fin);
      h := HandleBelow(keys, fin, handles, y, below - {x});
      UnderTrans(h, y, x);
    }
  }

  // --- the tree in place -----------------------------------------------------------------------

  class BNode {
    const block: Block
    var parent: BNode?
    var children: seq<BNode>
    var nRef: int
    var live: bool

    constructor (b: Block)
      ensures block == b && parent == null && children == [] && nRef == 0 && live
    {
      block, parent, children, nRef, live := b, null, [], 0, true;
    }
  }

  /** Children of b, each block once. */
  ghost predicate Kids(cs: seq<BNode>, b: Block) {
    && (forall i, j :: 0 <= i < j < |cs| ==> cs[i].block != cs[j].block)
    && (forall j :: 0 <= j < |cs| ==> cs[j].block.Next? && cs[j].block.prev == b)
  }

  class Manager {
    var nmap: map<Block, BNode>
    var finalized: BNode
    ghost var handles: multiset<Block>

    /** The node lists all its children in the tree; nodes just removed may still be listed, too. */
    ghost predicate Lists(n: BNode)
      reads this`nmap, n`children
    {
      && Kids(n.children, n.block)
      && (forall c :: c in n.children && c.block in nmap ==> nmap[c.block] == c)
      && (forall x :: x in Children(nmap.Keys, n.block) ==> nmap[x] in n.children)
    }

    /** The node of x has the right links. */
    ghost predicate LinksOk(x: Block)
      reads this`nmap, this`finalized, nmap.Values`children, nmap.Values`live, nmap.Values`parent
    {
      && x in nmap
      && var n := nmap[x];
      && n.block == x && n.live && Lists(n)
      && (forall c :: c in n.children ==> c.block in nmap)
      && n.parent == if x == finalized.block || x.Root? || x.prev !in nmap then null else nmap[x.prev]
    }

    /** The map is exactly the tree below the finalized block, linked and counted; a handle to a block
        outside it is dead. */
    ghost predicate Valid()
      reads this, nmap.Values
    {
      && Within(nmap.Keys, {})
      && Counted(nmap.Keys, {})
      && (forall h :: h in handles ==> h in nmap || !Under(h, finalized.block))
    }

    lemma ValidIsTree()
      requires Valid()
      ensures TreeOk(nmap.Keys, finalized.block, handles)
      ensures forall x :: x in nmap ==> nmap[x].nRef == Refs(nmap.Keys, finalized.block, handles, x)
      ensures forall x :: x in nmap <==>
                x == finalized.block || exists h :: h in handles && h in nmap && Under(h, x) && Under(x, finalized.block)
    {
      TreeIsAncestors(nmap.Keys, finalized.block, handles);
    }

    constructor (b: Block)
      ensures Valid() && nmap.Keys == {b} && finalized.block == b && handles == multiset{}
    {
      var bn := new BNode(b);
      nmap := map[b := bn];
      finalized := bn;
      handles := multiset{};
      new;
      bn.nRef := bn.nRef + 1;
      assert nmap.Keys == {b};
      assert Children({b}, b) == {} by { assert b.Next? ==> Height(b) == Height(b.prev) + 1; }
    }

    /** At and below b the nodes are linked to each other as their blocks are. */
    ghost predicate Keyed()
      reads this`nmap
    {
      forall x :: x in nmap ==> nmap[x].block == x
    }

    ghost predicate Linked(b: Block)
      reads this`nmap, nmap.Values`children
    {
      b in nmap && nmap[b].block == b
      && forall x :: x in nmap && Under(x, b) ==>
           nmap[x].block == x && Lists(nmap[x]) && (x != b ==> x.Next? && x.prev in nmap)
    }

    /** Whatever is still there is the node it was, with parent and transitions it had. */
    twostate predicate Kept()
      reads this`nmap, nmap.Values
    {
      forall x :: x in nmap ==>
        x in old(nmap) && nmap[x] == old(nmap[x]) && nmap[x].parent == old(nmap[x].parent) && nmap[x].live == old(nmap[x].live)
    }

    /** Whatever has left the tree has given its transitions back. */
    ghost predicate Gone(was: map<Block, BNode>)
      reads this`nmap, was.Values`live
    {
      forall x :: x in was && x !in nmap ==> !was[x].live
    }

    ghost function Size(b: Block): nat
      reads this`nmap
    {
      |Below(nmap.Keys, b)|
    }

    /** Removes a node and everything below it, whoever still holds handles to it. Removing a node
        again changes nothing: its subtree is gone and its transitions are disposed. */
    method RemoveSubtree(bn: BNode)
      requires Keyed() && (bn.block in nmap ==> nmap[bn.block] == bn && Linked(bn.block))
      modifies this`nmap, nmap.Values`parent, nmap.Values`live
      ensures bn.block !in old(nmap) ==> nmap == old(nmap)
      ensures bn.block in old(nmap) ==> forall x :: x in nmap <==> x in old(nmap) && !Under(x, bn.block)
      ensures Kept() && Gone(old(nmap))
      decreases Size(bn.block), 2
    {
      hide Under, Linked, Lists, Children;
      if bn.block !in nmap { return; }
      RemoveBelow(bn, null);
      bn.live := false;
      bn.parent := null;
      nmap := nmap - {bn.block};
      SelfUnder(bn.block);
    }

    /** Removes the subtrees of all children but one. */
    method RemoveBelow(bn: BNode, except: BNode?)
      requires bn.block in nmap && nmap[bn.block] == bn && Keyed() && Linked(bn.block)
      modifies this`nmap, nmap.Values`parent, nmap.Values`live
      ensures forall x :: x in nmap <==> x in old(nmap) && !(Under(x, bn.block) && x != bn.block && !(except != null && except in bn.children && Under(x, except.block)))
      ensures Kept() && Gone(old(nmap))
      decreases Size(bn.block), 1
    {
      ghost var was, b := nmap, bn.block;
      ChildBlocks(bn);
      LinkedClosed(b);
      hide Under, Lists, Linked, UnderFirst, Children;
      RemoveEach(bn, except);
      AllBelow(was.Keys, b, bn.children, except);
    }

    method RemoveEach(bn: BNode, except: BNode?)
      requires bn.block in nmap && nmap[bn.block] == bn && Keyed() && Linked(bn.block)
      modifies this`nmap, nmap.Values`parent, nmap.Values`live
      ensures forall x :: x in nmap <==> x in old(nmap) && !UnderFirst(x, bn.children, |bn.children|, except)
      ensures Kept() && Gone(old(nmap))
      decreases Size(bn.block), 0
    {
      hide Under, Lists, Linked, UnderFirst, Children;
      NoneFirst(bn.children, except);
      for k := 0 to |bn.children|
        invariant forall x :: x in nmap <==> x in old(nmap) && !UnderFirst(x, bn.children, k, except)
        invariant Kept() && Gone(old(nmap))
      {
        OneMore(bn.children, k, except);
        if bn.children[k] != except {
          ChildReady(bn, k, except);
          RemoveSubtree(bn.children[k]);
        }
      }
    }

    /** The blocks of a linked node's children. */
    lemma ChildBlocks(bn: BNode)
      requires bn.block in nmap && nmap[bn.block] == bn && Keyed() && Linked(bn.block)
      ensures Kids(bn.children, bn.block)
      ensures forall x :: x in Children(nmap.Keys, bn.block) ==> exists j :: 0 <= j < |bn.children| && bn.children[j].block == x
    {
      SelfUnder(bn.block);
      assert Lists(bn);
      forall x | x in Children(nmap.Keys, bn.block) ensures exists j :: 0 <= j < |bn.children| && bn.children[j].block == x {
        assert nmap[x] in bn.children;
        var j :| 0 <= j < |bn.children| && bn.children[j] == nmap[x];
      }
    }

    lemma LinkedClosed(b: Block)
      requires Linked(b)
      ensures forall x :: x in nmap && Under(x, b) && x != b ==> x.Next? && x.prev in nmap
    {}

    /** When its elder siblings are gone, the k-th child can be removed like them. */
    twostate lemma ChildReady(bn: BNode, new k: nat, new except: BNode?)
      requires old(bn.block in nmap && nmap[bn.block] == bn && Keyed() && Linked(bn.block))
      requires bn.children == old(bn.children) && k < |bn.children|
      requires Kept() && forall x :: x in nmap <==> x in old(nmap) && !UnderFirst(x, bn.children, k, except)
      requires forall x :: x in nmap ==> nmap[x].children == old(nmap[x].children)
      ensures var c := bn.children[k];
        && (c.block in nmap ==> nmap[c.block] == c && Linked(c.block))
        && (c.block !in nmap ==> forall x :: x in old(nmap) ==> !Under(x, c.block))
        && Size(c.block) < old(Size(bn.block))
    {
      hide Under, Lists, UnderFirst;
      var b, c, was := bn.block, bn.children[k], old(nmap.Keys);
      OldChildren(bn);
      SubtreeIntact(was, nmap.Keys, b, bn.children, k, except);
      SelfUnder(c.block);
      SmallerBelow(was, nmap.Keys, b, c.block);
      if c.block in nmap {
        StillLinked(was, b, c.block);
      } else {
        NothingBelow(was, b, c.block);
      }
    }

    twostate lemma OldChildren(bn: BNode)
      requires old(bn.block in nmap && nmap[bn.block] == bn && Keyed() && Linked(bn.block))
      ensures var cs, was := old(bn.children), old(nmap.Keys);
        && Kids(cs, bn.block)
        && (forall j :: 0 <= j < |cs| && cs[j].block in was ==> old(nmap[cs[j].block]) == cs[j])
        && (forall x :: x in was && Under(x, bn.block) && x != bn.block ==> x.Next? && x.prev in was)
    {
      assert old(Lists(bn)) by { SelfUnder(bn.block); }
    }

    /** A subtree that lost no block is linked as before. */
    twostate lemma StillLinked(new was: set<Block>, new b: Block, new c: Block)
      requires was == old(nmap.Keys) && old(Linked(b)) && c in was && c.Next? && c.prev == b
      requires Kept() && nmap.Keys <= was
      requires forall x :: x in nmap ==> nmap[x].children == old(nmap[x].children)
      requires forall x :: Under(x, c) ==> (x in nmap <==> x in was)
      requires forall x :: x in was && Under(x, c) ==> Children(nmap.Keys, x) == Children(was, x) && (x != c ==> x.prev in nmap)
      ensures Linked(c)
    {
      SelfUnder(c);
      forall x | x in nmap && Under(x, c)
        ensures nmap[x].block == x && Lists(nmap[x]) && (x != c ==> x.Next? && x.prev in nmap)
      {
        UnderTrans(x, c, b);
        assert old(Lists(nmap[x]));
        forall y | y in Children(was, x) ensures y in nmap { assert y in Children(nmap.Keys, x); }
      }
    }

    // --- references --------------------------------------------------------------------------------

    /** The tree `keys` is in order; `doomed`, a leaf about to go, may still be in the map and listed
        by its parent. */
    ghost predicate Within(keys: set<Block>, doomed: set<Block>)
      reads this`nmap, this`finalized, nmap.Values`children, nmap.Values`live, nmap.Values`parent
    {
      && nmap.Keys == keys + doomed && keys !! doomed && Keyed()
      && finalized.block in keys && nmap[finalized.block] == finalized
      && Rooted(keys, finalized.block)
      && (forall x :: x in keys ==> LinksOk(x))
      && (forall d :: d in doomed ==> d.Next? && d.prev in keys && Children(nmap.Keys, d) == {} && Lists(nmap[d]))
    }

    /** Counts are right, but the node of `but` has one reference too many. */
    ghost predicate Counted(keys: set<Block>, but: set<Block>)
      reads this`nmap, this`finalized, this`handles, nmap.Values`nRef
    {
      forall x :: x in keys ==>
        && x in nmap && nmap[x].block == x
        && nmap[x].nRef == Refs(keys, finalized.block, handles, x) + (if x in but then 1 else 0)
        && (x in but || Refs(keys, finalized.block, handles, x) > 0)
    }

    /** Drops one reference to a node; the node, and then its ancestors, go with the last one. */
    method UnrefNode(bn: BNode, ghost keys: set<Block>, ghost doomed: set<Block>) returns (ghost left: set<Block>)
      requires Within(keys, doomed) && Counted(keys, {bn.block})
      requires bn.block in keys && nmap[bn.block] == bn
      requires forall d :: d in doomed ==> d.prev == bn.block
      modifies this`nmap, nmap.Values
      ensures left <= keys && Within(left, if bn.block in left then doomed else {}) && Counted(left, {})
      ensures bn.block in left ==> left == keys && nmap == old(nmap) && forall x :: x in nmap ==> nmap[x].live == old(nmap[x].live)
      ensures Gone(old(nmap))
      ensures forall x :: x in keys && x !in left ==> x !in handles
      ensures forall x :: x in nmap ==> x in old(nmap) && nmap[x] == old(nmap[x])
      decreases Height(bn.block), 2
    {
      hide Within, LinksOk, LinksButOne, Lists, Children, Rooted;
      bn.nRef := bn.nRef - 1;
      left := keys;
      if bn.nRef == 0 {
        LeafOf(bn, keys, doomed);
        var par := bn.parent;
        left := RemoveNode(bn, keys, doomed);
        if par != null { Strike(par, bn, left); }
      }
    }

    /** Takes a removed node off its parent's list. */
    method Strike(par: BNode, bn: BNode, ghost keys: set<Block>)
      requires NearlyWithin(keys, bn) && par.block == bn.block.prev && (bn.block.prev in nmap ==> nmap[bn.block.prev] == par)
      modifies par`children
      ensures Within(keys, {})
    {
      hide Within, NearlyWithin;
      RemoveChild(par, bn);
      ListFixed(par, bn, keys);
    }

    /** Takes a node that nothing refers to out of the map, and drops its reference to its parent. The
        parent, if it stays, still lists it. */
    method RemoveNode(bn: BNode, ghost keys: set<Block>, ghost doomed: set<Block>) returns (ghost left: set<Block>)
      requires Within(keys, doomed) && bn.block in keys && nmap[bn.block] == bn
      requires forall d :: d in doomed ==> d.prev == bn.block
      requires Refs(keys, finalized.block, handles, bn.block) == 0
      requires Counted(keys - {bn.block}, {bn.block.prev})
      modifies this`nmap, nmap.Values
      ensures left <= keys - {bn.block} && NearlyWithin(left, bn) && Gone(old(nmap))
      ensures Counted(left, {})
      ensures forall x :: x in keys && x !in left ==> x !in handles
      ensures forall x :: x in nmap ==> x in old(nmap) && nmap[x] == old(nmap[x])
      decreases Height(bn.block), 1
    {
      hide Within, NearlyWithin, LinksOk, LinksButOne, Lists, Children, Rooted, Refs, Counted;
      Unheld(keys, finalized.block, handles, bn.block);
      WithinKeyed(keys, doomed);
      Isolate(bn, keys, doomed);
      CountedKept(keys - {bn.block}, {bn.block.prev});
      WithinKeyed(keys - {bn.block}, {bn.block});
      assert forall x :: x in old(nmap) && x !in nmap ==> old(nmap)[x] !in nmap.Values;
      left := Unhook(bn, keys - {bn.block});
    }

    /** Drops the reference of a node that is on its own to its parent, and the node. */
    method Unhook(bn: BNode, ghost keys: set<Block>) returns (ghost left: set<Block>)
      requires bn.block !in keys && Within(keys, {bn.block}) && bn.block in nmap && nmap[bn.block] == bn && !bn.live
      requires bn.block.Next? && bn.block.prev in keys && bn.block.prev in nmap && bn.parent == nmap[bn.block.prev] && bn.parent.block == bn.block.prev
      requires Counted(keys, {bn.block.prev})
      modifies this`nmap, nmap.Values
      ensures left <= keys && NearlyWithin(left, bn) && Counted(left, {}) && Gone(old(nmap))
      ensures forall x :: x in keys && x !in left ==> x !in handles
      ensures forall x :: x in nmap ==> x in old(nmap) && nmap[x] == old(nmap[x])
      decreases Height(bn.block), 0
    {
      hide Within, NearlyWithin, LinksOk, LinksButOne, Lists, Children, Rooted, Refs, Counted;
      var par := bn.parent;
      left := keys;
      if par != null {
        left := UnrefNode(par, keys, {bn.block});
        if par.block !in left { WithinKeys(left); }
      }
      Forget(bn, left);
    }

    twostate lemma CountedKept(new keys: set<Block>, new but: set<Block>)
      requires old(Counted(keys, but)) && finalized == old(finalized) && handles == old(handles)
      requires forall x :: x in keys ==> x in nmap && x in old(nmap) && nmap[x] == old(nmap[x]) && nmap[x].nRef == old(nmap[x].nRef)
      ensures Counted(keys, but)
    {
      hide Refs;
    }

    /** The last traces of a removed node: its link to its parent and its entry in the map. */
    method Forget(bn: BNode, ghost keys: set<Block>)
      requires bn.block !in keys && bn.block.Next?
      requires if bn.block.prev in keys then Within(keys, {bn.block}) && nmap[bn.block] == bn else Within(keys, {})
      requires Counted(keys, {})
      modifies this`nmap, bn`parent
      ensures NearlyWithin(keys, bn) && Counted(keys, {}) && nmap == old(nmap) - {bn.block}
    {
      hide LinksOk, Lists, Rooted, NearlyWithin, Children, Refs;
      bn.parent := null;
      nmap := nmap - {bn.block};
      Forgotten(bn, keys);
    }

    /** Only the removed node's entry and its own fields have changed. */
    twostate predicate Dropped(bn: BNode, new keys: set<Block>)
      reads this, nmap.Values
    {
      && bn.block !in keys && bn.block.Next?
      && old(if bn.block.prev in keys then Within(keys, {bn.block}) && nmap[bn.block] == bn else Within(keys, {}))
      && finalized == old(finalized) && nmap.Keys == keys
      && (forall x :: x in nmap ==> x in old(nmap) && nmap[x] == old(nmap[x]) && nmap[x].children == old(nmap[x].children))
      && (forall x :: x in nmap ==> nmap[x].parent == old(nmap[x].parent) && nmap[x].live == old(nmap[x].live))
    }

    twostate lemma Forgotten(bn: BNode, new keys: set<Block>)
      requires Dropped(bn, keys)
      ensures NearlyWithin(keys, bn)
    {
      hide LinksOk, LinksButOne, Lists, Rooted;
      forall x | x in keys ensures if x != bn.block.prev then LinksOk(x) else LinksButOne(x, bn) { ForgottenLinks(bn, keys, x); }
    }

    twostate lemma ForgottenLinks(bn: BNode, new keys: set<Block>, new x: Block)
      requires Dropped(bn, keys) && x in keys
      ensures if x != bn.block.prev then LinksOk(x) else LinksButOne(x, bn)
    {
      hide Rooted, Under;
      assert old(LinksOk(x));
      assert x.Next? ==> x in Children(old(nmap.Keys), x.prev);
      forall y | y in Children(keys, x) ensures nmap[y] in nmap[x].children { assert y in Children(old(nmap.Keys), x); }
    }

    lemma LeafOf(bn: BNode, keys: set<Block>, doomed: set<Block>)
      requires Within(keys, doomed) && bn.block in keys && nmap[bn.block] == bn
      requires bn.nRef == 0
      requires forall x :: x in keys ==> x in nmap && nmap[x].nRef == Refs(keys, finalized.block, handles, x)
      requires forall x :: x in keys && x != bn.block ==> Refs(keys, finalized.block, handles, x) > 0
      ensures Refs(keys, finalized.block, handles, bn.block) == 0
      ensures Counted(keys - {bn.block}, {bn.block.prev})
      ensures bn.block.Next? && bn.block.prev in keys && bn.parent == nmap[bn.block.prev] && bn.parent.block == bn.block.prev
    {
      assert LinksOk(bn.block);
      DropLeaf(keys, finalized.block, handles, bn.block);
    }

    /** Striking the removed node from its parent's list puts everything in order. */
    twostate lemma ListFixed(par: BNode, new bn: BNode, new keys: set<Block>)
      requires old(allocated(bn)) && old(NearlyWithin(keys, bn)) && par.block == bn.block.prev
      requires nmap == old(nmap) && finalized == old(finalized)
      requires bn.block.prev in nmap ==> nmap[bn.block.prev] == par
      requires forall x :: x in nmap ==> nmap[x].live == old(nmap[x].live) && nmap[x].parent == old(nmap[x].parent)
      requires forall x :: x in nmap && nmap[x] != par ==> nmap[x].children == old(nmap[x].children)
      requires old(Kids(par.children, par.block)) ==>
                 Kids(par.children, par.block) && forall c :: c in par.children <==> c in old(par.children) && c != bn
      ensures Within(keys, {})
    {
      forall x | x in keys ensures LinksOk(x) {
        if x != bn.block.prev { assert old(LinksOk(x)); } else { assert old(LinksButOne(x, bn)); }
      }
    }

    /** Removes what is still below an unreferenced node, and its transitions. */
    method Isolate(bn: BNode, ghost keys: set<Block>, ghost doomed: set<Block>)
      requires Within(keys, doomed) && bn.block in keys && nmap[bn.block] == bn
      requires forall d :: d in doomed ==> d.prev == bn.block
      requires Refs(keys, finalized.block, handles, bn.block) == 0
      modifies this`nmap, nmap.Values`parent, nmap.Values`live
      ensures Within(keys - {bn.block}, {bn.block}) && nmap.Keys == keys && nmap[bn.block] == bn
      ensures bn.block.Next? && bn.block.prev in keys - {bn.block} && bn.parent == nmap[bn.block.prev] && bn.parent.block == bn.block.prev
      ensures forall x :: x in nmap ==> x in old(nmap) && nmap[x] == old(nmap[x])
      ensures Gone(old(nmap)) && !bn.live
    {
      hide LinksOk, Lists, Rooted, Under, Linked;
      Unheld(keys, finalized.block, handles, bn.block);
      LeafLinked(bn, keys, doomed);
      assert Rooted(keys - {bn.block}, finalized.block) by { DropLeaf(keys, finalized.block, handles, bn.block); }
      CutLeaf(bn, keys, doomed);
      LinksLeft(bn, keys, doomed);
    }

    method CutLeaf(bn: BNode, ghost keys: set<Block>, ghost doomed: set<Block>)
      requires bn.block in nmap && nmap[bn.block] == bn && Keyed() && Linked(bn.block)
      requires nmap.Keys == keys + doomed && keys !! doomed && bn.block in keys
      requires forall x :: x in nmap ==> (Under(x, bn.block) && x != bn.block <==> x in doomed)
      modifies this`nmap, nmap.Values`parent, nmap.Values`live
      ensures nmap.Keys == keys
      ensures forall x :: x in nmap ==> x in old(nmap) && nmap[x] == old(nmap[x])
      ensures forall x :: x in nmap ==> nmap[x].parent == old(nmap[x].parent)
      ensures forall x :: x in nmap && x != bn.block ==> nmap[x].live == old(nmap[x].live)
      ensures Gone(old(nmap)) && !bn.live
    {
      hide Under, Linked;
      RemoveBelow(bn, null);
      bn.live := false;
    }

    lemma LeafLinked(bn: BNode, keys: set<Block>, doomed: set<Block>)
      requires Within(keys, doomed) && bn.block in keys && nmap[bn.block] == bn
      requires forall d :: d in doomed ==> d.prev == bn.block
      requires bn.block != finalized.block && Children(keys, bn.block) == {}
      ensures Linked(bn.block)
      ensures forall x :: x in nmap ==> (Under(x, bn.block) && x != bn.block <==> x in doomed)
      ensures forall d :: d in doomed ==> Under(d, bn.block) && d != bn.block
    {
      var b := bn.block;
      UnderHeight(b, finalized.block);
      forall x | x in keys && Under(x, b) ensures x == b {
        UnderHeight(x, b);
        if x != b {
          forall z | z in keys && Under(z, b) && z != b ensures z.Next? && z.prev in keys { UnderHeight(z, b); }
          var y := ChildTowards(keys, b, x);
        }
      }
    }

    /** With the doomed leaf gone, the other nodes are still linked. */
    twostate lemma LinksLeft(bn: BNode, new keys: set<Block>, new doomed: set<Block>)
      requires LeafCut(bn, keys, doomed)
      ensures Within(keys - {bn.block}, {bn.block})
      ensures bn.block.Next? && bn.block.prev in keys - {bn.block} && bn.parent == nmap[bn.block.prev] && bn.parent.block == bn.block.prev
    {
      hide Rooted, LinksOk, Lists, Refs;
      LeafLinks(bn, keys, doomed);
      forall x | x in keys && x != bn.block ensures LinksOk(x) { LinkLeft(bn, keys, doomed, x); }
    }

    /** Everything below an unreferenced node is gone, and nothing else has changed but its own flag. */
    twostate predicate LeafCut(bn: BNode, new keys: set<Block>, new doomed: set<Block>)
      reads this, nmap.Values
    {
      && old(Within(keys, doomed)) && bn.block in keys && old(nmap[bn.block]) == bn
      && (forall d :: d in doomed ==> d.prev == bn.block)
      && Refs(keys, finalized.block, handles, bn.block) == 0 && Rooted(keys - {bn.block}, finalized.block)
      && finalized == old(finalized) && nmap.Keys == keys
      && (forall x :: x in nmap ==> x in old(nmap) && nmap[x] == old(nmap[x]) && nmap[x].children == old(nmap[x].children))
      && (forall x :: x in nmap ==> nmap[x].parent == old(nmap[x].parent))
      && (forall x :: x in nmap && x != bn.block ==> nmap[x].live == old(nmap[x].live))
    }

    twostate lemma LinkLeft(bn: BNode, new keys: set<Block>, new doomed: set<Block>, new x: Block)
      requires LeafCut(bn, keys, doomed) && x in keys && x != bn.block
      ensures LinksOk(x)
    {
      hide Rooted, Under, Refs;
      assert old(LinksOk(x));
      assert x.Next? ==> x in Children(old(nmap.Keys), x.prev);
      forall y | y in Children(keys, x) ensures nmap[y] in nmap[x].children { assert y in Children(old(nmap.Keys), x); }
    }

    twostate lemma LeafLinks(bn: BNode, new keys: set<Block>, new doomed: set<Block>)
      requires LeafCut(bn, keys, doomed)
      ensures Children(keys, bn.block) == {} && finalized.block != bn.block && Lists(bn)
      ensures bn.block.Next? && bn.block.prev != bn.block && bn.block.prev in keys && bn.parent == nmap[bn.block.prev]
    {
      hide Under;
      Unheld(keys, finalized.block, handles, bn.block);
      assert old(LinksOk(bn.block));
      assert bn.block.Next? ==> Height(bn.block) == Height(bn.block.prev) + 1;
      assert bn.block.Next? ==> bn.block in Children(old(nmap.Keys), bn.block.prev);
    }

    /** Everything in order, except that the parent of a removed node still lists it. */
    ghost predicate NearlyWithin(keys: set<Block>, bn: BNode)
      reads this`nmap, this`finalized, nmap.Values`children, nmap.Values`live, nmap.Values`parent
    {
      && nmap.Keys == keys && Keyed() && bn.block !in keys && bn.block.Next?
      && finalized.block in keys && nmap[finalized.block] == finalized
      && Rooted(keys, finalized.block)
      && (forall x :: x in keys && x != bn.block.prev ==> LinksOk(x))
      && (bn.block.prev in keys ==> LinksButOne(bn.block.prev, bn))
    }

    /** Like LinksOk, but a node no longer in the map is still listed. */
    ghost predicate LinksButOne(x: Block, bn: BNode)
      reads this`nmap, this`finalized, nmap.Values`children, nmap.Values`live, nmap.Values`parent
    {
      && x in nmap
      && var n := nmap[x];
      && n.block == x && n.live && Lists(n)
      && (forall c :: c in n.children ==> c.block in nmap || c == bn)
      && n.parent == if x == finalized.block || x.Root? || x.prev !in nmap then null else nmap[x.prev]
    }

    method RemoveChild(par: BNode, bn: BNode)
      modifies par`children
      ensures old(Kids(par.children, par.block)) ==> Kids(par.children, par.block)
      ensures old(Kids(par.children, par.block)) ==> forall c :: c in par.children <==> c in old(par.children) && c != bn
    {
      var i := 0;
      while i < |par.children| && par.children[i] != bn
        invariant 0 <= i <= |par.children|
        invariant forall k :: 0 <= k < i ==> par.children[k] != bn
      {
        i := i + 1;
      }
      if i < |par.children| {
        ghost var cs := par.children;
        var last := |par.children| - 1;
        par.children := par.children[i := par.children[last]][..last];
        forall c | c in cs && c != bn ensures c in par.children {
          var k :| 0 <= k < |cs| && cs[k] == c;
          assert par.children[if k == last then i else k] == c;
        }
      }
    }

    // --- operations --------------------------------------------------------------------------------

    /** An import or a proposal is done: its block joins the tree, unless already there, and a handle to
        it is handed out. Its parent must still be in the tree. */
    method Complete(b: Block)
      requires Valid() && (b in nmap || (b.Next? && b.prev in nmap))
      modifies this`nmap, this`handles, nmap.Values
      ensures Valid() && finalized == old(finalized)
      ensures nmap.Keys == old(nmap.Keys) + {b} && handles == old(handles) + multiset{b}
      ensures forall x :: x in old(nmap) ==> nmap[x] == old(nmap[x])
    {
      hide Within, Under, Refs;
      if b !in nmap {
        var bn := new BNode(b);
        AddNode(nmap[b.prev], bn);
      }
      NewCandidate(nmap[b]);
    }

    /** Hangs a new node below its parent. */
    method AddNode(par: BNode, bn: BNode)
      requires Valid() && bn.block !in nmap && bn.block.Next? && bn.block.prev in nmap && nmap[bn.block.prev] == par
      requires bn !in nmap.Values && bn.parent == null && bn.children == [] && bn.nRef == 0 && bn.live
      modifies this`nmap, par`children, par`nRef, bn`parent
      ensures nmap == old(nmap)[bn.block := bn]
      ensures Within(nmap.Keys, {}) && bn.block !in handles && Under(bn.block, finalized.block)
      ensures Counts()
      ensures forall x :: x in nmap && x != bn.block ==> nmap[x].nRef > 0
    {
      hide Within, Lists, Under, Refs, Children;
      NotHeld(bn.block);
      WasKeyed();
      par.children := par.children + [bn];
      bn.parent := par;
      par.nRef := par.nRef + 1;
      nmap := nmap[bn.block := bn];
      Joined(par, bn);
    }

    ghost predicate Counts()
      reads this`nmap, this`finalized, this`handles, nmap.Values`nRef
    {
      forall x :: x in nmap ==> nmap[x].nRef == Refs(nmap.Keys, finalized.block, handles, x)
    }

    /** Nobody can hold a handle to a block that is new to the tree. */
    lemma NotHeld(b: Block)
      requires Valid() && b !in nmap && b.Next? && b.prev in nmap
      ensures b !in handles && Under(b, finalized.block) && Children(nmap.Keys, b) == {}
    {
      var keys, fin := nmap.Keys, finalized.block;
      assert Under(b.prev, fin) by { SelfUnder(fin); }
      assert Under(b, fin);
      UnderHeight(b.prev, fin);
      forall x | x in keys && x.Next? ensures x.prev != b {
        assert Under(x, fin);
        UnderHeight(x, fin);
      }
    }

    twostate lemma Joined(par: BNode, new bn: BNode)
      requires old(Valid()) && bn.block.Next? && bn.block !in old(nmap) && bn.block.prev in old(nmap) && old(nmap)[bn.block.prev] == par
      requires bn !in old(nmap.Values) && bn.children == [] && bn.nRef == 0 && bn.live && bn.parent == par
      requires bn.block !in handles && Under(bn.block, finalized.block) && Children(old(nmap.Keys), bn.block) == {}
      requires nmap == old(nmap)[bn.block := bn] && finalized == old(finalized) && handles == old(handles)
      requires par.children == old(par.children) + [bn] && par.nRef == old(par.nRef) + 1
      requires forall x :: x in old(nmap) ==> nmap[x].live == old(nmap[x].live) && nmap[x].parent == old(nmap[x].parent)
      requires forall x :: x in old(nmap) && old(nmap[x]) != par ==> nmap[x].children == old(nmap[x].children) && nmap[x].nRef == old(nmap[x].nRef)
      ensures Within(nmap.Keys, {}) && Counts()
      ensures forall x :: x in nmap && x != bn.block ==> nmap[x].nRef > 0
    {
      hide Within, LinksOk, Lists, Under, Rooted, Refs, Children;
      var keys, b, fin := old(nmap.Keys), bn.block, finalized.block;
      assert nmap.Keys == keys + {b};
      WasRooted();
      GrowLeaf(keys, fin, handles, b);
      forall x | x in nmap ensures LinksOk(x) { JoinedLinks(par, bn, x); }
      Assembled(nmap.Keys);
    }

    lemma WasKeyed()
      requires Valid()
      ensures Keyed()
    {}

    twostate lemma WasLinked(x: Block)
      requires old(Valid()) && x in old(nmap)
      ensures old(LinksOk(x))
    {}

    twostate lemma WasRooted()
      requires old(Valid())
      ensures Rooted(old(nmap.Keys), old(finalized.block)) && old(Keyed()) && old(finalized.block in nmap && nmap[finalized.block] == finalized)
    {}

    lemma Assembled(keys: set<Block>)
      requires nmap.Keys == keys && Keyed() && finalized.block in keys && nmap[finalized.block] == finalized
      requires Rooted(keys, finalized.block) && forall x :: x in keys ==> LinksOk(x)
      ensures Within(keys, {})
    {}

    twostate lemma JoinedLinks(par: BNode, new bn: BNode, new x: Block)
      requires old(Valid()) && bn.block.Next? && bn.block !in old(nmap) && bn.block.prev in old(nmap) && old(nmap)[bn.block.prev] == par
      requires bn !in old(nmap.Values) && bn.children == [] && bn.nRef == 0 && bn.live && bn.parent == par
      requires bn.block !in handles && Under(bn.block, finalized.block) && Children(old(nmap.Keys), bn.block) == {}
      requires nmap == old(nmap)[bn.block := bn] && finalized == old(finalized) && handles == old(handles)
      requires par.children == old(par.children) + [bn] && par.nRef == old(par.nRef) + 1
      requires forall x :: x in old(nmap) ==> nmap[x].live == old(nmap[x].live) && nmap[x].parent == old(nmap[x].parent)
      requires forall x :: x in old(nmap) && old(nmap[x]) != par ==> nmap[x].children == old(nmap[x].children) && nmap[x].nRef == old(nmap[x].nRef)
      requires x in nmap
      ensures LinksOk(x)
    {
      hide Valid, Under, Refs, Rooted, Children;
      var keys, b := old(nmap.Keys), bn.block;
      assert b.prev != b by { assert Height(b) == Height(b.prev) + 1; }
      assert nmap.Keys == keys + {b};
      WasRooted();
      ChildrenGrow(keys, b, x);
      if x != b { WasLinked(x); }
    }

    /** Hands out a handle. */
    method NewCandidate(bn: BNode)
      requires bn.block in nmap && nmap[bn.block] == bn
      requires Within(nmap.Keys, {}) && Counts() && (forall x :: x in nmap && x != bn.block ==> nmap[x].nRef > 0)
      requires forall h :: h in handles ==> h in nmap || !Under(h, finalized.block)
      modifies bn`nRef, this`handles
      ensures Valid() && handles == old(handles) + multiset{bn.block}
    {
      hide Within, Under, Refs;
      IsKeyed();
      HeldMore(nmap.Keys, finalized.block, handles, bn.block);
      bn.nRef := bn.nRef + 1;
      handles := handles + multiset{bn.block};
    }

    /** A second handle to the same block; to a block outside the tree it is as dead as the first. */
    method Dup(b: Block)
      requires Valid() && b in handles
      modifies this`handles, nmap.Values`nRef
      ensures Valid() && nmap == old(nmap) && finalized == old(finalized) && handles == old(handles) + multiset{b}
    {
      hide Within, Under, Refs;
      IsKeyed();
      HeldMore(nmap.Keys, finalized.block, handles, b);
      if b in nmap {
        var bn := nmap[b];
        bn.nRef := bn.nRef + 1;
      }
      handles := handles + multiset{b};
    }

    /** Gives a handle back. What nobody refers to any more leaves the tree, and nothing else does. */
    method Dispose(b: Block)
      requires Valid() && b in handles
      modifies this`nmap, this`handles, nmap.Values
      ensures Valid() && finalized == old(finalized) && handles == old(handles) - multiset{b} && Gone(old(nmap))
      ensures forall x :: x in nmap ==> x in old(nmap) && nmap[x] == old(nmap[x])
    {
      hide Within, Under, Refs;
      IsKeyed();
      HeldMore(nmap.Keys, finalized.block, handles - multiset{b}, b);
      assert handles - multiset{b} + multiset{b} == handles;
      handles := handles - multiset{b};
      if b in nmap {
        ghost var left := UnrefNode(nmap[b], nmap.Keys, {});
        assert nmap.Keys == left by { WithinKeys(left); }
      }
    }

    /** Finalizes a child of the finalized block: its siblings' branches are cut off, whoever holds
        handles into them, and it becomes the root. The cut comes before the service manager is asked;
        if that fails, the manager is left with a finalized block that is no longer in the map. What fails
        after that (storing the header, the height, the proof contexts) is reported when the root has moved. */
    method Finalize(b: Block, resultOk: bool, transactionsOk: bool, storeOk: bool) returns (ok: bool)
      requires Valid()
      modifies this`nmap, this`finalized, nmap.Values
      ensures handles == old(handles)
      ensures ok <==> old(Finalizable(b)) && resultOk && transactionsOk && storeOk
      ensures !old(Finalizable(b)) ==> Valid() && nmap == old(nmap) && finalized == old(finalized)
      ensures old(Finalizable(b)) ==> nmap.Keys == Below(old(nmap.Keys), b) && forall x :: x in nmap ==> nmap[x] == old(nmap[x])
      ensures old(Finalizable(b)) ==> finalized.block == if resultOk && transactionsOk then b else old(finalized.block)
      ensures Valid() <==> !(old(Finalizable(b)) && !(resultOk && transactionsOk))
      ensures Gone(old(nmap))
    {
      hide LinksOk, Lists, Under, Refs, Children, Rooted;
      ParentIs(b);
      if b !in nmap || nmap[b].parent != finalized { return false; }
      var bn := nmap[b];
      RemoveNodeExcept(finalized, bn);
      if !resultOk || !transactionsOk {
        RootGone(old(nmap.Keys), b, finalized.block);
        return false;
      }
      finalized := bn;
      bn.nRef := bn.nRef + 1;
      NewRoot(bn);
      return storeOk;
    }

    ghost predicate Finalizable(b: Block)
      reads this
    {
      b in nmap && b.Next? && b.prev == finalized.block
    }

    lemma ParentIs(b: Block)
      requires Valid()
      ensures Finalizable(b) <==> b in nmap && nmap[b].parent == finalized
      ensures finalized.parent == null && nmap[finalized.block] == finalized
    {
      assert LinksOk(finalized.block);
      if b in nmap {
        assert LinksOk(b);
        if b.Next? && b.prev == finalized.block { assert Height(b) == Height(b.prev) + 1; }
      }
    }

    /** Takes out a root and everything below it except one child's branch. */
    method RemoveNodeExcept(root: BNode, except: BNode)
      requires Valid() && root == finalized && root.parent == null && Finalizable(except.block) && nmap[except.block] == except
      modifies this`nmap, nmap.Values`parent, nmap.Values`live
      ensures nmap.Keys == Below(old(nmap.Keys), except.block)
      ensures forall x :: x in nmap ==> nmap[x] == old(nmap[x]) && nmap[x].live == old(nmap[x].live)
      ensures forall x :: x in nmap ==> nmap[x].parent == if x == except.block then null else old(nmap[x].parent)
      ensures Gone(old(nmap))
    {
      hide Valid, Linked, Lists, Under, Children;
      RootLinked(except);
      RemoveBelow(root, except);
      except.parent := null;
      root.live := false;
      nmap := nmap - {root.block};
    }

    lemma RootLinked(except: BNode)
      requires Valid() && Finalizable(except.block) && nmap[except.block] == except
      ensures Keyed() && finalized.block in nmap && nmap[finalized.block] == finalized && Linked(finalized.block)
      ensures except in finalized.children && Under(except.block, except.block)
      ensures forall x :: x in nmap ==> Under(x, finalized.block)
      ensures forall x :: x in nmap && Under(x, except.block) ==> x != finalized.block
    {
      var b, fin := except.block, finalized.block;
      SelfUnder(fin);
      SelfUnder(b);
      assert LinksOk(fin);
      assert b in Children(nmap.Keys, fin);
      forall x | x in nmap && Under(x, b) ensures x != fin { UnderHeight(x, b); }
      forall x | x in nmap ensures Lists(nmap[x]) { assert LinksOk(x); }
    }

    lemma RootGone(keys: set<Block>, b: Block, fin: Block)
      requires nmap.Keys == Below(keys, b) && b.Next? && b.prev == fin
      ensures fin !in nmap
    {
      if Under(fin, b) { UnderHeight(fin, b); }
    }

    /** The remaining branch is a tree of its own. */
    twostate lemma NewRoot(bn: BNode)
      requires old(Valid() && Finalizable(bn.block) && nmap[bn.block] == bn)
      requires finalized == bn && handles == old(handles)
      requires nmap.Keys == Below(old(nmap.Keys), bn.block)
      requires forall x :: x in nmap ==> nmap[x] == old(nmap[x]) && nmap[x].live == old(nmap[x].live) && nmap[x].children == old(nmap[x].children)
      requires forall x :: x in nmap ==> nmap[x].parent == if x == bn.block then null else old(nmap[x].parent)
      requires forall x :: x in nmap ==> nmap[x].nRef == old(nmap[x].nRef) + if x == bn.block then 1 else 0
      ensures Valid()
    {
      hide Valid, LinksOk, Lists, Under, Rooted, Refs, Children;
      var keys, b, fin := old(nmap.Keys), bn.block, old(finalized.block);
      WasRooted();
      Branch(keys, fin, handles, b);
      forall x | x in nmap ensures LinksOk(x) { BranchLinks(bn, x); }
      Assembled(nmap.Keys);
      BranchCounts(bn);
      StaleCut(bn);
      Together();
    }

    lemma Together()
      requires Within(nmap.Keys, {}) && Counted(nmap.Keys, {})
      requires forall h :: h in handles ==> h in nmap || !Under(h, finalized.block)
      ensures Valid()
    {}

    twostate lemma BranchCounts(bn: BNode)
      requires old(Valid()) && finalized == bn && handles == old(handles) && nmap.Keys <= old(nmap.Keys)
      requires forall x :: x in nmap ==> nmap[x] == old(nmap[x])
      requires forall x :: x in nmap ==> nmap[x].nRef == old(nmap[x].nRef) + if x == bn.block then 1 else 0
      requires forall x :: x in nmap ==>
                 Refs(nmap.Keys, bn.block, handles, x) == Refs(old(nmap.Keys), old(finalized.block), handles, x) + if x == bn.block then 1 else 0
      ensures Counted(nmap.Keys, {})
    {
      hide Within, Refs;
    }

    twostate lemma StaleCut(bn: BNode)
      requires old(Valid() && Finalizable(bn.block)) && finalized == bn && handles == old(handles)
      requires nmap.Keys == Below(old(nmap.Keys), bn.block)
      ensures forall h :: h in handles ==> h in nmap || !Under(h, bn.block)
    {
      hide Within, Counted;
      SelfUnder(bn.block.prev);
      forall h | h in handles && Under(h, bn.block) ensures h in nmap {
        UnderTrans(h, bn.block, bn.block.prev);
      }
    }

    twostate lemma BranchLinks(bn: BNode, new x: Block)
      requires old(Valid() && Finalizable(bn.block) && nmap[bn.block] == bn) && x in nmap
      requires finalized == bn && nmap.Keys == Below(old(nmap.Keys), bn.block)
      requires forall y :: y in nmap ==> nmap[y] == old(nmap[y]) && nmap[y].live == old(nmap[y].live) && nmap[y].children == old(nmap[y].children)
      requires forall y :: y in nmap ==> nmap[y].parent == if y == bn.block then null else old(nmap[y].parent)
      requires x != bn.block ==> x.Next? && x.prev in nmap && x != old(finalized.block)
      requires Children(nmap.Keys, x) == Children(old(nmap.Keys), x)
      ensures LinksOk(x)
    {
      hide Valid, Under;
      WasLinked(x);
      forall c | c in nmap[x].children ensures c.block in nmap { assert c.block in Children(old(nmap.Keys), x); }
    }

    lemma IsKeyed()
      requires Within(nmap.Keys, {})
      ensures Keyed()
    {}

    lemma WithinKeyed(keys: set<Block>, doomed: set<Block>)
      requires Within(keys, doomed)
      ensures Keyed()
    {}

    lemma WithinKeys(keys: set<Block>)
      requires Within(keys, {})
      ensures nmap.Keys == keys
    {}
  }

  /** Below a child of the root lies a tree with the same children and, but for the root, the same counts. */
  lemma Branch(keys: set<Block>, fin: Block, handles: multiset<Block>, b: Block)
    requires Rooted(keys, fin) && b in keys && b.Next? && b.prev == fin
    ensures Rooted(Below(keys, b), b)
    ensures forall x :: x in Below(keys, b) ==>
              && x != fin && (x != b ==> x.Next? && x.prev in Below(keys, b))
              && Children(Below(keys, b), x) == Children(keys, x)
              && Refs(Below(keys, b), b, handles, x) == Refs(keys, fin, handles, x) + if x == b then 1 else 0
  {
    SelfUnder(b);
    forall x | x in Below(keys, b)
      ensures x != fin && (x != b ==> x.Next? && x.prev in Below(keys, b)) && Children(Below(keys, b), x) == Children(keys, x)
    {
      UnderHeight(x, b);
      forall y | y in Children(keys, x) ensures Under(y, b) {}
    }
  }

  lemma Unheld(keys: set<Block>, fin: Block, handles: multiset<Block>, b: Block)
    requires Refs(keys, fin, handles, b) == 0
    ensures b !in handles && b != fin && Children(keys, b) == {}
  {}

  /** One more handle to b is one more reference to b. */
  lemma HeldMore(keys: set<Block>, fin: Block, handles: multiset<Block>, b: Block)
    ensures forall x :: Refs(keys, fin, handles + multiset{b}, x) == Refs(keys, fin, handles, x) + if x == b then 1 else 0
  {}

  lemma ChildrenGrow(keys: set<Block>, b: Block, x: Block)
    requires b !in keys && b.Next? && Children(keys, b) == {}
    ensures Children(keys + {b}, x) == if x == b.prev then Children(keys, x) + {b} else Children(keys, x)
    ensures x == b ==> Children(keys + {b}, x) == {}
    ensures Children(keys, x) <= keys
  {
    assert b.prev != b by { assert Height(b) == Height(b.prev) + 1; }
  }

  /** Putting a new leaf in changes only its parent's count. */
  lemma GrowLeaf(keys: set<Block>, fin: Block, handles: multiset<Block>, b: Block)
    requires Rooted(keys, fin) && b !in keys && b.Next? && b.prev in keys && Under(b, fin)
    requires b !in handles && Children(keys, b) == {}
    ensures Rooted(keys + {b}, fin)
    ensures forall x :: x in keys ==>
              Refs(keys + {b}, fin, handles, x) == Refs(keys, fin, handles, x) + if x == b.prev then 1 else 0
    ensures Refs(keys + {b}, fin, handles, b) == 0
  {
    assert b.prev != b by { assert Height(b) == Height(b.prev) + 1; }
    forall x | x in keys + {b}
      ensures Children(keys + {b}, x) == if x == b.prev then Children(keys, x) + {b} else Children(keys, x)
    {}
  }

  /** Taking a leaf out changes only its parent's count. */
  lemma DropLeaf(keys: set<Block>, fin: Block, handles: multiset<Block>, b: Block)
    requires Rooted(keys, fin) && b in keys && b != fin && Children(keys, b) == {}
    ensures Rooted(keys - {b}, fin)
    ensures forall x :: x in keys - {b} ==>
              Refs(keys - {b}, fin, handles, x) == Refs(keys, fin, handles, x) - if x == b.prev then 1 else 0
  {
    forall x | x in keys - {b} ensures Refs(keys - {b}, fin, handles, x) == Refs(keys, fin, handles, x) - if x == b.prev then 1 else 0 {
      assert Children(keys - {b}, x) == Children(keys, x) - {b};
      assert b in Children(keys, b.prev);
    }
    forall x | x in keys - {b} && x != fin ensures x.prev in keys - {b} {
      assert x !in Children(keys, b);
    }
  }

  lemma SelfUnder(x: Block)
    ensures Under(x, x)
  {}

  /** The k-th child's subtree is untouched while its elder siblings' subtrees are removed. */
  lemma SubtreeIntact(was: set<Block>, now: set<Block>, b: Block, cs: seq<BNode>, k: nat, except: BNode?)
    requires k < |cs| && Kids(cs, b)
    requires forall x :: x in now <==> x in was && !UnderFirst(x, cs, k, except)
    requires forall x :: x in was && Under(x, b) && x != b ==> x.Next? && x.prev in was
    ensures forall x :: Under(x, cs[k].block) ==> (x in now <==> x in was)
    ensures forall x :: x in was && Under(x, cs[k].block) ==>
              Children(now, x) == Children(was, x) && (x != cs[k].block ==> x.prev in now)
  {
    var c := cs[k].block;
    forall x | Under(x, c) ensures !UnderFirst(x, cs, k, except) {
      forall j | 0 <= j < k ensures !Under(x, cs[j].block) {
        if Under(x, cs[j].block) { SiblingsApart(x, cs[j].block, c); }
      }
    }
    forall x | x in was && Under(x, c) && x != c ensures x.prev in now {
      UnderTrans(x, c, b);
      UnderHeight(x, c);
      UnderHeight(c, b);
    }
    forall y: Block | y.Next? && Under(y.prev, c) ensures Under(y, c) {}
  }

  lemma SmallerBelow(was: set<Block>, now: set<Block>, b: Block, c: Block)
    requires now <= was && b in was && c.Next? && c.prev == b
    ensures |Below(now, c)| < |Below(was, b)|
  {
    var small, big := Below(now, c), Below(was, b);
    forall x | x in small ensures x in big && x != b {
      UnderTrans(x, c, b);
      UnderHeight(x, c);
    }
    assert b in big && small <= big - {b};
    Quorum.SubsetCard(small, big - {b});
  }

  /** Below b is b itself and what is below its children. */
  lemma AllBelow(was: set<Block>, b: Block, cs: seq<BNode>, except: BNode?)
    requires Kids(cs, b)
    requires forall x :: x in Children(was, b) ==> exists j :: 0 <= j < |cs| && cs[j].block == x
    requires forall x :: x in was && Under(x, b) && x != b ==> x.Next? && x.prev in was
    ensures forall x :: x in was ==>
              (UnderFirst(x, cs, |cs|, except) <==>
               Under(x, b) && x != b && !(except != null && except in cs && Under(x, except.block)))
  {
    forall x | x in was && Under(x, b) && x != b && !(except != null && except in cs && Under(x, except.block))
      ensures UnderFirst(x, cs, |cs|, except)
    {
      var y := ChildTowards(was, b, x);
      var j :| 0 <= j < |cs| && cs[j].block == y;
      assert cs[j] in cs;
    }
    forall x | UnderFirst(x, cs, |cs|, except)
      ensures Under(x, b) && x != b && !(except != null && except in cs && Under(x, except.block))
    {
      var j :| 0 <= j < |cs| && cs[j] != except && Under(x, cs[j].block);
      UnderTrans(x, cs[j].block, b);
      UnderHeight(x, cs[j].block);
      if except != null && except in cs && Under(x, except.block) {
        var i :| 0 <= i < |cs| && cs[i] == except;
        SiblingsApart(x, cs[j].block, except.block);
      }
    }
  }

  /** Below a block that is not in the tree, no block is. */
  lemma NothingBelow(was: set<Block>, b: Block, c: Block)
    requires c !in was && c.Next? && c.prev == b
    requires forall x :: x in was && Under(x, b) && x != b ==> x.Next? && x.prev in was
    ensures forall x :: x in was ==> !Under(x, c)
  {
    forall x | x in was ensures !Under(x, c) {
      if Under(x, c) {
        UnderTrans(x, c, b);
        UnderHeight(x, c);
        var y := ChildTowards(was, b, x);
        SiblingsApart(x, y, c);
      }
    }
  }

  lemma NoneFirst(cs: seq<BNode>, except: BNode?)
    ensures forall x :: !UnderFirst(x, cs, 0, except)
  {}

  lemma OneMore(cs: seq<BNode>, k: nat, except: BNode?)
    requires k < |cs|
    ensures forall x :: UnderFirst(x, cs, k + 1, except) <==> UnderFirst(x, cs, k, except) || (cs[k] != except && Under(x, cs[k].block))
  {}

  /** x is below one of the first k nodes, not counting the excepted one. */
  ghost predicate UnderFirst(x: Block, cs: seq<BNode>, k: nat, except: BNode?)
    requires k <= |cs|
  {
    exists j :: 0 <= j < k && cs[j] != except && Under(x, cs[j].block)
  }
}
